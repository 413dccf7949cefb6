/**
 * The fixed-length "limited list" shared by the prompt-memory windows and the
 * chat pool: it starts as `length` blank slots, and adding drops slot 0 and
 * appends at the tail, so the length never changes.
 */
module LimitedList {

  /** `create_limited_list`: a list of `length` blank slots, built by appending in a loop. */
  method CreateLimitedList<T>(length: nat, blank: T) returns (list: seq<T>)
    ensures |list| == length
    ensures forall i :: 0 <= i < |list| ==> list[i] == blank
  {
    list := [];
    var i := 0;
    while i < length
      invariant 0 <= i <= length
      invariant |list| == i
      invariant forall k :: 0 <= k < |list| ==> list[k] == blank
    {
      list := list + [blank];
      i := i + 1;
    }
  }

  /** One `pop(0)` followed by `append(x)`. */
  function ShiftIn<T>(window: seq<T>, x: T): (r: seq<T>)
    requires |window| > 0
  {
    window[1..] + [x]
  }

  /** Adding each of `xs` in turn. */
  function ShiftInAll<T>(window: seq<T>, xs: seq<T>): (r: seq<T>)
    requires |window| > 0
    decreases |xs|
  {
    if xs == [] then window else ShiftInAll(ShiftIn(window, xs[0]), xs[1..])
  }

  /**
   * Adding keeps the length and acts as a sliding window over everything
   * ever added: the result is the last |window| elements of window + xs.
   */
  lemma {:induction false} ShiftInAllSlides<T>(window: seq<T>, xs: seq<T>)
    requires |window| > 0
    ensures |ShiftInAll(window, xs)| == |window|
    ensures ShiftInAll(window, xs) == (window + xs)[|xs|..]
    decreases |xs|
  {
    if xs != [] {
      var w' := ShiftIn(window, xs[0]);
      ShiftInAllSlides(w', xs[1..]);
      assert w' + xs[1..] == (window + xs)[1..];
    }
  }

  /** Once at least |window| elements have been added, exactly the newest |window| remain, in order. */
  lemma EvictionKeepsNewest<T>(window: seq<T>, xs: seq<T>)
    requires |window| > 0 && |xs| >= |window|
    ensures ShiftInAll(window, xs) == xs[|xs| - |window|..]
  {
    ShiftInAllSlides(window, xs);
    assert (window + xs)[|xs|..] == xs[|xs| - |window|..];
  }
}

/**
 * The message arbitration layer of AIkoStreamingTools.py: a FIFO of system
 * messages, a single expiring slot for the latest microphone message, a
 * ten-slot chat pool picked at random, and the MasterQueue that routes
 * messages by kind and hands out the next one with priority
 * system > mic > chat, chat being throttled by a cooldown flag.
 *
 * Time is an explicit `now: real` (seconds); the expiry thread is `Sweep`,
 * the cooldown thread is the pair "clear allowChat at selection" /
 * `EndCooldown`, and each random choice is a nondeterministic `:|`.
 */
module StreamingTools {
  import opened Wrappers
  import opened LimitedList

  /** The number of slots of a chat pool. */
  const PoolSize: nat := 10

  /** What a message-returning call that may raise produced: it returned, or it raised. */
  datatype Outcome = Pass | Raised(exception: PyException)

  /** The `(type, content)` pair `get_next` returns; `("", "")` when nothing is ready. */
  datatype Reply = Reply(kind: string, content: string)

  // ------------------------------------------------------------------------
  // The chat pool as a value
  // ------------------------------------------------------------------------

  /** The full-scan emptiness test: every slot is blank. */
  predicate PoolIsEmpty(pool: seq<string>)
  {
    forall i :: 0 <= i < |pool| ==> pool[i] == ""
  }

  /** The number of slots that hold a message. */
  function Occupied(pool: seq<string>): nat
  {
    if pool == [] then 0 else (if pool[0] != "" then 1 else 0) + Occupied(pool[1..])
  }

  /**
   * What `pick_message` may do: on an all-blank pool return "" and change
   * nothing; otherwise return the content of one occupied slot and blank
   * that slot alone, in place.
   */
  ghost predicate IsPick(before: seq<string>, after: seq<string>, picked: string)
  {
    if PoolIsEmpty(before) then after == before && picked == ""
    else exists i :: 0 <= i < |before| && before[i] != "" && picked == before[i] && after == before[i := ""]
  }

  /** `list.index`: the first slot holding `x`. */
  function FirstIndex(pool: seq<string>, x: string): (r: nat)
    requires x in pool
    ensures r < |pool| && pool[r] == x
    ensures forall j :: 0 <= j < r ==> pool[j] != x
  {
    if pool[0] == x then 0 else 1 + FirstIndex(pool[1..], x)
  }

  /** `edit_message`: None where the source raises ValueError. */
  function PoolEdit(pool: seq<string>, original: string, replacement: string): (r: Option<seq<string>>)
    ensures r.None? <==> original !in pool
    ensures r.Some? ==> exists k :: 0 <= k < |pool| && pool[k] == original
                                   && (forall j :: 0 <= j < k ==> pool[j] != original)
                                   && r.value == pool[k := replacement]
  {
    if original in pool then Some(pool[FirstIndex(pool, original) := replacement]) else None
  }

  /**
   * `delete_message`: the guard only rejects indices above 10; any other
   * index is a Python list index, negative ones counting from the end, and
   * one outside the list raises IndexError.
   */
  function PoolDelete(pool: seq<string>, index: int): (r: Result<seq<string>, PyException>)
    ensures r == Failure(ValueError) <==> index > 10
    ensures r == Failure(IndexError) <==> index <= 10 && (index >= |pool| || index < -|pool|)
    ensures r.Success? ==> -|pool| <= index < |pool|
                           && r.value == pool[(if index >= 0 then index else |pool| + index) := ""]
  {
    if index > 10 then Failure(ValueError)
    else if 0 <= index < |pool| then Success(pool[index := ""])
    else if -|pool| <= index < 0 then Success(pool[|pool| + index := ""])
    else Failure(IndexError)
  }

  /** Overwriting one slot changes the occupied count by what left and what arrived. */
  lemma {:induction false} OccupiedUpdate(pool: seq<string>, i: nat, v: string)
    requires i < |pool|
    ensures Occupied(pool[i := v]) + (if pool[i] != "" then 1 else 0)
         == Occupied(pool) + (if v != "" then 1 else 0)
  {
    if i > 0 {
      OccupiedUpdate(pool[1..], i - 1, v);
      assert pool[i := v][1..] == pool[1..][i - 1 := v];
    }
  }

  /** An all-blank pool is exactly one with no occupied slot. */
  lemma {:induction false} OccupiedZero(pool: seq<string>)
    ensures Occupied(pool) == 0 <==> PoolIsEmpty(pool)
  {
    if pool != [] {
      OccupiedZero(pool[1..]);
      assert PoolIsEmpty(pool) <==> pool[0] == "" && PoolIsEmpty(pool[1..]) by {
        if pool[0] == "" && PoolIsEmpty(pool[1..]) {
          forall i | 0 <= i < |pool| ensures pool[i] == "" {
            if i > 0 { assert pool[i] == pool[1..][i - 1]; }
          }
        }
      }
    }
  }

  /**
   * At-most-once delivery: while any message is pending, a pick returns a
   * real message and removes exactly that one; the slot it came from is
   * blank afterwards, so it cannot be picked again.
   */
  lemma PickDeliversWhenPending(before: seq<string>, after: seq<string>, picked: string)
    requires IsPick(before, after, picked)
    requires !PoolIsEmpty(before)
    ensures picked != "" && |after| == |before|
    ensures Occupied(after) + 1 == Occupied(before)
    ensures multiset(after) + multiset{picked} == multiset(before) + multiset{""}
  {
    var i :| 0 <= i < |before| && before[i] != "" && picked == before[i] && after == before[i := ""];
    OccupiedUpdate(before, i, "");
  }

  /** A pick on a pool with nothing pending returns "" and leaves the pool as it was. */
  lemma PickOnEmptyPool(before: seq<string>, after: seq<string>, picked: string)
    requires IsPick(before, after, picked)
    requires Occupied(before) == 0
    ensures picked == "" && after == before
  {
    OccupiedZero(before);
  }

  /** `get_next` of a list-backed queue: the head, or "" when the queue is empty. */
  function QueueHead(queue: seq<string>): string
  {
    if queue == [] then "" else queue[0]
  }

  /** The queue left after `get_next`. */
  function QueueTail(queue: seq<string>): seq<string>
  {
    if queue == [] then [] else queue[1..]
  }

  // ------------------------------------------------------------------------
  // The channels
  // ------------------------------------------------------------------------

  /** `MessageQueue`: a strict FIFO of system messages. */
  class MessageQueue {
    var queue: seq<string>

    constructor ()
      ensures queue == []
    {
      queue := [];
    }

    predicate IsEmpty()
      reads this
    {
      |queue| == 0
    }

    method AddMessage(message: string)
      modifies this
      ensures queue == old(queue) + [message]
    {
      queue := queue + [message];
    }

    /** Removes and returns the earliest message, or returns "" when the queue is empty. */
    method GetNext() returns (message: string)
      modifies this
      ensures message == QueueHead(old(queue)) && queue == QueueTail(old(queue))
    {
      if !IsEmpty() {
        message := queue[0];
        queue := queue[1..];
      } else {
        message := "";
      }
    }
  }

  /**
   * `MessageContainer`: one slot, last write wins, reading takes and clears
   * it, and the background sweep clears it once `expiration` seconds have
   * passed since the last switch (or since construction).
   */
  class MessageContainer {
    var msg: string
    var lastSet: real
    const expiration: real

    constructor (expiration: real, now: real)
      ensures msg == "" && lastSet == now && this.expiration == expiration
    {
      msg := "";
      lastSet := now;
      this.expiration := expiration;
    }

    predicate HasMessage()
      reads this
    {
      msg != ""
    }

    /** Overwrites any pending message and restarts the expiry timer. */
    method SwitchMessage(message: string, now: real)
      modifies this
      ensures msg == message && lastSet == now
    {
      msg := message;
      lastSet := now;
    }

    /** Returns the stored message and leaves the slot blank. */
    method GetMessage() returns (message: string)
      modifies this`msg
      ensures message == old(msg) && msg == ""
    {
      message := msg;
      msg := "";
    }

    /** One pass of the expiry thread at time `now`. */
    method Sweep(now: real)
      modifies this`msg
      ensures now - lastSet >= expiration ==> msg == ""
      ensures now - lastSet < expiration ==> msg == old(msg)
    {
      if now - lastSet >= expiration {
        msg := "";
      }
    }
  }

  /** `MessagePool`: ten slots; add shifts, pick blanks one random occupied slot in place. */
  class MessagePool {
    var pool: seq<string>

    ghost predicate Valid()
      reads this
    {
      |pool| == PoolSize
    }

    constructor ()
      ensures Valid() && PoolIsEmpty(pool)
    {
      var slots := CreateLimitedList(PoolSize, "");
      pool := slots;
    }

    /** Scans every slot for a message. */
    method IsEmpty() returns (empty: bool)
      ensures empty == PoolIsEmpty(pool)
    {
      var i := 0;
      while i < |pool|
        invariant 0 <= i <= |pool|
        invariant forall k :: 0 <= k < i ==> pool[k] == ""
      {
        if pool[i] != "" {
          return false;
        }
        i := i + 1;
      }
      return true;
    }

    /** Drops slot 0 and appends the message at the tail. */
    method AddMessage(message: string)
      requires Valid()
      modifies this
      ensures Valid() && pool == ShiftIn(old(pool), message)
    {
      pool := pool[1..] + [message];
    }

    /** Returns one random occupied slot's content and blanks it, or "" on an empty pool. */
    method PickMessage() returns (message: string)
      requires Valid()
      modifies this
      ensures Valid() && IsPick(old(pool), pool, message)
    {
      message := "";
      var empty := IsEmpty();
      if !empty {
        var index :| 0 <= index < |pool| && pool[index] != "";
        message := pool[index];
        pool := pool[index := ""];
      }
    }

    /** Replaces the first slot equal to `original`; raises ValueError and changes nothing when none is. */
    method EditMessage(original: string, replacement: string) returns (r: Outcome)
      requires Valid()
      modifies this
      ensures Valid()
      ensures PoolEdit(old(pool), original, replacement).Some? ==>
                r == Pass && pool == PoolEdit(old(pool), original, replacement).value
      ensures PoolEdit(old(pool), original, replacement).None? ==>
                r == Raised(ValueError) && pool == old(pool)
    {
      if original in pool {
        var index := FirstIndex(pool, original);
        pool := pool[index := replacement];
        r := Pass;
      } else {
        r := Raised(ValueError);
      }
    }

    /** Blanks the slot at a Python list index; see `PoolDelete` for what raises. */
    method DeleteMessage(index: int) returns (r: Outcome)
      requires Valid()
      modifies this
      ensures Valid()
      ensures PoolDelete(old(pool), index).Success? ==>
                r == Pass && pool == PoolDelete(old(pool), index).value
      ensures PoolDelete(old(pool), index).Failure? ==>
                r == Raised(PoolDelete(old(pool), index).error) && pool == old(pool)
    {
      var d := PoolDelete(pool, index);
      if d.Success? {
        pool := d.value;
        r := Pass;
      } else {
        r := Raised(d.error);
      }
    }
  }

  // ------------------------------------------------------------------------
  // The arbiter
  // ------------------------------------------------------------------------

  /** `MasterQueue`: routes by kind and returns the next message by priority system > mic > chat. */
  class MasterQueue {
    const system: MessageQueue
    const mic: MessageContainer
    const chat: MessagePool
    var allowChat: bool
    /** The length of the cooldown started by the latest chat selection. */
    var cooldown: int
    const minCooldown: int
    const maxCooldown: int
    ghost const Repr: set<object>

    ghost predicate Valid()
      reads this, Repr
    {
      Repr == {this, system, mic, chat} && chat.Valid()
    }

    constructor (expiration: real, now: real, minCooldown: int, maxCooldown: int)
      ensures Valid() && fresh(system) && fresh(mic) && fresh(chat)
      ensures system.queue == [] && mic.msg == "" && mic.lastSet == now && mic.expiration == expiration
      ensures PoolIsEmpty(chat.pool) && allowChat
      ensures this.minCooldown == minCooldown && this.maxCooldown == maxCooldown
    {
      system := new MessageQueue();
      mic := new MessageContainer(expiration, now);
      chat := new MessagePool();
      allowChat := true;
      cooldown := 0;
      this.minCooldown := minCooldown;
      this.maxCooldown := maxCooldown;
      Repr := {this, system, mic, chat};
    }

    /**
     * Routes "system" to the queue, "mic" to the container (stamped `now`)
     * and "chat" to the pool; any other kind raises TypeError and changes nothing.
     */
    method AddMessage(message: string, kind: string, now: real) returns (r: Outcome)
      requires Valid()
      modifies Repr
      ensures Valid()
      ensures allowChat == old(allowChat) && cooldown == old(cooldown)
      ensures kind == "system" ==> r == Pass && system.queue == old(system.queue) + [message]
                                   && unchanged(mic) && unchanged(chat)
      ensures kind == "mic" ==> r == Pass && mic.msg == message && mic.lastSet == now
                                && unchanged(system) && unchanged(chat)
      ensures kind == "chat" ==> r == Pass && chat.pool == ShiftIn(old(chat.pool), message)
                                 && unchanged(system) && unchanged(mic)
      ensures kind != "system" && kind != "mic" && kind != "chat" ==>
                r == Raised(TypeError) && unchanged(system) && unchanged(mic) && unchanged(chat)
    {
      if kind == "system" {
        system.AddMessage(message);
        r := Pass;
      } else if kind == "mic" {
        mic.SwitchMessage(message, now);
        r := Pass;
      } else if kind == "chat" {
        chat.AddMessage(message);
        r := Pass;
      } else {
        r := Raised(TypeError);
      }
    }

    method EditChatMessage(original: string, replacement: string) returns (r: Outcome)
      requires Valid()
      modifies chat
      ensures Valid()
      ensures PoolEdit(old(chat.pool), original, replacement).Some? ==>
                r == Pass && chat.pool == PoolEdit(old(chat.pool), original, replacement).value
      ensures PoolEdit(old(chat.pool), original, replacement).None? ==>
                r == Raised(ValueError) && chat.pool == old(chat.pool)
    {
      r := chat.EditMessage(original, replacement);
    }

    method DeleteChatMessage(index: int) returns (r: Outcome)
      requires Valid()
      modifies chat
      ensures Valid()
      ensures PoolDelete(old(chat.pool), index).Success? ==>
                r == Pass && chat.pool == PoolDelete(old(chat.pool), index).value
      ensures PoolDelete(old(chat.pool), index).Failure? ==>
                r == Raised(PoolDelete(old(chat.pool), index).error) && chat.pool == old(chat.pool)
    {
      r := chat.DeleteMessage(index);
    }

    /** The cooldown timer running out. */
    method EndCooldown()
      modifies this`allowChat
      ensures allowChat
    {
      allowChat := true;
    }

    /**
     * The system queue is always popped; a non-blank head is returned as
     * "system". Otherwise the mic slot is taken and cleared; a non-blank
     * message is returned as "mic". Otherwise, if chat is allowed, a
     * cooldown drawn from [minCooldown, maxCooldown] starts (randint raises
     * ValueError on an empty range) and a pool pick is returned as "chat",
     * blank or not. Otherwise ("", "").
     */
    method GetNext() returns (r: Result<Reply, PyException>)
      requires Valid()
      modifies Repr
      ensures Valid()
      ensures system.queue == QueueTail(old(system.queue))
      ensures QueueHead(old(system.queue)) != "" ==>
                r == Success(Reply("system", QueueHead(old(system.queue))))
                && unchanged(mic) && unchanged(chat) && allowChat == old(allowChat) && cooldown == old(cooldown)
      ensures QueueHead(old(system.queue)) == "" ==> mic.msg == "" && mic.lastSet == old(mic.lastSet)
      ensures QueueHead(old(system.queue)) == "" && old(mic.msg) != "" ==>
                r == Success(Reply("mic", old(mic.msg)))
                && unchanged(chat) && allowChat == old(allowChat) && cooldown == old(cooldown)
      ensures QueueHead(old(system.queue)) == "" && old(mic.msg) == "" && old(allowChat) && minCooldown <= maxCooldown ==>
                r.Success? && r.value.kind == "chat" && IsPick(old(chat.pool), chat.pool, r.value.content)
                && !allowChat && minCooldown <= cooldown <= maxCooldown
      ensures QueueHead(old(system.queue)) == "" && old(mic.msg) == "" && old(allowChat) && minCooldown > maxCooldown ==>
                r == Failure(ValueError) && unchanged(chat) && allowChat == old(allowChat) && cooldown == old(cooldown)
      ensures QueueHead(old(system.queue)) == "" && old(mic.msg) == "" && !old(allowChat) ==>
                r == Success(Reply("", "")) && unchanged(chat) && allowChat == old(allowChat) && cooldown == old(cooldown)
    {
      var msg := system.GetNext();
      if msg != "" {
        return Success(Reply("system", msg));
      }
      msg := mic.GetMessage();
      if msg != "" {
        return Success(Reply("mic", msg));
      }
      if allowChat {
        if minCooldown > maxCooldown {
          return Failure(ValueError);
        }
        var length :| minCooldown <= length <= maxCooldown;
        cooldown := length;
        allowChat := false;
        msg := chat.PickMessage();
        return Success(Reply("chat", msg));
      }
      return Success(Reply("", ""));
    }
  }

  // ------------------------------------------------------------------------
  // Client scenarios: what a caller can conclude from the contracts alone
  // ------------------------------------------------------------------------

  /** Adding messages and then asking for as many returns them in the order they were added. */
  method FifoOrder(messages: seq<string>) returns (out: seq<string>)
    ensures out == messages
  {
    var q := new MessageQueue();
    var i := 0;
    while i < |messages|
      invariant 0 <= i <= |messages|
      invariant q.queue == messages[..i]
    {
      q.AddMessage(messages[i]);
      i := i + 1;
    }
    out := [];
    while |out| < |messages|
      invariant |out| <= |messages|
      invariant out + q.queue == messages
      decreases |messages| - |out|
    {
      var m := q.GetNext();
      out := out + [m];
    }
  }

  /**
   * One message on each channel, then five polls with the configured
   * defaults (10 s expiry, 2-6 s cooldown): system, mic, chat, then nothing
   * while chat cools down, then a blank chat pick once it has ended.
   */
  method PriorityOrder(s: string, m: string, c: string, now: real)
    returns (first: Result<Reply, PyException>, second: Result<Reply, PyException>,
             third: Result<Reply, PyException>, fourth: Result<Reply, PyException>,
             fifth: Result<Reply, PyException>)
    requires s != "" && m != "" && c != ""
    ensures first == Success(Reply("system", s))
    ensures second == Success(Reply("mic", m))
    ensures third == Success(Reply("chat", c))
    ensures fourth == Success(Reply("", ""))
    ensures fifth == Success(Reply("chat", ""))
  {
    var mq := new MasterQueue(10.0, now, 2, 6);
    var r := mq.AddMessage(c, "chat", now);
    r := mq.AddMessage(m, "mic", now);
    r := mq.AddMessage(s, "system", now);
    first := mq.GetNext();
    second := mq.GetNext();
    ghost var before := mq.chat.pool;
    assert forall k :: 0 <= k < PoolSize - 1 ==> before[k] == "";
    assert before[PoolSize - 1] == c;
    third := mq.GetNext();
    assert IsPick(before, mq.chat.pool, third.value.content);
    fourth := mq.GetNext();
    mq.EndCooldown();
    assert PoolIsEmpty(mq.chat.pool);
    fifth := mq.GetNext();
  }

  /**
   * A mic message read at once is delivered; one left unread until the
   * expiry has elapsed is cleared by the sweep and reads as "".
   */
  method MicExpires(message: string, setAt: real, expiration: real, later: real)
    returns (prompt: string, stale: string)
    requires later - setAt >= expiration
    ensures prompt == message && stale == ""
  {
    var box := new MessageContainer(expiration, setAt);
    box.SwitchMessage(message, setAt);
    prompt := box.GetMessage();
    box.SwitchMessage(message, setAt);
    box.Sweep(later);
    stale := box.GetMessage();
  }

  /**
   * `MessageQueue.is_empty` is false exactly when something was added, and
   * polling until it holds takes every message back, in order.
   */
  method QueueEmptiness(messages: seq<string>) returns (emptyAfterAdds: bool, taken: seq<string>)
    ensures emptyAfterAdds <==> messages == []
    ensures taken == messages
  {
    var q := new MessageQueue();
    var i := 0;
    while i < |messages|
      invariant 0 <= i <= |messages|
      invariant q.queue == messages[..i]
    {
      q.AddMessage(messages[i]);
      i := i + 1;
    }
    assert messages[..i] == messages;
    emptyAfterAdds := q.IsEmpty();
    taken := [];
    while !q.IsEmpty()
      invariant taken + q.queue == messages
      decreases |q.queue|
    {
      var m := q.GetNext();
      taken := taken + [m];
    }
  }

  /**
   * `MessageContainer.has_message` after a switch, a sweep at `later` and a
   * read: a non-empty message is held until it expires, and a read always
   * leaves the slot empty.
   */
  method HasMessageLifecycle(message: string, now: real, expiration: real, later: real)
    returns (afterSwitch: bool, afterSweep: bool, afterRead: bool)
    ensures afterSwitch <==> message != ""
    ensures afterSweep <==> message != "" && later - now < expiration
    ensures !afterRead
  {
    var box := new MessageContainer(expiration, now);
    box.SwitchMessage(message, now);
    afterSwitch := box.HasMessage();
    box.Sweep(later);
    afterSweep := box.HasMessage();
    var _ := box.GetMessage();
    afterRead := box.HasMessage();
  }
}

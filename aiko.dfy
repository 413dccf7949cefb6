/**
 * The bounded prompt memory of AIko.py: fixed-length message windows, the
 * character object that owns a scenario window (1 slot), a side-prompt
 * window (5) and a rolling context window (10), the assembly of the
 * request context, the memory update after a completion, and the helpers
 * that turn prompt files into text and file names into keyword keys.
 *
 * The completion service, the log file and all file and directory
 * reading are outside the model: file contents arrive as parameters.
 */
module Aiko {
  import opened Wrappers
  import opened Text
  import opened LimitedList

  /** A window slot: blank (the source's '') or a `{"role": ..., "content": ...}` message. */
  datatype Slot = Blank | Turn(role: string, content: string)

  const ContextSlots: nat := 10
  const SidePromptSlots: nat := 5
  const ScenarioSlots: nat := 1

  function Blanks(n: nat): (r: seq<Slot>)
  {
    seq(n, _ => Blank)
  }

  // ------------------------------------------------------------------------
  // Windows
  // ------------------------------------------------------------------------

  /** `get_items`: the non-blank slots, in their original order. */
  function Populated(slots: seq<Slot>): (r: seq<Slot>)
    ensures |r| <= |slots|
    ensures forall i :: 0 <= i < |r| ==> r[i].Turn?
  {
    if slots == [] then []
    else if slots[0].Turn? then [slots[0]] + Populated(slots[1..])
    else Populated(slots[1..])
  }

  lemma {:induction false} PopulatedAppend(a: seq<Slot>, b: seq<Slot>)
    ensures Populated(a + b) == Populated(a) + Populated(b)
    decreases |a|
  {
    if a == [] {
      assert a + b == b;
    } else {
      PopulatedAppend(a[1..], b);
      assert (a + b)[0] == a[0];
      assert (a + b)[1..] == a[1..] + b;
      if a[0].Turn? {
        assert [a[0]] + (Populated(a[1..]) + Populated(b)) == ([a[0]] + Populated(a[1..])) + Populated(b);
      }
    }
  }

  /** A window with no blank slot shows all of it. */
  lemma {:induction false} PopulatedOfTurns(slots: seq<Slot>)
    requires forall i :: 0 <= i < |slots| ==> slots[i].Turn?
    ensures Populated(slots) == slots
    decreases |slots|
  {
    if slots != [] {
      PopulatedOfTurns(slots[1..]);
    }
  }

  lemma {:induction false} PopulatedOfBlanks(slots: seq<Slot>)
    requires forall i :: 0 <= i < |slots| ==> slots[i] == Blank
    ensures Populated(slots) == []
    decreases |slots|
  {
    if slots != [] {
      PopulatedOfBlanks(slots[1..]);
    }
  }

  /**
   * A fresh window (all slots blank) that has been given the turns `ts`
   * shows the newest |blanks| of them in the order they were added, or all
   * of them while fewer have been added.
   */
  lemma WindowShowsNewest(blanks: seq<Slot>, ts: seq<Slot>)
    requires |blanks| > 0 && forall i :: 0 <= i < |blanks| ==> blanks[i] == Blank
    requires forall i :: 0 <= i < |ts| ==> ts[i].Turn?
    ensures |ts| >= |blanks| ==> Populated(ShiftInAll(blanks, ts)) == ts[|ts| - |blanks|..]
    ensures |ts| < |blanks| ==> Populated(ShiftInAll(blanks, ts)) == ts
  {
    if |ts| >= |blanks| {
      WindowFull(blanks, ts);
    } else {
      WindowFilling(blanks, ts);
    }
  }

  lemma WindowFull(window: seq<Slot>, ts: seq<Slot>)
    requires 0 < |window| <= |ts|
    requires forall i :: 0 <= i < |ts| ==> ts[i].Turn?
    ensures Populated(ShiftInAll(window, ts)) == ts[|ts| - |window|..]
  {
    var newest := ts[|ts| - |window|..];
    ShiftInAllSlides(window, ts);
    assert (window + ts)[|ts|..] == newest;
    PopulatedOfTurns(newest);
  }

  lemma WindowFilling(blanks: seq<Slot>, ts: seq<Slot>)
    requires |ts| < |blanks|
    requires forall i :: 0 <= i < |blanks| ==> blanks[i] == Blank
    requires forall i :: 0 <= i < |ts| ==> ts[i].Turn?
    ensures Populated(ShiftInAll(blanks, ts)) == ts
  {
    var rest := blanks[|ts|..];
    ShiftInAllSlides(blanks, ts);
    assert (blanks + ts)[|ts|..] == rest + ts;
    BlanksThenTurns(rest, ts);
  }

  lemma BlanksThenTurns(blanks: seq<Slot>, ts: seq<Slot>)
    requires forall i :: 0 <= i < |blanks| ==> blanks[i] == Blank
    requires forall i :: 0 <= i < |ts| ==> ts[i].Turn?
    ensures Populated(blanks + ts) == ts
  {
    PopulatedAppend(blanks, ts);
    PopulatedOfBlanks(blanks);
    PopulatedOfTurns(ts);
  }

  /** `messageList`: a fixed-length window of message slots. */
  class MessageList {
    var slots: seq<Slot>

    constructor (n: nat)
      ensures slots == Blanks(n)
    {
      var blanks := CreateLimitedList(n, Blank);
      slots := blanks;
    }

    /** Drops slot 0 and appends the message; `pop(0)` raises IndexError on a 0-slot list. */
    method AddItem(item: string, role: string)
      requires |slots| > 0
      modifies this
      ensures slots == ShiftIn(old(slots), Turn(role, item))
    {
      slots := slots[1..] + [Turn(role, item)];
    }

    /** Collects the non-blank slots in order, without changing the window. */
    method GetItems() returns (items: seq<Slot>)
      ensures items == Populated(slots)
    {
      items := [];
      var i := 0;
      while i < |slots|
        invariant 0 <= i <= |slots|
        invariant items == Populated(slots[..i])
      {
        PopulatedAppend(slots[..i], [slots[i]]);
        assert slots[..i + 1] == slots[..i] + [slots[i]];
        if slots[i] != Blank {
          items := items + [slots[i]];
        }
        i := i + 1;
      }
      assert slots[..i] == slots;
    }

    /** Only the newest (last) slot is looked at. */
    predicate IsEmpty()
      requires |slots| > 0
      reads this
    {
      slots[|slots| - 1] == Blank
    }
  }

  /**
   * `messageList.is_empty` on a fresh window of `n` slots given the turns
   * `ts`: it holds exactly until the first turn is added.
   */
  method WindowEmptyUntilFirstAdd(n: nat, ts: seq<Slot>) returns (empty: bool)
    requires n > 0
    requires forall i :: 0 <= i < |ts| ==> ts[i].Turn?
    ensures empty <==> ts == []
  {
    var w := new MessageList(n);
    var i := 0;
    while i < |ts|
      invariant 0 <= i <= |ts| && |w.slots| == n
      invariant i == 0 ==> w.slots == Blanks(n)
      invariant i > 0 ==> w.slots[n - 1] == ts[i - 1]
    {
      w.AddItem(ts[i].content, ts[i].role);
      i := i + 1;
    }
    empty := w.IsEmpty();
  }

  /**
   * `is_empty` looks only at the newest slot: a window whose newest slot is
   * blank counts as empty even when an older slot holds a turn that
   * `get_items` returns.
   */
  lemma IsEmptyIgnoresOlderSlots(w: MessageList, k: nat)
    requires k < |w.slots| && w.slots[k].Turn? && w.slots[|w.slots| - 1] == Blank
    ensures w.IsEmpty() && Populated(w.slots) != []
  {
    var slots := w.slots;
    assert slots == slots[..k] + slots[k..];
    PopulatedAppend(slots[..k], slots[k..]);
    assert slots[k..][0] == slots[k];
  }

  // ------------------------------------------------------------------------
  // Context assembly
  // ------------------------------------------------------------------------

  /** The "black box simulator" test: the message mentions "you" and "favorite" or "like", in any case. */
  predicate WantsProfile(message: string)
  {
    var l := Lower(message);
    Contains(l, "you") && (Contains(l, "favorite") || Contains(l, "like"))
  }

  function KeywordIndexFrom(keywords: seq<(string, string)>, message: string, from: nat): (r: Option<nat>)
    ensures r.Some? ==> from <= r.value < |keywords| && StartsWith(message, keywords[r.value].0)
    ensures r.Some? ==> forall j :: from <= j < r.value ==> !StartsWith(message, keywords[j].0)
    ensures r.None? ==> forall j :: from <= j < |keywords| ==> !StartsWith(message, keywords[j].0)
    decreases |keywords| - from
  {
    if from >= |keywords| then None
    else if StartsWith(message, keywords[from].0) then Some(from)
    else KeywordIndexFrom(keywords, message, from + 1)
  }

  /** The keyword turns: one, for the first key (in dictionary order) that the message starts with, or none. */
  function KeywordTurns(keywords: seq<(string, string)>, message: string): (r: seq<Slot>)
    ensures |r| <= 1
    ensures |r| == 1 <==> exists j :: 0 <= j < |keywords| && StartsWith(message, keywords[j].0)
    ensures |r| == 1 ==> exists j :: 0 <= j < |keywords| && StartsWith(message, keywords[j].0)
                               && (forall i :: 0 <= i < j ==> !StartsWith(message, keywords[i].0))
                               && r[0] == Turn("system", keywords[j].1)
  {
    match KeywordIndexFrom(keywords, message, 0)
    case Some(k) => [Turn("system", keywords[k].1)]
    case None => []
  }

  /** `__build_context` over the windows' populated items. */
  function ContextFor(personality: string, scenarioItems: seq<Slot>, sideItems: seq<Slot>,
                      contextItems: seq<Slot>, profile: string, keywords: seq<(string, string)>,
                      message: string, useSystemRole: bool): seq<Slot>
  {
    [Turn("system", personality)] + scenarioItems + sideItems + contextItems
    + (if WantsProfile(message) then [Turn("system", profile)] else [])
    + (if useSystemRole then KeywordTurns(keywords, message) + [Turn("system", message)]
       else [Turn("user", message)])
  }

  /**
   * The request layout: the personality turn first; then the scenario,
   * side-prompt and context items in that order; then exactly one profile
   * turn when the message asks about preferences; then at most one keyword
   * turn, only in system-role mode; and the new message last, under the
   * system or the user role.
   */
  lemma ContextLayout(personality: string, scenarioItems: seq<Slot>, sideItems: seq<Slot>,
                      contextItems: seq<Slot>, profile: string, keywords: seq<(string, string)>,
                      message: string, useSystemRole: bool)
    ensures var r := ContextFor(personality, scenarioItems, sideItems, contextItems, profile, keywords, message, useSystemRole);
            var history := scenarioItems + sideItems + contextItems;
            var profileTurns := if WantsProfile(message) then 1 else 0;
            var keywordTurns := if useSystemRole then |KeywordTurns(keywords, message)| else 0;
            |r| == 2 + |history| + profileTurns + keywordTurns
            && keywordTurns <= 1
            && r[0] == Turn("system", personality)
            && r[1..1 + |history|] == history
            && (WantsProfile(message) ==> r[1 + |history|] == Turn("system", profile))
            && (keywordTurns == 1 ==> r[1 + |history| + profileTurns] == KeywordTurns(keywords, message)[0])
            && r[|r| - 1] == Turn(if useSystemRole then "system" else "user", message)
  {
    var history := scenarioItems + sideItems + contextItems;
    var r := ContextFor(personality, scenarioItems, sideItems, contextItems, profile, keywords, message, useSystemRole);
    var profileTurns: seq<Slot> := if WantsProfile(message) then [Turn("system", profile)] else [];
    var tail := if useSystemRole then KeywordTurns(keywords, message) + [Turn("system", message)]
                else [Turn("user", message)];
    var head := [Turn("system", personality)] + history;
    assert r == head + (profileTurns + tail);
    assert head[1..] == history;
    assert r[..|head|] == head;
    assert r[|head|..] == profileTurns + tail;
  }

  // ------------------------------------------------------------------------
  // Completion post-processing and prompt files
  // ------------------------------------------------------------------------

  /**
   * The reply `interact` returns: when "Name:" occurs within the first
   * len(name) + 2 characters of the completion, the first len(name) + 1
   * characters are dropped.
   */
  function StripName(name: string, completion: string): string
  {
    if Contains(Slice(completion, 0, |name| + 2), name + ":") then SliceFrom(completion, |name| + 1)
    else completion
  }

  /** A completion that starts with "Name:" comes back without it. */
  lemma StripNamePrefix(name: string, rest: string)
    ensures StripName(name, name + ":" + rest) == rest
  {
    var c := name + ":" + rest;
    var window := Slice(c, 0, |name| + 2);
    assert window[..|name| + 1] == name + ":";
    assert OccursAt(window, name + ":", 0);
    ContainsAt(window, name + ":", 0);
    assert c[|name| + 1..] == rest;
  }

  /**
   * One character before "Name:" still triggers the strip, and the cut
   * then falls one character short: the colon stays.
   */
  lemma StripNameAfterOneChar(name: string, c: char, rest: string)
    ensures StripName(name, [c] + name + ":" + rest) == ":" + rest
  {
    var s := [c] + name + ":" + rest;
    var window := Slice(s, 0, |name| + 2);
    assert window[1..|name| + 2] == name + ":";
    assert OccursAt(window, name + ":", 1);
    ContainsAt(window, name + ":", 1);
    assert s[|name| + 1..] == ":" + rest;
  }

  /** One line of a prompt file: stripped, then cut at its first '#'. */
  function CleanLine(line: string): string
  {
    var s := Strip(line);
    match IndexOf(s, "#")
    case Some(k) => s[..k]
    case None => s
  }

  /** The cleaned lines concatenated with no separator. */
  function CleanLines(lines: seq<string>): string
  {
    if lines == [] then "" else CleanLines(lines[..|lines| - 1]) + CleanLine(lines[|lines| - 1])
  }

  lemma CleanLineHasNoComment(line: string)
    ensures '#' !in CleanLine(line)
  {
    var s := Strip(line);
    match IndexOf(s, "#")
    case Some(k) =>
      NoHashBefore(s, k);
      assert CleanLine(line) == s[..k];
    case None =>
      NoHashBefore(s, |s|);
      assert s[..|s|] == s;
  }

  /** A prefix with no occurrence of "#" starting in it holds no '#'. */
  lemma NoHashBefore(s: string, k: nat)
    requires k <= |s|
    requires forall j :: 0 <= j < k ==> !OccursAt(s, "#", j)
    ensures '#' !in s[..k]
  {
    forall i | 0 <= i < k
      ensures s[..k][i] != '#'
    {
      assert !OccursAt(s, "#", i);
      assert s[i..i + 1] == [s[i]];
    }
  }

  /** No '#' survives `txt_to_string`: every comment is cut. */
  lemma {:induction false} CleanLinesHaveNoComment(lines: seq<string>)
    ensures '#' !in CleanLines(lines)
  {
    if lines != [] {
      CleanLinesHaveNoComment(lines[..|lines| - 1]);
      CleanLineHasNoComment(lines[|lines| - 1]);
    }
  }

  /** The loop body of `txt_to_string`: strip the line, then cut it at its first '#'. */
  method CleanOneLine(raw: string) returns (line: string)
    ensures line == CleanLine(raw)
  {
    line := Strip(raw);
    var hash := IndexOf(line, "#");
    if hash.Some? {
      line := line[..hash.value];
    }
  }

  lemma CleanLinesSnoc(lines: seq<string>, i: nat)
    requires i < |lines|
    ensures CleanLines(lines[..i + 1]) == CleanLines(lines[..i]) + CleanLine(lines[i])
  {
    assert lines[..i + 1][..i] == lines[..i];
  }

  /**
   * `txt_to_string` over the file's lines (None when opening it raises
   * OSError, in which case the result is "", not None).
   */
  method TxtToString(file: Option<seq<string>>) returns (text: string)
    ensures file.None? ==> text == ""
    ensures file.Some? ==> text == CleanLines(file.value)
  {
    text := "";
    if file.Some? {
      var lines := file.value;
      var i := 0;
      while i < |lines|
        invariant 0 <= i <= |lines|
        invariant text == CleanLines(lines[..i])
      {
        var line := CleanOneLine(lines[i]);
        CleanLinesSnoc(lines, i);
        text := text + line;
        i := i + 1;
      }
      assert lines[..i] == lines;
    }
  }

  /**
   * The quote `repr` puts around a str: a double quote when the text holds
   * a single quote and no double quote, a single quote otherwise.
   */
  function ReprQuote(s: string): char
  {
    if '\'' in s && '"' !in s then '"' else '\''
  }

  function HexDigit(n: nat): char
    requires n < 16
  {
    "0123456789abcdef"[n]
  }

  /**
   * How `repr` writes one character inside quotes `q`: the backslash and
   * `q` itself are escaped, as are newline, carriage return, tab and the
   * other ASCII control characters.
   */
  function ReprChar(c: char, q: char): string
  {
    if c == '\\' then "\\\\"
    else if c == q then ['\\', q]
    else if c == '\n' then "\\n"
    else if c == '\r' then "\\r"
    else if c == '\t' then "\\t"
    else if c < ' ' || c as int == 127 then ['\\', 'x', HexDigit(c as nat / 16), HexDigit(c as nat % 16)]
    else [c]
  }

  function ReprBody(s: string, q: char): string
  {
    if s == [] then "" else ReprChar(s[0], q) + ReprBody(s[1..], q)
  }

  /** Python's `repr` of a str. */
  function Repr(s: string): string
  {
    var q := ReprQuote(s);
    [q] + ReprBody(s, q) + [q]
  }

  /**
   * `gather_txts`' dictionary key for a directory entry: `str(entry)[1:-1]`
   * is "DirEntry " followed by the `repr` of the name, from which
   * "DirEntry", ".txt", single quotes and spaces are deleted before
   * upper-casing. Double quotes are not deleted.
   */
  function KeywordKey(filename: string): string
  {
    Upper(KeyLetters("DirEntry " + Repr(filename)))
  }

  /** The deletions `gather_txts` applies to the entry text, in its order. */
  function KeyLetters(entry: string): string
  {
    Replace(Replace(Replace(Replace(entry, "DirEntry", ""), ".txt", ""), "'", ""), " ", "")
  }

  /** A keyword key holds no space, no single quote and no lower-case ASCII letter. */
  lemma KeywordKeyIsNormalised(filename: string)
    ensures ' ' !in KeywordKey(filename) && '\'' !in KeywordKey(filename)
    ensures forall i :: 0 <= i < |KeywordKey(filename)| ==> !('a' <= KeywordKey(filename)[i] <= 'z')
  {
    var entry := "DirEntry " + Repr(filename);
    var unquoted := Replace(Replace(Replace(entry, "DirEntry", ""), ".txt", ""), "'", "");
    ReplaceCharRemoves(Replace(Replace(entry, "DirEntry", ""), ".txt", ""), '\'');
    ReplaceDeleteKeeps(unquoted, " ", '\'');
    ReplaceCharRemoves(unquoted, ' ');
  }

  /**
   * A name with a single quote and no double quote is shown between double
   * quotes, and the key keeps the opening one: such a key can only match a
   * message that starts with '"'.
   */
  lemma KeywordKeyKeepsDoubleQuote(filename: string)
    requires '\'' in filename && '"' !in filename
    ensures |KeywordKey(filename)| > 0 && KeywordKey(filename)[0] == '"'
  {
    var tail := ReprBody(filename, '"') + "\"";
    assert Repr(filename) == "\"" + tail;
    assert "DirEntry " + Repr(filename) == "DirEntry" + (" \"" + tail);
    QuotedKeyLetters(tail);
  }

  /** The deletions keep the double quote that follows "DirEntry ". */
  lemma QuotedKeyLetters(tail: string)
    ensures |KeyLetters("DirEntry" + (" \"" + tail))| > 0
    ensures KeyLetters("DirEntry" + (" \"" + tail))[0] == '"'
  {
    var rest1 := Replace(tail, "DirEntry", "");
    var rest2 := Replace(rest1, ".txt", "");
    var rest3 := Replace(rest2, "'", "");
    assert Replace("DirEntry" + (" \"" + tail), "DirEntry", "") == " \"" + rest1 by {
      DirEntryDropped(" \"" + tail);
      SpaceQuoteKept(tail, "DirEntry");
    }
    assert Replace(" \"" + rest1, ".txt", "") == " \"" + rest2 by {
      SpaceQuoteKept(rest1, ".txt");
    }
    assert Replace(" \"" + rest2, "'", "") == " \"" + rest3 by {
      SpaceQuoteKept(rest2, "'");
    }
    SpaceDropped(rest3);
  }

  /** The leading "DirEntry" of an entry is deleted. */
  lemma DirEntryDropped(s: string)
    ensures Replace("DirEntry" + s, "DirEntry", "") == Replace(s, "DirEntry", "")
  {
    var e := "DirEntry" + s;
    assert e[..8] == "DirEntry" && e[8..] == s;
  }

  /** Deleting a pattern without spaces or double quotes keeps a leading ` "`. */
  lemma SpaceQuoteKept(tail: string, pat: string)
    requires |pat| > 0 && ' ' !in pat && '"' !in pat
    ensures Replace(" \"" + tail, pat, "") == " \"" + Replace(tail, pat, "")
  {
    var s := " \"" + tail;
    ReplaceHead(s, pat, "");
    assert s[1..] == "\"" + tail;
    ReplaceHead(s[1..], pat, "");
    assert s[1..][1..] == tail;
  }

  /** Deleting spaces turns a leading ` "` into `"`. */
  lemma SpaceDropped(tail: string)
    ensures Replace(" \"" + tail, " ", "") == "\"" + Replace(tail, " ", "")
  {
    var s := " \"" + tail;
    assert s[..1] == " " && s[1..] == "\"" + tail;
    ReplaceHead(s[1..], " ", "");
    assert s[1..][1..] == tail;
  }

  /** A dictionary in insertion order: no key appears twice. */
  predicate DistinctKeys(dict: seq<(string, string)>)
  {
    forall i, j :: 0 <= i < j < |dict| ==> dict[i].0 != dict[j].0
  }

  function KeySet(dict: seq<(string, string)>): set<string>
  {
    set i | 0 <= i < |dict| :: dict[i].0
  }

  /**
   * `dict[key] = value`: an existing key keeps its position and takes the
   * new value; a new key goes last.
   */
  function DictSet(dict: seq<(string, string)>, key: string, value: string): (r: seq<(string, string)>)
  {
    if dict == [] then [(key, value)]
    else if dict[0].0 == key then [(key, value)] + dict[1..]
    else [dict[0]] + DictSet(dict[1..], key, value)
  }

  /**
   * Setting a key keeps the keys distinct, adds exactly that key, and
   * afterwards the key maps to the new value while every other entry stays.
   */
  lemma {:induction false} DictSetMeaning(dict: seq<(string, string)>, key: string, value: string)
    requires DistinctKeys(dict)
    ensures DistinctKeys(DictSet(dict, key, value))
    ensures KeySet(DictSet(dict, key, value)) == KeySet(dict) + {key}
    ensures (key, value) in DictSet(dict, key, value)
    ensures forall e :: e in dict && e.0 != key ==> e in DictSet(dict, key, value)
    decreases |dict|
  {
    var r := DictSet(dict, key, value);
    if dict == [] {
      assert KeySet(r) == {key} by {
        assert r[0].0 == key;
      }
    } else {
      var rest := dict[1..];
      assert DistinctKeys(rest) by {
        forall i, j | 0 <= i < j < |rest| ensures rest[i].0 != rest[j].0 {
          assert rest[i] == dict[i + 1] && rest[j] == dict[j + 1];
        }
      }
      assert KeySet(dict) == {dict[0].0} + KeySet(rest) by {
        forall k | k in KeySet(dict) ensures k in {dict[0].0} + KeySet(rest) {
          var i :| 0 <= i < |dict| && dict[i].0 == k;
          if i > 0 {
            assert rest[i - 1] == dict[i];
          }
        }
        forall k | k in KeySet(rest) ensures k in KeySet(dict) {
          var i :| 0 <= i < |rest| && rest[i].0 == k;
          assert dict[i + 1] == rest[i];
        }
      }
      assert dict[0].0 !in KeySet(rest) by {
        forall i | 0 <= i < |rest| ensures rest[i].0 != dict[0].0 {
          assert rest[i] == dict[i + 1];
        }
      }
      if dict[0].0 == key {
        assert r == [(key, value)] + rest;
        ConsKeys((key, value), rest);
        forall e | e in dict && e.0 != key ensures e in r {
          var i :| 0 <= i < |dict| && dict[i] == e;
          assert i > 0;
          assert rest[i - 1] == e;
        }
      } else {
        DictSetMeaning(rest, key, value);
        var tail := DictSet(rest, key, value);
        assert r == [dict[0]] + tail;
        ConsKeys(dict[0], tail);
      }
    }
  }

  /** The keys of a dictionary with one more entry in front. */
  lemma ConsKeys(first: (string, string), rest: seq<(string, string)>)
    requires DistinctKeys(rest) && first.0 !in KeySet(rest)
    ensures DistinctKeys([first] + rest)
    ensures KeySet([first] + rest) == {first.0} + KeySet(rest)
  {
    var d := [first] + rest;
    forall i, j | 0 <= i < j < |d| ensures d[i].0 != d[j].0 {
      assert d[j] == rest[j - 1];
      if i > 0 {
        assert d[i] == rest[i - 1];
      }
    }
    forall k | k in KeySet(d) ensures k in {first.0} + KeySet(rest) {
      var i :| 0 <= i < |d| && d[i].0 == k;
      if i > 0 {
        assert d[i] == rest[i - 1];
      }
    }
    forall k | k in KeySet(rest) ensures k in KeySet(d) {
      var i :| 0 <= i < |rest| && rest[i].0 == k;
      assert d[i + 1] == rest[i];
    }
    assert d[0].0 == first.0;
  }

  /** Setting each (key, text) pair in turn, starting from an empty dictionary. */
  function SetEach(pairs: seq<(string, string)>): seq<(string, string)>
  {
    if pairs == [] then []
    else DictSet(SetEach(pairs[..|pairs| - 1]), pairs[|pairs| - 1].0, pairs[|pairs| - 1].1)
  }

  /**
   * Setting pairs in turn names each key once, the keys are exactly those
   * of the pairs, and the last pair is kept as it is.
   */
  lemma {:induction false} SetEachMeaning(pairs: seq<(string, string)>)
    ensures DistinctKeys(SetEach(pairs))
    ensures KeySet(SetEach(pairs)) == KeySet(pairs)
    ensures pairs != [] ==> pairs[|pairs| - 1] in SetEach(pairs)
  {
    if pairs != [] {
      var init := pairs[..|pairs| - 1];
      var last := pairs[|pairs| - 1];
      SetEachMeaning(init);
      DictSetMeaning(SetEach(init), last.0, last.1);
      KeySetSnoc(pairs);
    }
  }

  lemma KeySetSnoc(pairs: seq<(string, string)>)
    requires pairs != []
    ensures KeySet(pairs) == KeySet(pairs[..|pairs| - 1]) + {pairs[|pairs| - 1].0}
  {
    var init := pairs[..|pairs| - 1];
    forall k | k in KeySet(pairs) ensures k in KeySet(init) + {pairs[|pairs| - 1].0} {
      var i :| 0 <= i < |pairs| && pairs[i].0 == k;
      if i < |init| {
        assert pairs[i] == init[i];
      }
    }
    forall k | k in KeySet(init) ensures k in KeySet(pairs) {
      var i :| 0 <= i < |init| && init[i].0 == k;
      assert pairs[i] == init[i];
    }
  }

  /** Each file paired with its keyword key. */
  function Keyed(files: seq<(string, string)>): (r: seq<(string, string)>)
    ensures |r| == |files|
    ensures forall i :: 0 <= i < |files| ==> r[i] == (KeywordKey(files[i].0), files[i].1)
  {
    seq(|files|, i requires 0 <= i < |files| => (KeywordKey(files[i].0), files[i].1))
  }

  /** The dictionary `gather_txts` builds from (file name, text) pairs, in directory order. */
  function Gathered(files: seq<(string, string)>): seq<(string, string)>
  {
    SetEach(Keyed(files))
  }

  /**
   * The gathered keywords name each key once, every file's key is present,
   * every key is some file's key, and the last file's text is kept under
   * its key.
   */
  lemma GatheredMeaning(files: seq<(string, string)>)
    ensures DistinctKeys(Gathered(files))
    ensures forall i :: 0 <= i < |files| ==> KeywordKey(files[i].0) in KeySet(Gathered(files))
    ensures forall k :: k in KeySet(Gathered(files)) ==> exists i :: 0 <= i < |files| && KeywordKey(files[i].0) == k
    ensures files != [] ==> (KeywordKey(files[|files| - 1].0), files[|files| - 1].1) in Gathered(files)
  {
    var pairs := Keyed(files);
    SetEachMeaning(pairs);
    forall i | 0 <= i < |files| ensures KeywordKey(files[i].0) in KeySet(pairs) {
      assert pairs[i].0 == KeywordKey(files[i].0);
    }
    forall k | k in KeySet(pairs) ensures exists i :: 0 <= i < |files| && KeywordKey(files[i].0) == k {
      var i :| 0 <= i < |pairs| && pairs[i].0 == k;
      assert KeywordKey(files[i].0) == k;
    }
  }

  /**
   * `gather_txts` over the directory's text files, each given with the text
   * `txt_to_string` made of it; listing the directory is outside the model.
   */
  method GatherTxts(files: seq<(string, string)>) returns (txts: seq<(string, string)>)
    ensures txts == Gathered(files)
  {
    txts := [];
    var i := 0;
    ghost var pairs := Keyed(files);
    while i < |files|
      invariant 0 <= i <= |files|
      invariant txts == SetEach(pairs[..i])
    {
      assert pairs[..i + 1][..i] == pairs[..i];
      txts := DictSet(txts, KeywordKey(files[i].0), files[i].1);
      i := i + 1;
    }
    assert pairs[..i] == pairs;
  }

  // ------------------------------------------------------------------------
  // The character
  // ------------------------------------------------------------------------

  /** `AIko`: a character with its prompt memory. */
  class AIko {
    const characterName: string
    var personality: string
    const context: MessageList
    const sidePrompts: MessageList
    const scenario: MessageList
    const profile: string
    const keywords: seq<(string, string)>

    ghost predicate Valid()
      reads this, context, sidePrompts, scenario
    {
      context != sidePrompts && context != scenario && sidePrompts != scenario
      && |context.slots| == ContextSlots
      && |sidePrompts.slots| == SidePromptSlots
      && |scenario.slots| == ScenarioSlots
      && DistinctKeys(keywords)
    }

    /**
     * The personality, profile and keyword texts are what `txt_to_string`
     * and `gather_txts` produced from the prompt files. The scenario window
     * is given its one turn at once, even when the scenario is "".
     */
    constructor (characterName: string, personality: string, scenarioText: string,
                 profile: string, keywords: seq<(string, string)>)
      requires DistinctKeys(keywords)
      ensures Valid() && fresh(context) && fresh(sidePrompts) && fresh(scenario)
      ensures this.characterName == characterName && this.personality == personality
      ensures this.profile == profile && this.keywords == keywords
      ensures context.slots == Blanks(ContextSlots) && sidePrompts.slots == Blanks(SidePromptSlots)
      ensures scenario.slots == [Turn("system", scenarioText)]
    {
      this.characterName := characterName;
      this.personality := personality;
      this.profile := profile;
      this.keywords := keywords;
      context := new MessageList(ContextSlots);
      sidePrompts := new MessageList(SidePromptSlots);
      scenario := new MessageList(ScenarioSlots);
      new;
      scenario.AddItem(scenarioText, "system");
    }

    /** `__build_context`: what is sent to the completion service for `message`. */
    function BuildContext(message: string, useSystemRole: bool): seq<Slot>
      reads this, context, sidePrompts, scenario
    {
      ContextFor(personality, Populated(scenario.slots), Populated(sidePrompts.slots),
                 Populated(context.slots), profile, keywords, message, useSystemRole)
    }

    /**
     * `interact` with the completion text as a parameter: the request is
     * built from the memory as it was; then a user-role message is pushed
     * with the raw completion after it (system role: the completion only),
     * and the reply has a leading "Name:" stripped.
     */
    method Interact(message: string, useSystemRole: bool, completion: string)
      returns (sent: seq<Slot>, reply: string)
      requires Valid()
      modifies context
      ensures Valid()
      ensures sent == old(BuildContext(message, useSystemRole))
      ensures useSystemRole ==>
                context.slots == ShiftIn(old(context.slots), Turn("assistant", completion))
      ensures !useSystemRole ==>
                context.slots == ShiftIn(ShiftIn(old(context.slots), Turn("user", message)), Turn("assistant", completion))
      ensures reply == StripName(characterName, completion)
    {
      sent := BuildContext(message, useSystemRole);
      if useSystemRole {
        context.AddItem(completion, "assistant");
      } else {
        context.AddItem(message, "user");
        context.AddItem(completion, "assistant");
      }
      var window := Slice(completion, 0, |characterName| + 2);
      if Contains(window, characterName + ":") {
        reply := SliceFrom(completion, |characterName| + 1);
      } else {
        reply := completion;
      }
    }

    method AddSidePrompt(sidePrompt: string)
      requires Valid()
      modifies sidePrompts
      ensures Valid()
      ensures sidePrompts.slots == ShiftIn(old(sidePrompts.slots), Turn("system", sidePrompt))
    {
      sidePrompts.AddItem(sidePrompt, "system");
    }

    method ChangeScenario(scenarioText: string)
      requires Valid()
      modifies scenario
      ensures Valid()
      ensures scenario.slots == [Turn("system", scenarioText)]
    {
      scenario.AddItem(scenarioText, "system");
    }
  }

  /**
   * A new character with an empty scenario still sends a scenario turn:
   * the first request is personality, the blank scenario turn, then the
   * message (no side prompts or history yet).
   */
  method FirstRequest(name: string, personality: string, message: string)
    returns (sent: seq<Slot>)
    requires !WantsProfile(message)
    ensures sent == [Turn("system", personality), Turn("system", ""), Turn("user", message)]
  {
    var character := new AIko(name, personality, "", "", []);
    PopulatedOfBlanks(character.context.slots);
    PopulatedOfBlanks(character.sidePrompts.slots);
    PopulatedOfTurns(character.scenario.slots);
    var reply;
    sent, reply := character.Interact(message, false, "");
  }
}

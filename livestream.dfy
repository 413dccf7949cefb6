/**
 * The producer side of Livestream.py: the chat threads that triage each
 * received chat message, merge a same-author follow-up into the pending
 * pool entry and otherwise add "author: message" to the pool; the speech
 * event parser that feeds the mic slot; the author/body split used before
 * voicing a chat message; and the remote side-prompt split and dispatch.
 *
 * The chat SDKs, the socket, the recogniser and the GUI are outside the
 * model: each received item is a parameter of one step.
 */
module Livestream {
  import opened Wrappers
  import opened Text
  import opened LimitedList
  import StreamingTools
  import Aiko

  // ------------------------------------------------------------------------
  // Triage of a Twitch chat message
  // ------------------------------------------------------------------------

  /** What `__skip_message` decides for one message. */
  datatype Triage =
    | Forward                       // not skipped: merged or added as chat
    | Command                       // starts with '!'
    | FollowAlert(follower: string) // a StreamElements follow alert, turned into a system message
    | BotReply                      // any other StreamElements message

  const BotName: string := "streamelements"

  /** `s.split(" ", 1)[0]`: everything before the first space. */
  function FirstWord(s: string): (r: string)
    ensures ' ' !in r
    ensures StartsWith(s, r)
  {
    match IndexOf(s, " ")
    case Some(k) =>
      assert forall j :: 0 <= j < k ==> !OccursAt(s, " ", j);
      assert forall j :: 0 <= j < k ==> s[j] != ' ' by {
        forall j | 0 <= j < k ensures s[j] != ' ' {
          assert !OccursAt(s, " ", j);
          assert s[j..j + 1] == [s[j]];
        }
      }
      s[..k]
    case None =>
      assert forall j :: 0 <= j < |s| ==> s[j] != ' ' by {
        forall j | 0 <= j < |s| ensures s[j] != ' ' {
          assert !OccursAt(s, " ", j);
          assert s[j..j + 1] == [s[j]];
        }
      }
      s
  }

  /**
   * `__skip_message`, with the follower extracted; indexing the first
   * character of an empty message raises IndexError, which ends the thread.
   */
  function Classify(message: string, author: string): Result<Triage, PyException>
  {
    if message == [] then Failure(IndexError)
    else if message[0] == '!' then Success(Command)
    else if Lower(author) == BotName && Contains(Lower(message), "just followed!") then
      Success(FollowAlert(SliceFrom(FirstWord(message), 1)))
    else if Lower(author) == BotName then Success(BotReply)
    else Success(Forward)
  }

  /** The system message a follow alert produces. */
  function FollowAlertText(follower: string): string
  {
    "EVENT: " + follower + " just followed you on Twitch. Thank them! Read their name!"
  }

  /**
   * A message is forwarded to the merge step exactly when it is non-empty,
   * does not start with '!' and is not from the StreamElements bot (in any case).
   */
  lemma ForwardedExactly(message: string, author: string)
    ensures Classify(message, author) == Success(Forward)
            <==> message != [] && message[0] != '!' && Lower(author) != BotName
  {
  }

  /**
   * The follower named by an alert is the alert's first word without its
   * first character (the '@' or similar mark): a space-free piece of the
   * message starting at index 1.
   */
  lemma FollowerIsFirstWordTail(message: string, author: string)
    requires Classify(message, author).Success? && Classify(message, author).value.FollowAlert?
    ensures var f := Classify(message, author).value.follower;
            ' ' !in f && 1 + |f| <= |message| && message[1..1 + |f|] == f
  {
    var w := FirstWord(message);
    var f := SliceFrom(w, 1);
    if |w| >= 1 {
      assert f == w[1..];
      assert message[1..1 + |f|] == w[1..];
    }
  }

  // ------------------------------------------------------------------------
  // The merge rule
  // ------------------------------------------------------------------------

  /**
   * What a chat thread remembers between messages (`last_author`, None
   * before the first message, and `last_message`) together with the chat pool.
   */
  datatype Feed = Feed(lastAuthor: Option<string>, lastMessage: string, pool: seq<string>)

  /** The chat entry of a message that is not merged. */
  function ChatEntry(author: string, message: string): string
  {
    author + ": " + message
  }

  /**
   * One forwarded message: when it comes from the previous author, the
   * pending entry `last_message` is edited to `last_message + " " +
   * message`; when there is no previous author, a different one, or the
   * edit raises ValueError because the entry has been picked, the message
   * is added as a new entry "author: message".
   */
  function FeedStep(f: Feed, author: string, message: string): (r: Feed)
    requires |f.pool| > 0
  {
    var merged := f.lastMessage + " " + message;
    if f.lastAuthor == Some(author) && StreamingTools.PoolEdit(f.pool, f.lastMessage, merged).Some? then
      Feed(f.lastAuthor, merged, StreamingTools.PoolEdit(f.pool, f.lastMessage, merged).value)
    else
      Feed(Some(author), ChatEntry(author, message), ShiftIn(f.pool, ChatEntry(author, message)))
  }

  /** Each message in turn. */
  function FeedAll(f: Feed, items: seq<(string, string)>): (r: Feed)
    requires |f.pool| > 0
    decreases |items|
  {
    if items == [] then f
    else
      var next := FeedStep(f, items[0].0, items[0].1);
      assert |next.pool| == |f.pool| by {
        FeedStepKeepsPending(f, items[0].0, items[0].1);
      }
      FeedAll(next, items[1..])
  }

  /**
   * After a step the pool keeps its size, the author is remembered, and the
   * remembered message is pending in the pool, so a follow-up can merge into it.
   */
  lemma FeedStepKeepsPending(f: Feed, author: string, message: string)
    requires |f.pool| > 0
    ensures var r := FeedStep(f, author, message);
            |r.pool| == |f.pool| && r.lastAuthor == Some(author) && r.lastMessage in r.pool
  {
    var merged := f.lastMessage + " " + message;
    var r := FeedStep(f, author, message);
    if f.lastAuthor == Some(author) && StreamingTools.PoolEdit(f.pool, f.lastMessage, merged).Some? {
      var k := StreamingTools.FirstIndex(f.pool, f.lastMessage);
      assert r.pool[k] == merged;
    } else {
      assert r.pool[|r.pool| - 1] == ChatEntry(author, message);
    }
  }

  /**
   * A same-author follow-up while its entry is pending adds nothing: the
   * first slot holding the entry is rewritten in place and every other
   * slot stays as it was.
   */
  lemma FollowUpMergesInPlace(f: Feed, author: string, message: string)
    requires |f.pool| > 0 && f.lastAuthor == Some(author) && f.lastMessage in f.pool
    ensures var r := FeedStep(f, author, message);
            var k := StreamingTools.FirstIndex(f.pool, f.lastMessage);
            r.lastMessage == f.lastMessage + " " + message
            && r.pool[k] == r.lastMessage
            && forall j :: 0 <= j < |f.pool| && j != k ==> r.pool[j] == f.pool[j]
  {
  }

  /**
   * Once the pending entry has been picked, a follow-up is added as a new
   * entry at the tail, exactly as a message from a new author would be.
   */
  lemma PickedEntryIsNotMerged(f: Feed, author: string, message: string)
    requires |f.pool| > 0 && f.lastMessage !in f.pool
    ensures FeedStep(f, author, message)
            == Feed(Some(author), ChatEntry(author, message), ShiftIn(f.pool, ChatEntry(author, message)))
  {
  }

  /**
   * Two messages in a row from an author who did not send the previous
   * one end up as one pool entry "author: first second" at the tail,
   * provided no older slot holds the same text as the first entry.
   */
  lemma ConsecutiveMessagesShareOneEntry(f: Feed, author: string, first: string, second: string)
    requires |f.pool| > 0 && f.lastAuthor != Some(author)
    requires ChatEntry(author, first) !in f.pool[1..]
    ensures FeedAll(f, [(author, first), (author, second)]).pool
            == ShiftIn(f.pool, ChatEntry(author, first) + " " + second)
  {
    var entry := ChatEntry(author, first);
    var g := FeedStep(f, author, first);
    assert g.pool == f.pool[1..] + [entry];
    assert forall j :: 0 <= j < |g.pool| - 1 ==> g.pool[j] == f.pool[1..][j];
    assert entry in g.pool by {
      assert g.pool[|g.pool| - 1] == entry;
    }
    var k := StreamingTools.FirstIndex(g.pool, entry);
    assert k == |g.pool| - 1;
    var h := FeedStep(g, author, second);
    assert h.pool == g.pool[k := entry + " " + second];
    var items := [(author, first), (author, second)];
    assert items[1..] == [(author, second)];
    assert items[1..][1..] == [];
    assert FeedAll(f, items) == FeedAll(g, items[1..]);
    assert FeedAll(g, items[1..]) == FeedAll(h, []);
    assert g.pool[k := entry + " " + second] == f.pool[1..] + [entry + " " + second];
  }

  // ------------------------------------------------------------------------
  // The chat threads
  // ------------------------------------------------------------------------

  /** `TwitchChatThread`: triage, then merge or add, one received message at a time. */
  class TwitchChatThread {
    const queue: StreamingTools.MasterQueue
    var lastAuthor: Option<string>
    var lastMessage: string

    ghost predicate Valid()
      reads this, queue, queue.Repr
    {
      queue.Valid()
    }

    ghost function State(): Feed
      reads this, queue, queue.chat
    {
      Feed(lastAuthor, lastMessage, queue.chat.pool)
    }

    /** `last_author` starts as None when the thread starts. */
    constructor (queue: StreamingTools.MasterQueue)
      requires queue.Valid()
      ensures Valid() && this.queue == queue && lastAuthor == None
    {
      this.queue := queue;
      lastAuthor := None;
      lastMessage := "";
    }

    /** `__attempt_merge`: true when the pending entry was edited. */
    method AttemptMerge(message: string, author: string) returns (merged: bool)
      requires Valid()
      modifies this`lastMessage, queue.chat
      ensures Valid()
      ensures merged <==> lastAuthor == Some(author) && old(lastMessage) in old(queue.chat.pool)
      ensures merged ==> State() == FeedStep(old(State()), author, message)
      ensures !merged ==> lastMessage == old(lastMessage) && queue.chat.pool == old(queue.chat.pool)
    {
      merged := false;
      if lastAuthor == Some(author) {
        var mergedMessage := lastMessage + " " + message;
        var r := queue.EditChatMessage(lastMessage, mergedMessage);
        if r == StreamingTools.Pass {
          lastMessage := mergedMessage;
          merged := true;
        }
      }
    }

    /**
     * One received message: skipped messages change nothing, a follow alert
     * queues one system message, and a forwarded message takes a merge step.
     */
    method Step(author: string, message: string, now: real) returns (r: Result<Triage, PyException>)
      requires Valid()
      modifies this, queue.Repr
      ensures Valid()
      ensures r == Classify(message, author)
      ensures queue.allowChat == old(queue.allowChat) && unchanged(queue.mic)
      ensures r == Success(Forward) ==>
                State() == FeedStep(old(State()), author, message)
                && queue.system.queue == old(queue.system.queue)
      ensures r.Success? && r.value.FollowAlert? ==>
                queue.system.queue == old(queue.system.queue) + [FollowAlertText(r.value.follower)]
                && unchanged(this) && unchanged(queue.chat)
      ensures r.Failure? || r == Success(Command) || r == Success(BotReply) ==>
                unchanged(this) && unchanged(queue.system) && unchanged(queue.chat)
    {
      r := Classify(message, author);
      if r.Failure? || r == Success(Command) || r == Success(BotReply) {
        return;
      }
      if r.value.FollowAlert? {
        var added := queue.AddMessage(FollowAlertText(r.value.follower), "system", now);
        return;
      }
      var merged := AttemptMerge(message, author);
      if merged {
        return;
      }
      lastAuthor := Some(author);
      lastMessage := ChatEntry(author, message);
      var added := queue.AddMessage(lastMessage, "chat", now);
    }
  }

  /** `YoutubeChatThread`: the same merge rule with no triage. */
  class YoutubeChatThread {
    const queue: StreamingTools.MasterQueue
    var lastAuthor: Option<string>
    var lastMessage: string

    ghost predicate Valid()
      reads this, queue, queue.Repr
    {
      queue.Valid()
    }

    ghost function State(): Feed
      reads this, queue, queue.chat
    {
      Feed(lastAuthor, lastMessage, queue.chat.pool)
    }

    constructor (queue: StreamingTools.MasterQueue)
      requires queue.Valid()
      ensures Valid() && this.queue == queue && lastAuthor == None
    {
      this.queue := queue;
      lastAuthor := None;
      lastMessage := "";
    }

    method AttemptMerge(message: string, author: string) returns (merged: bool)
      requires Valid()
      modifies this`lastMessage, queue.chat
      ensures Valid()
      ensures merged <==> lastAuthor == Some(author) && old(lastMessage) in old(queue.chat.pool)
      ensures merged ==> State() == FeedStep(old(State()), author, message)
      ensures !merged ==> lastMessage == old(lastMessage) && queue.chat.pool == old(queue.chat.pool)
    {
      merged := false;
      if lastAuthor == Some(author) {
        var mergedMessage := lastMessage + " " + message;
        var r := queue.EditChatMessage(lastMessage, mergedMessage);
        if r == StreamingTools.Pass {
          lastMessage := mergedMessage;
          merged := true;
        }
      }
    }

    /** One item of a batch. */
    method Step(author: string, message: string, now: real)
      requires Valid()
      modifies this, queue.Repr
      ensures Valid()
      ensures State() == FeedStep(old(State()), author, message)
      ensures queue.allowChat == old(queue.allowChat) && unchanged(queue.mic) && unchanged(queue.system)
    {
      var merged := AttemptMerge(message, author);
      if merged {
        return;
      }
      lastAuthor := Some(author);
      lastMessage := ChatEntry(author, message);
      var added := queue.AddMessage(lastMessage, "chat", now);
    }
  }

  // ------------------------------------------------------------------------
  // Speech events, chat entries and remote side prompts
  // ------------------------------------------------------------------------

  const TextKey: string := "text=\""
  const TextEnd: string := "\","

  /**
   * `parse_event`: the text between the first `text="` and the first `",`
   * of the event's string form (empty when the latter comes first); None
   * where either search raises ValueError.
   */
  function ParseEvent(event: string): (r: Option<string>)
    ensures r.Some? ==> Contains(event, TextKey) && Contains(event, TextEnd)
    ensures r.None? ==> !Contains(event, TextKey) || !Contains(event, TextEnd)
  {
    match IndexOf(event, TextKey)
    case None => None
    case Some(start) =>
      match IndexOf(event, TextEnd)
      case None => None
      case Some(end) => Some(Slice(event, start + |TextKey|, end))
  }

  /** The extracted text never holds the terminator: it stops at the first one. */
  lemma ParsedTextHasNoTerminator(event: string)
    requires ParseEvent(event).Some?
    ensures forall j :: !OccursAt(ParseEvent(event).value, TextEnd, j)
  {
    var start := IndexOf(event, TextKey).value;
    var end := IndexOf(event, TextEnd).value;
    var lo := start + |TextKey|;
    var t := ParseEvent(event).value;
    if lo < end && lo < |event| {
      assert t == event[lo..end];
      SliceOccurrence(event, TextEnd, lo, end);
    }
  }

  /** An occurrence inside a slice is an occurrence in the whole string, shifted by the slice's start. */
  lemma SliceOccurrence(s: string, sub: string, lo: nat, hi: nat)
    requires lo <= hi <= |s|
    ensures forall j: nat :: OccursAt(s[lo..hi], sub, j) ==> OccursAt(s, sub, lo + j)
  {
    forall j: nat | OccursAt(s[lo..hi], sub, j)
      ensures OccursAt(s, sub, lo + j)
    {
      var m := |sub|;
      assert s[lo..hi][j..j + m] == sub;
      forall k | 0 <= k < m
        ensures s[lo + j..lo + j + m][k] == sub[k]
      {
        assert s[lo..hi][j..j + m][k] == s[lo + j + k];
      }
    }
  }

  /**
   * An event that shows `text="body",` with no quote before it and no
   * quote in the body yields the body, provided the body does not start
   * with a comma (which would close it at once).
   */
  lemma ParseEventRoundTrip(prefix: string, body: string, suffix: string)
    requires '"' !in prefix && '"' !in body
    requires body == [] || body[0] != ','
    ensures ParseEvent(prefix + TextKey + body + TextEnd + suffix) == Some(body)
  {
    var event := prefix + TextKey + body + TextEnd + suffix;
    var p := |prefix|;
    var e := p + 6 + |body|;
    KeyFoundAfterPrefix(prefix, body, suffix);
    EndFoundAfterBody(prefix, body, suffix);
    if body != [] {
      assert event[p + 6..e] == body;
    }
  }

  /** The first `text="` of such an event is the one right after the prefix. */
  lemma KeyFoundAfterPrefix(prefix: string, body: string, suffix: string)
    requires '"' !in prefix
    ensures IndexOf(prefix + TextKey + body + TextEnd + suffix, TextKey) == Some(|prefix|)
  {
    var event := prefix + TextKey + body + TextEnd + suffix;
    var p := |prefix|;
    assert OccursAt(event, TextKey, p) by {
      assert event[p..p + 6] == TextKey;
    }
    forall j | 0 <= j < p
      ensures !OccursAt(event, TextKey, j)
    {
      if j + 5 < p {
        assert event[j + 5] == prefix[j + 5];
      } else {
        assert event[j + 5] == TextKey[j + 5 - p];
      }
      assert event[j..j + 6][5] == event[j + 5] != TextKey[5];
    }
    FirstOccurrence(event, TextKey, p);
  }

  /** The first `",` of such an event is the one right after the body. */
  lemma EndFoundAfterBody(prefix: string, body: string, suffix: string)
    requires '"' !in prefix && '"' !in body
    requires body == [] || body[0] != ','
    ensures IndexOf(prefix + TextKey + body + TextEnd + suffix, TextEnd) == Some(|prefix| + 6 + |body|)
  {
    var event := prefix + TextKey + body + TextEnd + suffix;
    var p := |prefix|;
    var e := p + 6 + |body|;
    assert OccursAt(event, TextEnd, e) by {
      assert event[e..e + 2] == TextEnd;
    }
    forall j | 0 <= j < e
      ensures !OccursAt(event, TextEnd, j)
    {
      if j < p {
        assert event[j] == prefix[j];
      } else if j < p + 5 {
        assert event[j] == TextKey[j - p];
      } else if j == p + 5 {
        assert event[j + 1] != ',';
      } else {
        assert event[j] == body[j - p - 6];
      }
      assert event[j..j + 2][0] == event[j] && event[j..j + 2][1] == event[j + 1];
    }
    FirstOccurrence(event, TextEnd, e);
  }

  /** `IndexOf` is the position of an occurrence with none before it. */
  lemma FirstOccurrence(s: string, sub: string, k: nat)
    requires OccursAt(s, sub, k)
    requires forall j :: 0 <= j < k ==> !OccursAt(s, sub, j)
    ensures IndexOf(s, sub) == Some(k)
  {
  }

  /**
   * The speech callback: the parsed text, when non-empty, becomes the mic
   * message "username: text"; an empty text changes nothing; a missing
   * marker raises ValueError.
   */
  method OnSpeechEvent(queue: StreamingTools.MasterQueue, username: string, event: string, now: real)
    returns (r: StreamingTools.Outcome)
    requires queue.Valid()
    modifies queue.Repr
    ensures queue.Valid()
    ensures queue.allowChat == old(queue.allowChat)
    ensures unchanged(queue.system) && unchanged(queue.chat)
    ensures ParseEvent(event).None? ==> r == StreamingTools.Raised(ValueError) && unchanged(queue.mic)
    ensures ParseEvent(event) == Some("") ==> r == StreamingTools.Pass && unchanged(queue.mic)
    ensures ParseEvent(event).Some? && ParseEvent(event).value != "" ==>
              r == StreamingTools.Pass
              && queue.mic.msg == username + ": " + ParseEvent(event).value && queue.mic.lastSet == now
  {
    var parsed := ParseEvent(event);
    if parsed.None? {
      return StreamingTools.Raised(ValueError);
    }
    r := StreamingTools.Pass;
    if parsed.value != "" {
      r := queue.AddMessage(username + ": " + parsed.value, "mic", now);
    }
  }

  /**
   * `parse_msg`: the text before the first `character`, or (after) the text
   * from two characters past it; None where `str.index` raises ValueError.
   */
  function ParseMsg(msg: string, character: string, after: bool): (r: Option<string>)
    ensures r.None? <==> !Contains(msg, character)
  {
    match IndexOf(msg, character)
    case None => None
    case Some(k) => if after then Some(SliceFrom(msg, k + 2)) else Some(msg[..k])
  }

  /** A chat entry "author: body" splits back into its author and body. */
  lemma ParseMsgRoundTrip(author: string, body: string)
    requires ':' !in author
    ensures ParseMsg(ChatEntry(author, body), ":", false) == Some(author)
    ensures ParseMsg(ChatEntry(author, body), ":", true) == Some(body)
  {
    var entry := ChatEntry(author, body);
    var k := |author|;
    assert OccursAt(entry, ":", k) by {
      assert entry[k..k + 1] == ":";
    }
    forall j | 0 <= j < k
      ensures !OccursAt(entry, ":", j)
    {
      assert entry[j] == author[j];
      assert entry[j..j + 1] == [author[j]];
    }
    FirstOccurrence(entry, ":", k);
    assert entry[..k] == author;
    assert entry[k + 2..] == body;
  }

  /** A merged entry "author: a b" still reports its author, and its body is everything after ": ". */
  lemma MergedEntryKeepsAuthor(author: string, first: string, second: string)
    requires ':' !in author
    ensures ParseMsg(ChatEntry(author, first) + " " + second, ":", false) == Some(author)
  {
    assert ChatEntry(author, first) + " " + second == ChatEntry(author, first + " " + second);
    ParseMsgRoundTrip(author, first + " " + second);
  }

  /** A received remote message: everything but its last character, and that character; None when empty. */
  function RemoteSplit(msg: string): (r: Option<(string, char)>)
    ensures r.Some? ==> msg == r.value.0 + [r.value.1]
    ensures r.None? <==> msg == []
  {
    if msg == [] then None else Some((msg[..|msg| - 1], msg[|msg| - 1]))
  }

  lemma RemoteSplitRoundTrip(body: string, option: char)
    ensures RemoteSplit(body + [option]) == Some((body, option))
  {
    assert (body + [option])[..|body|] == body;
  }

  /** What the remote receiver did with one received message. */
  datatype RemoteAction =
    | ToSystem(body: string)
    | ToSidePrompt(body: string)
    | Aborted(option: char)
    | Swallowed             // indexing the last character of "" raised, and the bare except ignored it

  /**
   * The body of the remote receiver's loop after `recv`: option '1' queues
   * the body as a system message, '2' adds it as a side prompt, any other
   * option is aborted, and an empty message is swallowed.
   */
  method RemoteReceive(queue: StreamingTools.MasterQueue, character: Aiko.AIko, msg: string, now: real)
    returns (action: RemoteAction)
    requires queue.Valid() && character.Valid()
    modifies queue.Repr, character.sidePrompts
    ensures queue.Valid() && character.Valid()
    ensures queue.allowChat == old(queue.allowChat)
    ensures unchanged(queue.mic) && unchanged(queue.chat)
    ensures RemoteSplit(msg).None? ==> action == Swallowed
    ensures RemoteSplit(msg).Some? && RemoteSplit(msg).value.1 == '1' ==> action == ToSystem(RemoteSplit(msg).value.0)
    ensures RemoteSplit(msg).Some? && RemoteSplit(msg).value.1 == '2' ==> action == ToSidePrompt(RemoteSplit(msg).value.0)
    ensures RemoteSplit(msg).Some? && RemoteSplit(msg).value.1 != '1' && RemoteSplit(msg).value.1 != '2' ==>
              action == Aborted(RemoteSplit(msg).value.1)
    ensures action.ToSystem? ==> queue.system.queue == old(queue.system.queue) + [action.body]
                                 && unchanged(character.sidePrompts)
    ensures action.ToSidePrompt? ==>
              character.sidePrompts.slots == ShiftIn(old(character.sidePrompts.slots), Aiko.Turn("system", action.body))
              && unchanged(queue.system)
    ensures action.Aborted? || action.Swallowed? ==> unchanged(queue.system) && unchanged(character.sidePrompts)
  {
    var split := RemoteSplit(msg);
    if split.None? {
      return Swallowed;
    }
    var (body, option) := split.value;
    if option == '1' {
      var added := queue.AddMessage(body, "system", now);
      action := ToSystem(body);
    } else if option == '2' {
      character.AddSidePrompt(body);
      action := ToSidePrompt(body);
    } else {
      action := Aborted(option);
    }
  }
}

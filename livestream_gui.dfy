/**
 * The chat loops of LivestreamGUI.py, the earlier front end: the same
 * merge rule as Livestream.py, run by plain loops over received messages,
 * and with no skip filter, so commands and bot messages are queued as chat.
 * Its speech-event parser, `parse_msg` and remote dispatch are the same
 * text as in Livestream.py and are modelled there.
 */
module LivestreamGUI {
  import opened Wrappers
  import opened LimitedList
  import StreamingTools
  import opened Livestream

  /** Feeding a sequence and then one more message. */
  lemma {:induction false} FeedAllSnoc(f: Feed, items: seq<(string, string)>, author: string, message: string)
    requires |f.pool| > 0
    ensures |FeedAll(f, items).pool| == |f.pool|
    ensures FeedAll(f, items + [(author, message)]) == FeedStep(FeedAll(f, items), author, message)
    decreases |items|
  {
    if items == [] {
      assert [(author, message)][1..] == [];
    } else {
      var next := FeedStep(f, items[0].0, items[0].1);
      FeedStepKeepsPending(f, items[0].0, items[0].1);
      FeedAllSnoc(next, items[1..], author, message);
      assert (items + [(author, message)])[1..] == items[1..] + [(author, message)];
    }
  }

  /** Feeding two sequences one after the other is feeding their concatenation. */
  lemma {:induction false} FeedAllAppend(f: Feed, xs: seq<(string, string)>, ys: seq<(string, string)>)
    requires |f.pool| > 0
    ensures |FeedAll(f, xs).pool| == |f.pool|
    ensures FeedAll(f, xs + ys) == FeedAll(FeedAll(f, xs), ys)
    decreases |xs|
  {
    if xs == [] {
      assert xs + ys == ys;
    } else {
      var next := FeedStep(f, xs[0].0, xs[0].1);
      FeedStepKeepsPending(f, xs[0].0, xs[0].1);
      FeedAllAppend(next, xs[1..], ys);
      assert (xs + ys)[0] == xs[0];
      assert (xs + ys)[1..] == xs[1..] + ys;
    }
  }

  /** All batches' items in order. */
  function Flatten(batches: seq<seq<(string, string)>>): (r: seq<(string, string)>)
  {
    if batches == [] then [] else Flatten(batches[..|batches| - 1]) + batches[|batches| - 1]
  }

  /**
   * The body of both chat loops for one received message: when it comes
   * from the previous author, the pending entry is edited; when there is no
   * previous author, a different one, or the edit raises ValueError, the
   * message is added to the pool as "author: message".
   */
  method MergeOrAdd(queue: StreamingTools.MasterQueue, lastAuthor: Option<string>, lastMessage: string,
                    author: string, message: string, now: real)
    returns (newAuthor: Option<string>, newMessage: string)
    requires queue.Valid()
    modifies queue.Repr
    ensures queue.Valid()
    ensures Feed(newAuthor, newMessage, queue.chat.pool)
            == FeedStep(Feed(lastAuthor, lastMessage, old(queue.chat.pool)), author, message)
    ensures queue.allowChat == old(queue.allowChat) && unchanged(queue.system) && unchanged(queue.mic)
  {
    newAuthor, newMessage := lastAuthor, lastMessage;
    if lastAuthor == Some(author) {
      var mergedMessage := lastMessage + " " + message;
      var r := queue.EditChatMessage(lastMessage, mergedMessage);
      if r == StreamingTools.Pass {
        newMessage := mergedMessage;
        return;
      }
    }
    newAuthor := Some(author);
    newMessage := ChatEntry(author, message);
    var added := queue.AddMessage(newMessage, "chat", now);
  }

  /**
   * `thread_chat_twitch` over the messages received while running: every
   * message, commands included, takes the merge step. Returns the loop's
   * final `last_author`/`last_message`.
   */
  method TwitchChatLoop(queue: StreamingTools.MasterQueue, received: seq<(string, string)>, now: real)
    returns (lastAuthor: Option<string>, lastMessage: string)
    requires queue.Valid()
    modifies queue.Repr
    ensures queue.Valid()
    ensures Feed(lastAuthor, lastMessage, queue.chat.pool) == FeedAll(Feed(None, "", old(queue.chat.pool)), received)
    ensures queue.allowChat == old(queue.allowChat) && unchanged(queue.system) && unchanged(queue.mic)
  {
    lastAuthor := None;
    lastMessage := "";
    ghost var start := Feed(None, "", queue.chat.pool);
    var i := 0;
    while i < |received|
      invariant 0 <= i <= |received|
      invariant queue.Valid()
      invariant Feed(lastAuthor, lastMessage, queue.chat.pool) == FeedAll(start, received[..i])
      invariant queue.allowChat == old(queue.allowChat) && unchanged(queue.system) && unchanged(queue.mic)
    {
      var (author, message) := received[i];
      FeedAllSnoc(start, received[..i], author, message);
      assert received[..i + 1] == received[..i] + [(author, message)];
      lastAuthor, lastMessage := MergeOrAdd(queue, lastAuthor, lastMessage, author, message, now);
      i := i + 1;
    }
    assert received[..i] == received;
  }

  /**
   * `thread_chat_youtube` over the batches `get().sync_items()` returned
   * while the chat was alive: the same rule, item by item, across batches.
   */
  method YoutubeChatLoop(queue: StreamingTools.MasterQueue, batches: seq<seq<(string, string)>>, now: real)
    returns (lastAuthor: Option<string>, lastMessage: string)
    requires queue.Valid()
    modifies queue.Repr
    ensures queue.Valid()
    ensures Feed(lastAuthor, lastMessage, queue.chat.pool) == FeedAll(Feed(None, "", old(queue.chat.pool)), Flatten(batches))
    ensures queue.allowChat == old(queue.allowChat) && unchanged(queue.system) && unchanged(queue.mic)
  {
    lastAuthor := None;
    lastMessage := "";
    ghost var start := Feed(None, "", queue.chat.pool);
    var b := 0;
    while b < |batches|
      invariant 0 <= b <= |batches|
      invariant queue.Valid()
      invariant Feed(lastAuthor, lastMessage, queue.chat.pool) == FeedAll(start, Flatten(batches[..b]))
      invariant queue.allowChat == old(queue.allowChat) && unchanged(queue.system) && unchanged(queue.mic)
    {
      var batch := batches[b];
      ghost var done := Flatten(batches[..b]);
      ghost var mid := Feed(lastAuthor, lastMessage, queue.chat.pool);
      assert |mid.pool| == StreamingTools.PoolSize;
      assert batch[..0] == [];
      var i := 0;
      while i < |batch|
        invariant 0 <= i <= |batch|
        invariant queue.Valid()
        invariant Feed(lastAuthor, lastMessage, queue.chat.pool) == FeedAll(mid, batch[..i])
        invariant queue.allowChat == old(queue.allowChat) && unchanged(queue.system) && unchanged(queue.mic)
      {
        var (author, message) := batch[i];
        FeedAllSnoc(mid, batch[..i], author, message);
        assert batch[..i + 1] == batch[..i] + [(author, message)];
        lastAuthor, lastMessage := MergeOrAdd(queue, lastAuthor, lastMessage, author, message, now);
        i := i + 1;
      }
      assert batch[..i] == batch;
      FeedAllAppend(start, done, batch);
      assert batches[..b + 1][..b] == batches[..b];
      assert Flatten(batches[..b + 1]) == done + batch;
      b := b + 1;
    }
    assert batches[..b] == batches;
  }

  /**
   * This loop has no skip filter: a "!" command from a viewer lands in the
   * chat pool as "viewer: !command", where the Livestream.py Twitch thread
   * drops it.
   */
  method CommandsReachThePool(command: string, now: real) returns (tail: string, triage: Result<Triage, PyException>)
    requires command != [] && command[0] == '!'
    ensures tail == ChatEntry("viewer", command)
    ensures triage == Success(Command)
  {
    var queue := new StreamingTools.MasterQueue(10.0, now, 2, 6);
    var lastAuthor, lastMessage := TwitchChatLoop(queue, [("viewer", command)], now);
    assert [("viewer", command)][1..] == [];
    tail := queue.chat.pool[StreamingTools.PoolSize - 1];
    triage := Classify(command, "viewer");
  }
}

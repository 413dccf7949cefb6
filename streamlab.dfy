/**
 * The earlier arbitration layer of Streamlab.py. It differs from
 * AIkoStreamingTools.py in three ways:
 *   - every class is a singleton whose `__init__` runs again on each
 *     constructor call, resetting the shared state (`Reinit` here);
 *   - the mic slot expires after a hard-coded 10.0 s;
 *   - the chat pool's emptiness test looks only at its first and last slots;
 * and the chat cooldown is a fixed `randint(2, 6)`, which cannot raise.
 */
module Streamlab {
  import opened LimitedList
  import StreamingTools
  import Wrappers

  /** The expiry threshold the sweep compares against (the `__expiration_time__` field is never read). */
  const ExpirySeconds: real := 10.0

  /** The fixed cooldown range of `get_next`. */
  const MinCooldown: int := 2
  const MaxCooldown: int := 6

  /** The emptiness test as written: only slot 0 and slot -1 are looked at. */
  predicate EndsBlank(pool: seq<string>)
    requires |pool| > 0
  {
    pool[|pool| - 1] == "" && pool[0] == ""
  }

  /**
   * What this `pick_message` may do: when both end slots are blank it
   * returns "" and changes nothing, whatever the middle slots hold;
   * otherwise it blanks one occupied slot and returns its content.
   */
  ghost predicate LegacyIsPick(before: seq<string>, after: seq<string>, picked: string)
    requires |before| > 0
  {
    if EndsBlank(before) then after == before && picked == ""
    else exists i :: 0 <= i < |before| && before[i] != "" && picked == before[i] && after == before[i := ""]
  }

  /**
   * The ends-only test strands messages: add x then y, pick y (a legal
   * random pick), and x sits in slot 8 with both ends blank, so every pick
   * returns "" and leaves the pool as it is, although x is pending, until
   * another chat message is added.
   */
  lemma LegacyPoolStrandsMessage(x: string, y: string, blank: seq<string>)
    requires x != "" && y != ""
    requires |blank| == StreamingTools.PoolSize && StreamingTools.PoolIsEmpty(blank)
    ensures var before := ShiftIn(ShiftIn(blank, x), y);
            var stranded := before[StreamingTools.PoolSize - 1 := ""];
            LegacyIsPick(before, stranded, y)
            && x in stranded && !StreamingTools.PoolIsEmpty(stranded)
            && forall after, picked :: LegacyIsPick(stranded, after, picked) ==> picked == "" && after == stranded
  {
    var before := ShiftIn(ShiftIn(blank, x), y);
    var stranded := before[StreamingTools.PoolSize - 1 := ""];
    assert before[StreamingTools.PoolSize - 1] == y;
    assert stranded[StreamingTools.PoolSize - 2] == x;
  }

  /** `MessageQueue`: a FIFO; constructing it again empties it. */
  class MessageQueue {
    var queue: seq<string>

    constructor ()
      ensures queue == []
    {
      queue := [];
    }

    /** `MessageQueue()` called again: `__init__` rebinds the list to []. */
    method Reinit()
      modifies this
      ensures queue == []
    {
      queue := [];
    }

    method AddMessage(message: string)
      modifies this
      ensures queue == old(queue) + [message]
    {
      queue := queue + [message];
    }

    /** Pops index 0, or returns "" on an empty queue. */
    method GetNext() returns (message: string)
      modifies this
      ensures message == StreamingTools.QueueHead(old(queue))
      ensures queue == StreamingTools.QueueTail(old(queue))
    {
      if |queue| != 0 {
        message := queue[0];
        queue := queue[1..];
      } else {
        message := "";
      }
    }
  }

  /** `MessageContainer` with the hard-coded 10 s expiry. */
  class MessageContainer {
    var msg: string
    var lastSet: real

    constructor (now: real)
      ensures msg == "" && lastSet == now
    {
      msg := "";
      lastSet := now;
    }

    /**
     * `MessageContainer()` called again: the message is cleared; the expiry
     * thread is not restarted, so its timer keeps running.
     */
    method Reinit()
      modifies this`msg
      ensures msg == ""
    {
      msg := "";
    }

    method SwitchMessage(message: string, now: real)
      modifies this
      ensures msg == message && lastSet == now
    {
      msg := message;
      lastSet := now;
    }

    method GetMessage() returns (message: string)
      modifies this`msg
      ensures message == old(msg) && msg == ""
    {
      message := msg;
      msg := "";
    }

    /** One pass of the expiry thread at time `now`. */
    method Sweep(now: real)
      modifies this`msg
      ensures now - lastSet >= ExpirySeconds ==> msg == ""
      ensures now - lastSet < ExpirySeconds ==> msg == old(msg)
    {
      if now - lastSet >= 10.0 {
        msg := "";
      }
    }
  }

  /** `MessagePool` with the ends-only emptiness test. */
  class MessagePool {
    var pool: seq<string>

    ghost predicate Valid()
      reads this
    {
      |pool| == StreamingTools.PoolSize
    }

    constructor ()
      ensures Valid() && StreamingTools.PoolIsEmpty(pool)
    {
      var slots := CreateLimitedList(StreamingTools.PoolSize, "");
      pool := slots;
    }

    /** `MessagePool()` called again: ten fresh blank slots. */
    method Reinit()
      modifies this
      ensures Valid() && StreamingTools.PoolIsEmpty(pool)
    {
      pool := CreateLimitedList(StreamingTools.PoolSize, "");
    }

    predicate IsEmpty()
      requires Valid()
      reads this
    {
      EndsBlank(pool)
    }

    method AddMessage(message: string)
      requires Valid()
      modifies this
      ensures Valid() && pool == ShiftIn(old(pool), message)
    {
      pool := pool[1..] + [message];
    }

    method PickMessage() returns (message: string)
      requires Valid()
      modifies this
      ensures Valid() && LegacyIsPick(old(pool), pool, message)
    {
      message := "";
      if !IsEmpty() {
        assert pool[0] != "" || pool[|pool| - 1] != "";
        var index :| 0 <= index < |pool| && pool[index] != "";
        message := pool[index];
        pool := pool[index := ""];
      }
    }
  }

  /** `MasterQueue`: the same routing and priority as the current version. */
  class MasterQueue {
    const system: MessageQueue
    const mic: MessageContainer
    const chat: MessagePool
    var allowChat: bool
    var cooldown: int
    ghost const Repr: set<object>

    ghost predicate Valid()
      reads this, Repr
    {
      Repr == {this, system, mic, chat} && chat.Valid()
    }

    constructor (now: real)
      ensures Valid() && fresh(system) && fresh(mic) && fresh(chat)
      ensures system.queue == [] && mic.msg == "" && StreamingTools.PoolIsEmpty(chat.pool) && allowChat
    {
      system := new MessageQueue();
      mic := new MessageContainer(now);
      chat := new MessagePool();
      allowChat := true;
      cooldown := 0;
      Repr := {this, system, mic, chat};
    }

    /**
     * `MasterQueue()` called again: `__init__` re-runs the three channel
     * constructors, which reset the shared channels, and re-allows chat.
     */
    method Reinit()
      requires Valid()
      modifies Repr
      ensures Valid()
      ensures system.queue == [] && mic.msg == "" && mic.lastSet == old(mic.lastSet)
      ensures StreamingTools.PoolIsEmpty(chat.pool) && allowChat && cooldown == old(cooldown)
    {
      system.Reinit();
      mic.Reinit();
      chat.Reinit();
      allowChat := true;
    }

    method AddMessage(message: string, kind: string, now: real) returns (r: StreamingTools.Outcome)
      requires Valid()
      modifies Repr
      ensures Valid()
      ensures allowChat == old(allowChat) && cooldown == old(cooldown)
      ensures kind == "system" ==> r == StreamingTools.Pass && system.queue == old(system.queue) + [message]
                                   && unchanged(mic) && unchanged(chat)
      ensures kind == "mic" ==> r == StreamingTools.Pass && mic.msg == message && mic.lastSet == now
                                && unchanged(system) && unchanged(chat)
      ensures kind == "chat" ==> r == StreamingTools.Pass && chat.pool == ShiftIn(old(chat.pool), message)
                                 && unchanged(system) && unchanged(mic)
      ensures kind != "system" && kind != "mic" && kind != "chat" ==>
                r == StreamingTools.Raised(Wrappers.TypeError)
                && unchanged(system) && unchanged(mic) && unchanged(chat)
    {
      if kind == "system" {
        system.AddMessage(message);
        r := StreamingTools.Pass;
      } else if kind == "mic" {
        mic.SwitchMessage(message, now);
        r := StreamingTools.Pass;
      } else if kind == "chat" {
        chat.AddMessage(message);
        r := StreamingTools.Pass;
      } else {
        r := StreamingTools.Raised(Wrappers.TypeError);
      }
    }

    method EndCooldown()
      modifies this`allowChat
      ensures allowChat
    {
      allowChat := true;
    }

    /** Priority system > mic > chat; a chat selection starts a 2-6 s cooldown and may return ("chat", ""). */
    method GetNext() returns (r: StreamingTools.Reply)
      requires Valid()
      modifies Repr
      ensures Valid()
      ensures system.queue == StreamingTools.QueueTail(old(system.queue))
      ensures StreamingTools.QueueHead(old(system.queue)) != "" ==>
                r == StreamingTools.Reply("system", StreamingTools.QueueHead(old(system.queue)))
                && unchanged(mic) && unchanged(chat) && allowChat == old(allowChat) && cooldown == old(cooldown)
      ensures StreamingTools.QueueHead(old(system.queue)) == "" ==> mic.msg == "" && mic.lastSet == old(mic.lastSet)
      ensures StreamingTools.QueueHead(old(system.queue)) == "" && old(mic.msg) != "" ==>
                r == StreamingTools.Reply("mic", old(mic.msg)) && unchanged(chat) && allowChat == old(allowChat)
                && cooldown == old(cooldown)
      ensures StreamingTools.QueueHead(old(system.queue)) == "" && old(mic.msg) == "" && old(allowChat) ==>
                r.kind == "chat" && LegacyIsPick(old(chat.pool), chat.pool, r.content)
                && !allowChat && MinCooldown <= cooldown <= MaxCooldown
      ensures StreamingTools.QueueHead(old(system.queue)) == "" && old(mic.msg) == "" && !old(allowChat) ==>
                r == StreamingTools.Reply("", "") && unchanged(chat) && !allowChat && cooldown == old(cooldown)
    {
      var msg := system.GetNext();
      if msg != "" {
        return StreamingTools.Reply("system", msg);
      }
      msg := mic.GetMessage();
      if msg != "" {
        return StreamingTools.Reply("mic", msg);
      }
      if allowChat {
        var length :| MinCooldown <= length <= MaxCooldown;
        cooldown := length;
        allowChat := false;
        msg := chat.PickMessage();
        return StreamingTools.Reply("chat", msg);
      }
      return StreamingTools.Reply("", "");
    }
  }

  /**
   * Constructing the arbiter again wipes whatever was pending: after a
   * re-initialisation the next poll is a blank chat pick, even though a
   * system message had been queued and chat was cooling down.
   */
  method ReconstructionDropsPending(s: string, c: string, now: real)
    returns (before: StreamingTools.Reply, after: StreamingTools.Reply)
    requires s != "" && c != ""
    ensures before == StreamingTools.Reply("chat", c)
    ensures after == StreamingTools.Reply("chat", "")
  {
    var mq := new MasterQueue(now);
    var added := mq.AddMessage(c, "chat", now);
    ghost var pool := mq.chat.pool;
    assert forall k :: 0 <= k < StreamingTools.PoolSize - 1 ==> pool[k] == "";
    assert pool[StreamingTools.PoolSize - 1] == c;
    before := mq.GetNext();
    added := mq.AddMessage(s, "system", now);
    mq.Reinit();
    after := mq.GetNext();
  }
}

/** app/cache.py and app/webhooks/processor.py as they run: a shared key store and a
    table of envelopes, updated in place. */
module Processor {
  import opened Domain
  import DeadLetters
  import Queue
  import Intake

  /** app/cache.py: the memoised client and the keys it reaches. */
  class KeyStore {
    const configured: bool
    var keys: set<string>
    var client: bool
    var unavailable: bool

    constructor (c: bool)
      ensures configured == c && keys == {} && Memo()
    {
      configured, keys, client, unavailable := c, {}, false, false;
    }

    /** The client is built at most once, and never after it was given up. */
    ghost predicate Memo()
      reads this
    {
      (client ==> configured) && !(client && unavailable)
    }

    /** `_redis`. `builds`: the client library is there and accepts the address. */
    method Redis(builds: bool) returns (up: bool)
      requires Memo()
      modifies `client, `unavailable
      ensures Memo() && up == client && unavailable == !up
      ensures up == (!old(unavailable) && (old(client) || (configured && builds)))
    {
      if unavailable { return false; }
      if client { return true; }
      if !configured || !builds {
        unavailable := true;
        return false;
      }
      client := true;
      return true;
    }

    /** The reply a caller sees: none without a client. */
    static function Seen(up: bool, reply: Intake.Reply): Intake.Reply {
      if up then reply else Intake.Unreachable(false)
    }

    method Claim(key: string, builds: bool, reply: Intake.Reply) returns (got: bool)
      requires Memo()
      modifies this
      ensures Memo() && unavailable == !client
      ensures (got, keys) == Intake.Claimed(old(keys), key, Seen(client, reply))
      ensures client == (!old(unavailable) && (old(client) || (configured && builds)))
    {
      var up := Redis(builds);
      if !up { return true; }
      match reply {
        case Reached =>
          got := key !in keys;
          keys := keys + {key};
        case Unreachable(applied) =>
          got := true;
          if applied { keys := keys + {key}; }
      }
    }

    /** `forget`. */
    method Forget(key: string, builds: bool, works: bool)
      requires Memo()
      modifies this
      ensures Memo() && keys == if client && works then old(keys) - {key} else old(keys)
      ensures old(unavailable || client) ==> client == old(client)
    {
      var up := Redis(builds);
      if up && works { keys := keys - {key}; }
    }

    /** `seen_only`: reading a key never makes one. */
    method SeenOnly(key: string, builds: bool, reply: Intake.Reply) returns (seen: bool)
      requires Memo()
      modifies `client, `unavailable
      ensures Memo() && seen == (client && reply.Reached? && key in keys)
    {
      var up := Redis(builds);
      seen := up && reply.Reached? && key in keys;
    }
  }

  class WebhookQueue {
    const cache: KeyStore
    var rows: map<nat, Queue.Envelope>
    var nextId: nat
    ghost var log: seq<Queue.Tried>

    constructor (c: KeyStore)
      ensures cache == c && Snap() == Queue.State(map[], 0, [])
    {
      cache, rows, nextId, log := c, map[], 0, [];
    }

    ghost function Snap(): Queue.State
      reads this
    {
      Queue.State(rows, nextId, log)
    }

    /** `record_event`. With a client, `works` tells whether forgetting works. */
    method RecordEvent(d: Intake.Delivery, builds: bool) returns (answer: Intake.Answer)
      requires cache.Memo()
      modifies `rows, `nextId, cache
      ensures cache.Memo()
      ensures var seen := d.(reply := KeyStore.Seen(cache.client, d.reply),
                             commit := if !d.commit.CommitFailed? then d.commit
                                       else Intake.CommitFailed(!cache.client || d.commit.keyStays));
              (Intake.State(Snap(), cache.keys), answer) ==
                Intake.Deliver(Intake.State(old(Snap()), old(cache.keys)), seen)
    {
      var got := cache.Claim(d.eventId, builds, d.reply);
      if !got { return Intake.Duplicate; }
      if d.commit.CommitFailed? {
        cache.Forget(d.eventId, builds, !d.commit.keyStays);
        return Intake.Failed;
      }
      if exists id | id in rows :: rows[id].eventId == d.eventId {
        return Intake.Duplicate;
      }
      answer := Intake.Accepted(nextId + d.skip);
      rows := rows[nextId + d.skip := Queue.Envelope(d.eventId, d.name, d.now, None, None, 0, None)];
      nextId := nextId + d.skip + 1;
    }

    /** `process_event`: the handler's end settles the envelope or is charged to it. */
    method ProcessEvent(id: nat, ending: Queue.Ending, now: int, max: nat)
      modifies `rows, `log
      ensures Snap() == Queue.Process(old(Snap()), id, ending, now, max)
      ensures DeadLetters.Dispatched(old(Snap()), Snap(), id, ending, now, max)
    {
      DeadLetters.DispatchesMoveOneRow(Snap(), id, ending, now, max);
      if id !in rows { return; }
      var event := rows[id];
      if event.processedAt.Some? { return; }
      if event.name !in Queue.HANDLED {
        rows := rows[id := event.(processedAt := Some(now))];
        log := log + [Queue.Tried(id, true)];
        return;
      }
      match ending {
        case Returned =>
          rows := rows[id := event.(processedAt := Some(now), error := None)];
          log := log + [Queue.Tried(id, true)];
        case Raised(failure, trace) =>
          RecordFailure(id, trace, Queue.IsRetryable(failure), now, max);
          log := log + [Queue.Tried(id, false)];
      }
    }

    /** `_record_failure`. */
    method RecordFailure(id: nat, trace: string, retryable: bool, now: int, max: nat)
      modifies `rows
      ensures rows == if id !in old(rows) then old(rows)
                      else old(rows)[id := Queue.Charged(old(rows)[id], trace, retryable, now, max)]
    {
      if id !in rows { return; }
      var event := rows[id];
      event := event.(attempts := event.attempts + 1, error := Some(trace));
      if !retryable || event.attempts >= max {
        event := event.(deadAt := Some(now));
      }
      rows := rows[id := event];
    }

    /** `replay_unprocessed`: a query, then one dispatch after the other. */
    method ReplayUnprocessed(limit: nat, olderThan: int, endings: nat -> Queue.Ending, now: int, max: nat)
        returns (n: nat)
      modifies `rows, `log
      ensures Snap() == Queue.Next(old(Snap()), Queue.Sweep(limit, now - olderThan, endings, now), max)
      ensures n <= limit && n == |Queue.Front(Queue.Due(old(rows), now - olderThan), limit)|
    {
      var ids := Queue.Front(Queue.Due(rows, now - olderThan), limit);
      Queue.FrontIsTheLowest(Queue.Due(rows, now - olderThan), limit);
      for k := 0 to |ids|
        invariant Snap() == Queue.ProcessAll(old(Snap()), ids[..k], endings, now, max)
      {
        ProcessEvent(ids[k], endings(ids[k]), now, max);
        assert ids[..k + 1][..k] == ids[..k];
      }
      assert ids[..|ids|] == ids;
      n := |ids|;
    }

    /** `requeue_dead`: the oldest dead envelopes, alive again with a full budget. */
    method RequeueDead(limit: nat) returns (n: nat)
      modifies `rows
      ensures Snap() == Queue.Next(old(Snap()), Queue.Requeue(limit), 0)
      ensures n == |Queue.Front(Queue.Dead(old(rows)), limit)|
    {
      var ids := Queue.Front(Queue.Dead(rows), limit);
      Queue.FrontIsTheLowest(Queue.Dead(rows), limit);
      for k := 0 to |ids|
        invariant rows == Queue.DugUp(old(rows), ids[..k])
      {
        assert ids[k] in ids;
        Queue.DugUpOneMore(old(rows), ids, k);
        var event := rows[ids[k]];
        rows := rows[ids[k] := event.(deadAt := None, attempts := 0)];
      }
      assert ids[..|ids|] == ids;
      n := |ids|;
    }
  }
}

/** `record_event` and app/cache.py: a key store that may be absent, fail, lie about
    a failed write or forget at will, in front of the unique constraint that decides. */
module Intake {
  import Queue

  /** The key store's answer to one command: `applied` tells whether a command that
      raised took effect all the same. No client at all is Unreachable(false). */
  datatype Reply = Reached | Unreachable(applied: bool)

  /** The commit of an insert, if the constraint does not refuse it. After a failed
      one the key is forgotten, unless that fails too. A worker that dies between
      the claim and the commit leaves what CommitFailed(true) leaves. */
  datatype Commit = Committed | CommitFailed(keyStays: bool)

  datatype Answer = Accepted(id: nat) | Duplicate | Failed

  datatype Delivery = Delivery(eventId: string, name: string, reply: Reply, commit: Commit, skip: nat, now: int)

  /** `SET key NX`: taken only if the server says so. */
  function Claimed(keys: set<string>, key: string, reply: Reply): (bool, set<string>) {
    match reply
    case Reached => (key !in keys, keys + {key})
    case Unreachable(applied) => (true, if applied then keys + {key} else keys)
  }

  /** What the constraint alone would do. */
  function Insert(q: Queue.State, d: Delivery): (Queue.State, Answer) {
    if d.commit.CommitFailed? then (q, Failed)
    else if Queue.Recorded(q.rows, d.eventId) then (q, Duplicate)
    else (Queue.Stored(q, d.eventId, d.name, d.skip, d.now), Accepted(q.nextId + d.skip))
  }

  datatype State = State(queue: Queue.State, keys: set<string>)

  function Deliver(s: State, d: Delivery): (State, Answer) {
    var (got, keys) := Claimed(s.keys, d.eventId, d.reply);
    if !got then (State(s.queue, keys), Duplicate)
    else
      var (q, answer) := Insert(s.queue, d);
      (State(q, if answer.Failed? && !d.commit.keyStays then keys - {d.eventId} else keys), answer)
  }

  // ---------------------------------------------------------------------- runs

  datatype Step =
    | Arrive(delivery: Delivery)
    | Expire(keys: set<string>)
    | Work(step: Queue.Step)

  function Next(s: State, step: Step, max: nat): State {
    match step
    case Arrive(d) => Deliver(s, d).0
    case Expire(keys) => s.(keys := s.keys - keys)
    case Work(w) => s.(queue := Queue.Next(s.queue, w, max))
  }

  function Run(s: State, steps: seq<Step>, max: nat): State
    decreases |steps|
  {
    if steps == [] then s else Next(Run(s, steps[..|steps| - 1], max), steps[|steps| - 1], max)
  }

  /** The same steps without a key store. */
  function NextAlone(q: Queue.State, step: Step, max: nat): Queue.State {
    match step
    case Arrive(d) => Insert(q, d).0
    case Expire(_) => q
    case Work(w) => Queue.Next(q, w, max)
  }

  function RunAlone(q: Queue.State, steps: seq<Step>, max: nat): Queue.State
    decreases |steps|
  {
    if steps == [] then q else NextAlone(RunAlone(q, steps[..|steps| - 1], max), steps[|steps| - 1], max)
  }

  /** A key stands for a row. */
  ghost predicate Honest(s: State) {
    forall key | key in s.keys :: Queue.Recorded(s.queue.rows, key)
  }

  /** After a failed commit the key this delivery claimed is gone. */
  predicate ForgetWorks(step: Step) {
    step.Arrive? && step.delivery.commit.CommitFailed? ==>
      !step.delivery.commit.keyStays || step.delivery.reply == Unreachable(false)
  }

  // ------------------------------------------------------------------ refinement

  lemma RowsStay(q: Queue.State, step: Queue.Step, max: nat, eventId: string)
    requires Queue.Valid(q) && Queue.Recorded(q.rows, eventId)
    ensures Queue.Recorded(Queue.Next(q, step, max).rows, eventId)
  {
    Queue.NextIsValid(q, step, max);
    var id :| id in q.rows && q.rows[id].eventId == eventId;
    assert id in Queue.Next(q, step, max).rows;
  }

  lemma StoredIsRecorded(q: Queue.State, d: Delivery)
    requires Queue.Valid(q) && !Queue.Recorded(q.rows, d.eventId)
    ensures Queue.Valid(Insert(q, d).0)
    ensures forall e :: Queue.Recorded(q.rows, e) ==> Queue.Recorded(Insert(q, d).0.rows, e)
    ensures d.commit.Committed? ==> Queue.Recorded(Insert(q, d).0.rows, d.eventId)
  {
    var q' := Insert(q, d).0;
    forall e | Queue.Recorded(q.rows, e) ensures Queue.Recorded(q'.rows, e) {
      var id :| id in q.rows && q.rows[id].eventId == e;
      assert id in q'.rows && q'.rows[id].eventId == e;
    }
    if d.commit.Committed? { assert q'.rows[q.nextId + d.skip].eventId == d.eventId; }
  }

  /** One delivery through the key store does to the rows what the constraint alone
      does, and answers the same, except that a known duplicate is answered without
      asking a database that would have failed. */
  lemma DeliveredAlike(s: State, d: Delivery)
    requires Queue.Valid(s.queue) && Honest(s)
    ensures Deliver(s, d).0.queue == Insert(s.queue, d).0
    ensures Deliver(s, d).1 == Insert(s.queue, d).1 <==>
            !(d.reply.Reached? && d.eventId in s.keys && d.commit.CommitFailed?)
    ensures Deliver(s, d).1 != Insert(s.queue, d).1 ==>
              Deliver(s, d).1 == Duplicate && Insert(s.queue, d).1 == Failed && Queue.Recorded(s.queue.rows, d.eventId)
  {
  }

  lemma NextIsHonest(s: State, step: Step, max: nat)
    requires Queue.Valid(s.queue) && Honest(s) && ForgetWorks(step)
    ensures Queue.Valid(Next(s, step, max).queue) && Honest(Next(s, step, max))
  {
    match step {
      case Arrive(d) =>
        DeliveredAlike(s, d);
        if !Queue.Recorded(s.queue.rows, d.eventId) { StoredIsRecorded(s.queue, d); }
      case Expire(_) =>
      case Work(w) =>
        Queue.NextIsValid(s.queue, w, max);
        forall key | key in s.keys ensures Queue.Recorded(Next(s, step, max).queue.rows, key) {
          RowsStay(s.queue, w, max, key);
        }
    }
  }

  /** The cache refines the unique constraint: whatever the key store does, as long as
      a failed commit's key is forgotten, every run leaves the rows the constraint
      alone leaves, and every key stands for a row. */
  lemma {:induction false} CacheRefinesTheConstraint(s: State, steps: seq<Step>, max: nat)
    requires Queue.Valid(s.queue) && Honest(s)
    requires forall k | 0 <= k < |steps| :: ForgetWorks(steps[k])
    ensures var d := Run(s, steps, max);
            Queue.Valid(d.queue) && Honest(d) && d.queue == RunAlone(s.queue, steps, max)
    decreases |steps|
  {
    if steps != [] {
      var before, step := steps[..|steps| - 1], steps[|steps| - 1];
      CacheRefinesTheConstraint(s, before, max);
      NextIsHonest(Run(s, before, max), step, max);
      if step.Arrive? { DeliveredAlike(Run(s, before, max), step.delivery); }
    }
  }

  /** Every delivery of such a run is answered as by the constraint alone, or was
      answered Duplicate for an event that is recorded. */
  lemma EveryAnswerAgrees(s: State, steps: seq<Step>, max: nat, d: Delivery)
    requires Queue.Valid(s.queue) && Honest(s)
    requires forall k | 0 <= k < |steps| :: ForgetWorks(steps[k])
    ensures var cached, alone := Deliver(Run(s, steps, max), d).1, Insert(RunAlone(s.queue, steps, max), d).1;
            && (cached == alone || (cached == Duplicate && alone == Failed))
            && (cached == Duplicate ==> Queue.Recorded(Run(s, steps, max).queue.rows, d.eventId))
  {
    CacheRefinesTheConstraint(s, steps, max);
    DeliveredAlike(Run(s, steps, max), d);
  }

  // ---------------------------------------------------------- when forgetting fails

  /** An event is turned away unrecorded exactly while a key without a row is there
      to be read. */
  lemma LostExactlyByAStrayKey(s: State, d: Delivery)
    ensures (Deliver(s, d).1 == Duplicate && !Queue.Recorded(Deliver(s, d).0.queue.rows, d.eventId))
            <==> (d.reply.Reached? && d.eventId in s.keys && !Queue.Recorded(s.queue.rows, d.eventId))
  {
  }

  /** Such a key is exactly what a claimed delivery leaves when neither its commit nor
      its forgetting works. */
  lemma StrayKeysComeFromFailedForgets(s: State, step: Step, max: nat)
    requires Queue.Valid(s.queue) && Honest(s)
    ensures Honest(Next(s, step, max)) <==>
            !(&& step.Arrive? && step.delivery.commit == CommitFailed(true) && step.delivery.reply != Unreachable(false)
              && !Queue.Recorded(s.queue.rows, step.delivery.eventId))
  {
    if step.Arrive? && step.delivery.commit == CommitFailed(true) && step.delivery.reply != Unreachable(false) {
      var d := step.delivery;
      if Queue.Recorded(s.queue.rows, d.eventId) {
        DeliveredAlike(s, d);
      } else {
        assert d.eventId in Next(s, step, max).keys;
      }
    } else {
      NextIsHonest(s, step, max);
    }
  }

  predicate Redelivery(d: Delivery, eventId: string) { d.eventId == eventId && d.reply.Reached? }

  /** From then on every redelivery is turned away, for as long as the key lives. */
  lemma {:induction false} AStrayKeyTurnsAwayEveryRedelivery(s: State, steps: seq<Step>, max: nat, eventId: string)
    requires eventId in s.keys && !Queue.Recorded(s.queue.rows, eventId)
    requires forall k | 0 <= k < |steps| :: steps[k].Arrive? && Redelivery(steps[k].delivery, eventId)
    ensures Run(s, steps, max) == s
    decreases |steps|
  {
    if steps != [] {
      AStrayKeyTurnsAwayEveryRedelivery(s, steps[..|steps| - 1], max, eventId);
      assert s.keys + {eventId} == s.keys;
      assert Redelivery(steps[|steps| - 1].delivery, eventId);
    }
  }

  /** Once the key expires, the next delivery is accepted. */
  lemma ExpiryHeals(s: State, d: Delivery, max: nat)
    requires !Queue.Recorded(s.queue.rows, d.eventId) && d.commit.Committed?
    ensures Deliver(Next(s, Expire({d.eventId}), max), d).1.Accepted?
    ensures Queue.Recorded(Deliver(Next(s, Expire({d.eventId}), max), d).0.queue.rows, d.eventId)
  {
    var after := Deliver(Next(s, Expire({d.eventId}), max), d).0.queue.rows;
    assert after[s.queue.nextId + d.skip].eventId == d.eventId;
  }
}

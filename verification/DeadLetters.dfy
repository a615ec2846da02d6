/** What a dispatch, a sweep, a requeue and an arrival do to the stored envelopes, told
    from the rows before and after, and how often an envelope whose handler fails is
    tried before it is buried. */
module DeadLetters {
  import opened Domain
  import opened Queue
  import Webhooks

  // ------------------------------------------------------------------ one dispatch

  /** A statement about the request, not about the moment: Razorpay answered 400 to 499,
      but neither a time-out nor a rate limit. Replaying it gives the same answer. */
  predicate Hopeless(f: Failure) {
    f.RazorpayError? && 400 <= f.status <= 499 && f.status != 408 && f.status != 429
  }

  /** What the row becomes: settled, with the error cleared by a handler that returned; or
      one more attempt and its trace, and buried if that was the last or is hopeless. */
  predicate Becomes(a: Envelope, b: Envelope, ending: Ending, now: int, max: nat) {
    && b.eventId == a.eventId && b.name == a.name && b.createdAt == a.createdAt
    && (a.name !in HANDLED ==> b == a.(processedAt := Some(now)))
    && (a.name in HANDLED && ending.Returned? ==> b == a.(processedAt := Some(now), error := None))
    && (a.name in HANDLED && ending.Raised? ==>
          && b.processedAt == a.processedAt && b.attempts == a.attempts + 1 && b.error == Some(ending.trace)
          && b.deadAt == if b.attempts >= max || Hopeless(ending.failure) then Some(now) else a.deadAt)
  }

  /** A dispatch, on the rows: one row moves, and only one that is there and unsettled. */
  predicate Dispatched(s: State, d: State, id: nat, ending: Ending, now: int, max: nat) {
    if id !in s.rows || s.rows[id].processedAt.Some? then d == s
    else
      && d.nextId == s.nextId && id in d.rows && d.rows == s.rows[id := d.rows[id]]
      && Becomes(s.rows[id], d.rows[id], ending, now, max)
      && d.log == s.log + [Tried(id, d.rows[id].processedAt.Some?)]
  }

  lemma DispatchesMoveOneRow(s: State, id: nat, ending: Ending, now: int, max: nat)
    ensures Dispatched(s, Process(s, id, ending, now, max), id, ending, now, max)
  {
  }

  /** A live envelope whose handler raised is buried by this dispatch exactly if its budget
      is spent with it or the failure is hopeless; else it stays live, one attempt on. */
  lemma BuriedExactlyIf(s: State, id: nat, failure: Failure, trace: string, now: int, max: nat)
    requires id in s.rows && s.rows[id].Live() && s.rows[id].name in HANDLED
    ensures var e := Process(s, id, Raised(failure, trace), now, max).rows[id];
            && e.processedAt.None? && e.attempts == s.rows[id].attempts + 1
            && (e.deadAt == Some(now) <==> e.attempts >= max || Hopeless(failure))
            && (e.deadAt.None? <==> e.attempts < max && !Hopeless(failure))
  {
    DispatchesMoveOneRow(s, id, Raised(failure, trace), now, max);
  }

  /** The name under which Razorpay sends each event. */
  function NameOf(ev: Webhooks.Event): string {
    match ev
    case PaymentFailed(_) => "payment.failed"
    case PaymentAuthorized(_) => "payment.authorized"
    case PaymentArrived(_) => "payment.captured"
    case SubscriptionAuthenticated(_) => "subscription.authenticated"
    case Pending(_) => "subscription.pending"
    case Halted(_) => "subscription.halted"
    case Charged(_, _) => "subscription.charged"
    case LinkPaid(_, _, _) => "payment_link.paid"
    case OrderPaid(_, _) => "order.paid"
  }

  /** Every event that is modelled has a handler. */
  lemma EveryEventIsHandled(ev: Webhooks.Event)
    ensures NameOf(ev) in HANDLED
  {
  }

  // -------------------------------------------------- tried to the end, or just once

  /** What the handler of `id` meets whenever a sweep gets to it; nothing else touches it. */
  predicate OnlyMeets(steps: seq<Step>, id: nat, p: Failure -> bool) {
    forall k | 0 <= k < |steps| ::
      && !steps[k].Requeue?
      && (steps[k].Dispatch? ==> steps[k].id != id)
      && (steps[k].Sweep? ==> steps[k].endings(id).Raised? && p(steps[k].endings(id).failure))
  }

  /** The envelope after n failures, when the failure number `allowed` buries it. */
  predicate FailedTimes(a: Envelope, b: Envelope, n: int, allowed: nat) {
    && b.name == a.name && b.processedAt.None? && b.attempts == a.attempts + n
    && 0 <= n <= allowed && (b.deadAt.Some? <==> n == allowed)
  }

  /** The failure after the first n is the last. */
  predicate IsLast(a: Envelope, f: Failure, n: nat, max: nat) { a.attempts + n + 1 >= max || Hopeless(f) }

  /** Whichever failure of this kind it is, it is the last exactly as number `allowed`. */
  ghost predicate Allows(a: Envelope, p: Failure -> bool, allowed: nat, max: nat) {
    forall f: Failure, n: nat | p(f) && n < allowed :: IsLast(a, f, n, max) <==> n + 1 == allowed
  }

  /** A batch tries an envelope it names once, if it is unsettled, and no other. */
  lemma {:induction false} BatchTriesOnce(s: State, ids: seq<nat>, endings: nat -> Ending, now: int, max: nat, id: nat)
    requires Increasing(ids) && id in s.rows && s.rows[id].processedAt.None?
    ensures var d := ProcessAll(s, ids, endings, now, max);
            && id in d.rows
            && (id in ids ==>
                  && Becomes(s.rows[id], d.rows[id], endings(id), now, max)
                  && Tries(d.log, id) == Tries(s.log, id) + 1)
            && (id !in ids ==> d.rows[id] == s.rows[id] && Tries(d.log, id) == Tries(s.log, id))
    decreases |ids|
  {
    if ids != [] {
      var init, last := ids[..|ids| - 1], ids[|ids| - 1];
      var mid := ProcessAll(s, init, endings, now, max);
      LastOfAll(ids);
      BatchDoes(s, init, endings, now, max);
      BatchTriesOnce(s, init, endings, now, max, id);
      DispatchesMoveOneRow(mid, last, endings(last), now, max);
      if last in mid.rows && mid.rows[last].processedAt.None? {
        OneMore(mid.log, Tried(last, ProcessAll(s, ids, endings, now, max).rows[last].processedAt.Some?), id);
      }
    }
  }

  /** The row and the tries of `id` after one more step. */
  lemma OneStepFails(s: State, step: Step, max: nat, id: nat, p: Failure -> bool, a: Envelope, n: int, allowed: nat)
    requires Valid(s) && id in s.rows && FailedTimes(a, s.rows[id], n, allowed)
    requires a.name in HANDLED && Allows(a, p, allowed, max) && OnlyMeets([step], id, p)
    ensures var d := Next(s, step, max);
            && id in d.rows
            && FailedTimes(a, d.rows[id], n + Tries(d.log, id) - Tries(s.log, id), allowed)
  {
    assert [step][0] == step;
    match step {
      case Record(_, _, skip, _) => assert s.nextId + skip !in s.rows;
      case Dispatch(j, ending, now) =>
        DispatchesMoveOneRow(s, j, ending, now, max);
        if Next(s, step, max) != s { OneMore(s.log, Next(s, step, max).log[|s.log|], id); }
      case Sweep(limit, cutoff, endings, now) =>
        var f := Front(Due(s.rows, cutoff), limit);
        FrontIsTheLowest(Due(s.rows, cutoff), limit);
        BatchTriesOnce(s, f, endings, now, max, id);
        if id in f { assert IsLast(a, endings(id).failure, n, max) <==> n + 1 == allowed; }
      case Requeue(_) =>
    }
  }

  lemma {:induction false} FailsUntilBuried(s: State, steps: seq<Step>, max: nat, id: nat, p: Failure -> bool,
                                            allowed: nat)
    requires Valid(s) && id in s.rows && s.rows[id].Live() && s.rows[id].name in HANDLED && allowed > 0
    requires OnlyMeets(steps, id, p) && Allows(s.rows[id], p, allowed, max)
    ensures var d := Run(s, steps, max);
            id in d.rows && FailedTimes(s.rows[id], d.rows[id], Tries(d.log, id) - Tries(s.log, id), allowed)
    decreases |steps|
  {
    if steps != [] {
      var before, step := steps[..|steps| - 1], steps[|steps| - 1];
      var mid := Run(s, before, max);
      FailsUntilBuried(s, before, max, id, p, allowed);
      StaysValid(s, before, max);
      assert OnlyMeets([step], id, p);
      OneStepFails(mid, step, max, id, p, s.rows[id], Tries(mid.log, id) - Tries(s.log, id), allowed);
    }
  }

  /** An envelope whose handler meets failures that may pass is tried for the whole of its
      budget: over every run it is live before the last of those tries and dead after it. */
  lemma RetriedToTheEnd(s: State, steps: seq<Step>, max: nat, id: nat)
    requires Valid(s) && id in s.rows && s.rows[id].Live() && s.rows[id].name in HANDLED
    requires OnlyMeets(steps, id, (f: Failure) => !Hopeless(f))
    ensures var d := Run(s, steps, max);
            var budget := Max(max - s.rows[id].attempts, 1);
            id in d.rows && FailedTimes(s.rows[id], d.rows[id], Tries(d.log, id) - Tries(s.log, id), budget)
  {
    FailsUntilBuried(s, steps, max, id, (f: Failure) => !Hopeless(f), Max(max - s.rows[id].attempts, 1));
  }

  /** And one whose handler meets hopeless failures is tried once, whatever its budget. */
  lemma HopelessTriedOnce(s: State, steps: seq<Step>, max: nat, id: nat)
    requires Valid(s) && id in s.rows && s.rows[id].Live() && s.rows[id].name in HANDLED
    requires OnlyMeets(steps, id, Hopeless)
    ensures var d := Run(s, steps, max);
            id in d.rows && FailedTimes(s.rows[id], d.rows[id], Tries(d.log, id) - Tries(s.log, id), 1)
  {
    FailsUntilBuried(s, steps, max, id, Hopeless, 1);
  }

  // --------------------------------------------- what a sweep takes, what a requeue digs up

  predicate Unsettled(e: Envelope) { e.processedAt.None? && e.deadAt.None? }

  /** One try each of these, in this order. */
  lemma {:induction false} BatchIsTheHistory(s: State, ids: seq<nat>, endings: nat -> Ending, now: int, max: nat)
    requires Increasing(ids) && forall id | id in ids :: id in s.rows && s.rows[id].processedAt.None?
    ensures var d := ProcessAll(s, ids, endings, now, max);
            && s.log <= d.log && |d.log| == |s.log| + |ids|
            && forall k | |s.log| <= k < |d.log| :: d.log[k].id == ids[k - |s.log|]
    decreases |ids|
  {
    if ids != [] {
      var init := ids[..|ids| - 1];
      LastOfAll(ids);
      var mid, d := ProcessAll(s, init, endings, now, max), ProcessAll(s, ids, endings, now, max);
      BatchIsTheHistory(s, init, endings, now, max);
      BatchDoes(s, init, endings, now, max);
      DispatchesMoveOneRow(mid, ids[|ids| - 1], endings(ids[|ids| - 1]), now, max);
      forall k | |s.log| <= k < |d.log| ensures d.log[k].id == ids[k - |s.log|] {
        if k < |mid.log| { assert d.log[k] == mid.log[k] && mid.log[k].id == init[k - |s.log|]; }
      }
    }
  }

  /** A sweep tries the oldest envelopes that are neither settled nor dead and were created
      before the cutoff, in the order of their ids and at most `limit` of them; an envelope
      of this kind is left out only for `limit` older ones. */
  lemma SweepsTryTheOldest(s: State, limit: nat, cutoff: int, endings: nat -> Ending, now: int, max: nat)
    ensures var d := Next(s, Sweep(limit, cutoff, endings, now), max);
            && s.log <= d.log && |d.log| - |s.log| <= limit
            && (forall k | |s.log| <= k < |d.log| ::
                  d.log[k].id in s.rows && Unsettled(s.rows[d.log[k].id]) && s.rows[d.log[k].id].createdAt < cutoff)
            && (forall k, l | |s.log| <= k < l < |d.log| :: d.log[k].id < d.log[l].id)
            && (forall id | id in s.rows && Unsettled(s.rows[id]) && s.rows[id].createdAt < cutoff ::
                  || TriedSince(|s.log|, d.log, id)
                  || (|d.log| - |s.log| == limit && forall k | |s.log| <= k < |d.log| :: d.log[k].id < id))
  {
    var f := Front(Due(s.rows, cutoff), limit);
    var d := Next(s, Sweep(limit, cutoff, endings, now), max);
    FrontIsTheLowest(Due(s.rows, cutoff), limit);
    BatchIsTheHistory(s, f, endings, now, max);
    forall k | |s.log| <= k < |d.log| ensures d.log[k].id in f && d.log[k].id in Due(s.rows, cutoff) {
      assert f[k - |s.log|] in f;
    }
    forall id | id in s.rows && Unsettled(s.rows[id]) && s.rows[id].createdAt < cutoff && id in f
      ensures TriedSince(|s.log|, d.log, id)
    {
      BatchTries(s, f, endings, now, max, id);
    }
  }

  /** A requeue gives the oldest dead envelopes, at most `limit` of them, a life and an empty
      count, leaves one out only for `limit` older ones, and touches nothing else. */
  lemma RequeuesReviveTheOldest(s: State, limit: nat, max: nat) returns (ids: seq<nat>)
    ensures Increasing(ids) && |ids| <= limit
    ensures forall id | id in ids :: id in s.rows && s.rows[id].deadAt.Some?
    ensures forall id | id in s.rows && s.rows[id].deadAt.Some? && id !in ids ::
              |ids| == limit && forall j | j in ids :: j < id
    ensures var d := Next(s, Requeue(limit), max);
            && d == s.(rows := d.rows) && d.rows.Keys == s.rows.Keys
            && forall id | id in s.rows ::
                 d.rows[id] == if id in ids then s.rows[id].(deadAt := None, attempts := 0) else s.rows[id]
  {
    ids := Front(Dead(s.rows), limit);
    FrontIsTheLowest(Dead(s.rows), limit);
  }

  /** An arrival is stored once: a new live row under an id that was free, unless the event
      id is stored already; then nothing happens. */
  lemma ArrivalsAreStoredOnce(s: State, eventId: string, name: string, skip: nat, now: int, max: nat)
    requires Valid(s)
    ensures var d := Next(s, Record(eventId, name, skip, now), max);
            var id := s.nextId + skip;
            && ((exists i :: i in s.rows && s.rows[i].eventId == eventId) ==> d == s)
            && (!(exists i :: i in s.rows && s.rows[i].eventId == eventId) ==>
                  && id !in s.rows && d.log == s.log && d.nextId > id
                  && d.rows == s.rows[id := Envelope(eventId, name, now, None, None, 0, None)])
  {
  }
}

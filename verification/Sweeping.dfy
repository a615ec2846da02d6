/** A sweep as it runs: one query, then one dispatch after the other, while deliveries,
    background tasks and the sweeps of other workers go on beside it. */
module Sweeping {
  import opened Domain
  import opened Queue

  /** `batch` is what the last query answered and `at` how far its dispatches got; `asked`
      are the rows that query saw; `earlier` is what the sweeps before it dispatched. */
  datatype Sweeper = Sweeper(queue: State, asked: map<nat, Envelope>, batch: seq<nat>, at: nat, sweeps: nat,
                             earlier: nat)

  function Idle(s: State): Sweeper { Sweeper(s, s.rows, [], 0, 0, 0) }

  datatype Act =
    | Query(limit: nat, cutoff: int)
    | DispatchNext(ending: Ending, now: int)
    | Beside(step: Step)

  /** A sweeper asks again only when it is through. */
  function Does(s: Sweeper, act: Act, max: nat): Sweeper {
    match act
    case Query(limit, cutoff) =>
      if s.at < |s.batch| then s
      else Sweeper(s.queue, s.queue.rows, Front(Due(s.queue.rows, cutoff), limit), 0, s.sweeps + 1,
                   s.earlier + |s.batch|)
    case DispatchNext(ending, now) =>
      if s.at >= |s.batch| then s
      else s.(queue := Process(s.queue, s.batch[s.at], ending, now, max), at := s.at + 1)
    case Beside(step) => s.(queue := Next(s.queue, step, max))
  }

  function Sweep(s: Sweeper, acts: seq<Act>, max: nat): Sweeper
    decreases |acts|
  {
    if acts == [] then s else Does(Sweep(s, acts[..|acts| - 1], max), acts[|acts| - 1], max)
  }

  /** A query, and the first `n` dispatches of what it answered. */
  function Uninterrupted(ids: seq<nat>, n: nat, limit: nat, cutoff: int, endings: nat -> Ending, now: int): seq<Act>
    requires n <= |ids|
  {
    if n == 0 then [Query(limit, cutoff)]
    else Uninterrupted(ids, n - 1, limit, cutoff, endings, now) + [DispatchNext(endings(ids[n - 1]), now)]
  }

  /** A query and n of its dispatches, one after the other. */
  lemma {:induction false} SweepSoFar(s: Sweeper, n: nat, limit: nat, cutoff: int, endings: nat -> Ending,
                                      now: int, max: nat)
    requires s.at >= |s.batch| && n <= |Front(Due(s.queue.rows, cutoff), limit)|
    ensures var ids := Front(Due(s.queue.rows, cutoff), limit);
            var t := Sweep(s, Uninterrupted(ids, n, limit, cutoff, endings, now), max);
            && t.batch == ids && t.at == n && t.sweeps == s.sweeps + 1
            && t.queue == ProcessAll(s.queue, ids[..n], endings, now, max)
    decreases n
  {
    var ids := Front(Due(s.queue.rows, cutoff), limit);
    var acts := Uninterrupted(ids, n, limit, cutoff, endings, now);
    if n == 0 {
      assert acts[..0] == [];
      assert ids[..0] == [];
    } else {
      assert acts[..|acts| - 1] == Uninterrupted(ids, n - 1, limit, cutoff, endings, now);
      SweepSoFar(s, n - 1, limit, cutoff, endings, now, max);
      assert ids[..n][..n - 1] == ids[..n - 1];
    }
  }

  /** A sweep with nothing beside it is the sweep of module Queue. */
  lemma SweepWithNothingBeside(s: Sweeper, limit: nat, cutoff: int, endings: nat -> Ending, now: int, max: nat)
    requires s.at >= |s.batch|
    ensures var ids := Front(Due(s.queue.rows, cutoff), limit);
            var t := Sweep(s, Uninterrupted(ids, |ids|, limit, cutoff, endings, now), max);
            && t.queue == Next(s.queue, Step.Sweep(limit, cutoff, endings, now), max)
            && t.batch == ids && t.at == |ids| && t.sweeps == s.sweeps + 1
  {
    var ids := Front(Due(s.queue.rows, cutoff), limit);
    SweepSoFar(s, |ids|, limit, cutoff, endings, now, max);
    assert ids[..|ids|] == ids;
  }

  /** Queries of one limit to which the envelope is old enough, and no requeue beside. */
  predicate FairTo(act: Act, limit: nat, createdAt: int) {
    && (act.Query? ==> act.limit == limit && createdAt < act.cutoff)
    && (act.Beside? ==> !act.step.Requeue?)
  }

  // ---------------------------------------------------------------- what is owed

  /** Nobody older owes more than before. */
  predicate Waned(a: map<nat, Envelope>, b: map<nat, Envelope>, id: nat, max: nat) {
    forall j: nat | j < id :: Owed(b, j, max) <= Owed(a, j, max)
  }

  lemma {:induction false} BatchWanes(s: State, ids: seq<nat>, endings: nat -> Ending, now: int, max: nat, id: nat)
    ensures Waned(s.rows, ProcessAll(s, ids, endings, now, max).rows, id, max)
    decreases |ids|
  {
    if ids != [] {
      var init, last := ids[..|ids| - 1], ids[|ids| - 1];
      BatchWanes(s, init, endings, now, max, id);
      DispatchPays(ProcessAll(s, init, endings, now, max), last, endings(last), now, max, id);
    }
  }

  lemma StepWanes(s: State, step: Step, max: nat, id: nat)
    requires Valid(s) && !step.Requeue? && id < s.nextId
    ensures Waned(s.rows, Next(s, step, max).rows, id, max)
  {
    match step {
      case Sweep(limit, cutoff, endings, now) =>
        BatchWanes(s, Front(Due(s.rows, cutoff), limit), endings, now, max, id);
      case Dispatch(j, ending, now) => DispatchPays(s, j, ending, now, max, id);
      case _ =>
    }
  }

  function Below(ids: seq<nat>, id: nat): nat {
    if id == 0 then 0 else Below(ids, id - 1) + if id - 1 in ids then 1 else 0
  }

  lemma {:induction false} BelowOneMore(init: seq<nat>, last: nat, id: nat)
    requires last !in init
    ensures Below(init + [last], id) == Below(init, id) + if last < id then 1 else 0
  {
    if id != 0 {
      BelowOneMore(init, last, id - 1);
      assert id - 1 in init + [last] <==> id - 1 in init || id - 1 == last;
    }
  }

  lemma {:induction false} AllBelow(ids: seq<nat>, id: nat)
    requires Increasing(ids) && forall j | j in ids :: j < id
    ensures Below(ids, id) == |ids|
    decreases |ids|
  {
    if ids == [] {
      NothingBelow(id);
    } else {
      LastOfAll(ids);
      assert ids == ids[..|ids| - 1] + [ids[|ids| - 1]];
      AllBelow(ids[..|ids| - 1], id);
      BelowOneMore(ids[..|ids| - 1], ids[|ids| - 1], id);
    }
  }

  lemma {:induction false} NothingBelow(id: nat)
    ensures Below([], id) == 0
  {
    if id != 0 { NothingBelow(id - 1); }
  }

  lemma {:induction false} DebtWanes(a: map<nat, Envelope>, b: map<nat, Envelope>, ids: seq<nat>, id: nat, max: nat)
    requires Waned(a, b, id, max) && forall j | j in ids && j < id :: Owed(b, j, max) < Owed(a, j, max)
    ensures Debt(b, id, max) + Below(ids, id) <= Debt(a, id, max)
  {
    if id != 0 {
      DebtWanes(a, b, ids, id - 1, max);
    }
  }

  // ------------------------------------------------------------- bounded waiting

  /** The envelope waits since `s0`: it was passed by in every sweep, each of which takes
      `limit` older ones; those already dispatched owe less than when they were asked for. */
  ghost predicate Waits(s0: State, s: Sweeper, limit: nat, max: nat, id: nat)
    requires id in s0.rows
  {
    && Valid(s.queue) && s0.log <= s.queue.log
    && id in s.queue.rows && s.queue.rows[id] == s0.rows[id]
    && s.at <= |s.batch| && Increasing(s.batch)
    && (forall j | j in s.batch :: j < id)
    && (s.sweeps > 0 ==> |s.batch| == limit)
    && (s.sweeps == 0 ==> s.batch == [])
    && Waned(s.asked, s.queue.rows, id, max)
    && (forall j | j in s.batch :: Owed(s.asked, j, max) > 0)
    && (forall k | 0 <= k < s.at :: Owed(s.queue.rows, s.batch[k], max) < Owed(s.asked, s.batch[k], max))
    && Debt(s.asked, id, max) + s.earlier <= Debt(s0.rows, id, max)
    && s.earlier + |s.batch| == s.sweeps * limit
  }

  /** What happened beside or in the sweep kept what it had collected. */
  lemma Kept(s0: State, s: Sweeper, rows: map<nat, Envelope>, max: nat, id: nat)
    requires Waned(s.asked, s.queue.rows, id, max) && Waned(s.queue.rows, rows, id, max)
    requires s.at <= |s.batch| && forall j | j in s.batch :: j < id
    requires forall k | 0 <= k < s.at :: Owed(s.queue.rows, s.batch[k], max) < Owed(s.asked, s.batch[k], max)
    ensures Waned(s.asked, rows, id, max)
    ensures forall k | 0 <= k < s.at :: Owed(rows, s.batch[k], max) < Owed(s.asked, s.batch[k], max)
  {
    forall k | 0 <= k < s.at ensures Owed(rows, s.batch[k], max) < Owed(s.asked, s.batch[k], max) {
      assert s.batch[k] in s.batch;
    }
  }

  /** Once a sweep is through, everything in it was paid for. */
  lemma ThroughMeansPaid(s0: State, s: Sweeper, limit: nat, max: nat, id: nat)
    requires id in s0.rows && Waits(s0, s, limit, max, id) && s.at == |s.batch|
    ensures Debt(s.queue.rows, id, max) + s.earlier + |s.batch| <= Debt(s0.rows, id, max)
  {
    forall j | j in s.batch && j < id ensures Owed(s.queue.rows, j, max) < Owed(s.asked, j, max) {
      var k :| 0 <= k < |s.batch| && s.batch[k] == j;
    }
    DebtWanes(s.asked, s.queue.rows, s.batch, id, max);
    AllBelow(s.batch, id);
  }

  lemma QueryWaits(s0: State, s: Sweeper, limit: nat, cutoff: int, max: nat, id: nat)
    requires id in s0.rows && s0.rows[id].Live() && s0.rows[id].createdAt < cutoff
    requires Waits(s0, s, limit, max, id) && s.at == |s.batch|
    requires id !in Front(Due(s.queue.rows, cutoff), limit)
    ensures Waits(s0, Does(s, Query(limit, cutoff), max), limit, max, id)
  {
    PassedBy(s.queue.rows, limit, cutoff, max, id);
    ThroughMeansPaid(s0, s, limit, max, id);
    OneMoreTime(s.sweeps, limit);
  }

  lemma OneMoreTime(n: nat, limit: nat)
    ensures (n + 1) * limit == n * limit + limit
  {
  }

  /** A query that passes a due envelope by takes `limit` older ones, each of which owes. */
  lemma PassedBy(rows: map<nat, Envelope>, limit: nat, cutoff: int, max: nat, id: nat)
    requires id in Due(rows, cutoff) && id !in Front(Due(rows, cutoff), limit)
    ensures var f := Front(Due(rows, cutoff), limit);
            Increasing(f) && |f| == limit && forall j | j in f :: j < id && Owed(rows, j, max) > 0
  {
    FrontIsTheLowest(Due(rows, cutoff), limit);
  }

  lemma DispatchWaits(s0: State, s: Sweeper, ending: Ending, now: int, limit: nat, max: nat, id: nat)
    requires id in s0.rows && Waits(s0, s, limit, max, id) && s.at < |s.batch|
    ensures Waits(s0, Does(s, DispatchNext(ending, now), max), limit, max, id)
  {
    assert s.batch[s.at] in s.batch;
    NextIsValid(s.queue, Dispatch(s.batch[s.at], ending, now), max);
    OneMorePaid(s0, s, ending, now, limit, max, id);
  }

  lemma OneMorePaid(s0: State, s: Sweeper, ending: Ending, now: int, limit: nat, max: nat, id: nat)
    requires id in s0.rows && Waits(s0, s, limit, max, id) && s.at < |s.batch|
    ensures var rows := Process(s.queue, s.batch[s.at], ending, now, max).rows;
            && id in rows && rows[id] == s.queue.rows[id]
            && Waned(s.asked, rows, id, max)
            && forall k | 0 <= k <= s.at :: Owed(rows, s.batch[k], max) < Owed(s.asked, s.batch[k], max)
  {
    var j := s.batch[s.at];
    assert j in s.batch;
    DispatchPays(s.queue, j, ending, now, max, id);
    Kept(s0, s, Process(s.queue, j, ending, now, max).rows, max, id);
  }

  lemma BesideWaits(s0: State, s: Sweeper, step: Step, limit: nat, max: nat, id: nat)
    requires id in s0.rows && Waits(s0, s, limit, max, id) && !step.Requeue?
    requires s.queue.rows[id].processedAt.None?
    ensures var t := Does(s, Beside(step), max);
            TriedSince(|s.queue.log|, t.queue.log, id) || Waits(s0, t, limit, max, id)
  {
    var t := Does(s, Beside(step), max);
    NextIsValid(s.queue, step, max);
    StepWanes(s.queue, step, max, id);
    Kept(s0, s, t.queue.rows, max, id);
    UntriedRowsStay(s.queue, step, max, id);
  }

  /** A row that a step does not try is not touched. */
  lemma UntriedRowsStay(s: State, step: Step, max: nat, id: nat)
    requires Valid(s) && id in s.rows && s.rows[id].processedAt.None? && !step.Requeue?
    ensures var d := Next(s, step, max);
            TriedSince(|s.log|, d.log, id) || (id in d.rows && d.rows[id] == s.rows[id])
  {
    var d := Next(s, step, max);
    match step {
      case Sweep(limit, cutoff, endings, now) =>
        var f := Front(Due(s.rows, cutoff), limit);
        FrontIsTheLowest(Due(s.rows, cutoff), limit);
        BatchDoes(s, f, endings, now, max);
        if id in f { BatchTries(s, f, endings, now, max, id); }
      case Dispatch(j, ending, now) =>
        if j == id { assert d.log[|s.log|].id == id; }
      case _ =>
    }
  }

  /** A sweep that has the envelope in its batch tries it before it is through. */
  ghost predicate InHand(s0: State, s: Sweeper, id: nat)
    requires id in s0.rows
  {
    && Valid(s.queue) && s0.log <= s.queue.log
    && id in s.queue.rows && s.queue.rows[id] == s0.rows[id]
    && exists k :: s.at <= k < |s.batch| && s.batch[k] == id
  }

  /** Either the envelope was tried, or it waits, or a sweep has it in hand. */
  ghost predicate Accounted(s0: State, s: Sweeper, limit: nat, max: nat, id: nat)
    requires id in s0.rows
  {
    || (s0.log <= s.queue.log && TriedSince(|s0.log|, s.queue.log, id))
    || Waits(s0, s, limit, max, id)
    || InHand(s0, s, id)
  }

  lemma LogGrows(s: Sweeper, act: Act, max: nat)
    requires Valid(s.queue)
    ensures s.queue.log <= Does(s, act, max).queue.log && Valid(Does(s, act, max).queue)
  {
    match act {
      case Beside(step) => NextIsValid(s.queue, step, max);
      case DispatchNext(ending, now) =>
        if s.at < |s.batch| { NextIsValid(s.queue, Dispatch(s.batch[s.at], ending, now), max); }
      case _ =>
    }
  }

  lemma InHandAccounted(s0: State, s: Sweeper, act: Act, limit: nat, max: nat, id: nat)
    requires id in s0.rows && s0.rows[id].Live() && InHand(s0, s, id) && FairTo(act, limit, s0.rows[id].createdAt)
    ensures Accounted(s0, Does(s, act, max), limit, max, id)
  {
    var t := Does(s, act, max);
    var k :| s.at <= k < |s.batch| && s.batch[k] == id;
    LogGrows(s, act, max);
    match act {
      case Query(_, _) => assert t == s;
      case DispatchNext(ending, now) =>
        if s.batch[s.at] == id { assert t.queue.log[|s.queue.log|].id == id; }
        else { assert t.at <= k && t.batch[k] == id; }
      case Beside(step) =>
        UntriedRowsStay(s.queue, step, max, id);
        if TriedSince(|s.queue.log|, t.queue.log, id) { Since(s0, s.queue, t.queue, id); }
        else { assert t.at <= k && t.batch[k] == id; }
    }
  }

  lemma Since(s0: State, s: State, t: State, id: nat)
    requires s0.log <= s.log <= t.log && TriedSince(|s.log|, t.log, id)
    ensures TriedSince(|s0.log|, t.log, id)
  {
    var k :| |s.log| <= k < |t.log| && t.log[k].id == id;
  }

  lemma WaitingAccounted(s0: State, s: Sweeper, act: Act, limit: nat, max: nat, id: nat)
    requires id in s0.rows && s0.rows[id].Live() && Waits(s0, s, limit, max, id)
             && FairTo(act, limit, s0.rows[id].createdAt)
    ensures Accounted(s0, Does(s, act, max), limit, max, id)
  {
    var t := Does(s, act, max);
    match act {
      case Query(l, cutoff) =>
        if s.at < |s.batch| { assert t == s; }
        else if id in t.batch { assert exists k :: t.at <= k < |t.batch| && t.batch[k] == id; }
        else { QueryWaits(s0, s, limit, cutoff, max, id); }
      case DispatchNext(ending, now) =>
        if s.at < |s.batch| { DispatchWaits(s0, s, ending, now, limit, max, id); }
      case Beside(step) =>
        LogGrows(s, act, max);
        BesideWaits(s0, s, step, limit, max, id);
        if TriedSince(|s.queue.log|, t.queue.log, id) { Since(s0, s.queue, t.queue, id); }
    }
  }

  lemma TriedStaysTried(s0: State, s: Sweeper, act: Act, max: nat, id: nat)
    requires Valid(s.queue) && s0.log <= s.queue.log && TriedSince(|s0.log|, s.queue.log, id)
    ensures s0.log <= Does(s, act, max).queue.log && TriedSince(|s0.log|, Does(s, act, max).queue.log, id)
  {
    LogGrows(s, act, max);
    var k :| |s0.log| <= k < |s.queue.log| && s.queue.log[k].id == id;
    assert Does(s, act, max).queue.log[k] == s.queue.log[k];
  }

  lemma {:induction false} EveryEnvelopeIsAccounted(s0: State, acts: seq<Act>, limit: nat, max: nat, id: nat)
    requires Valid(s0) && id in s0.rows && s0.rows[id].Live()
    requires forall k | 0 <= k < |acts| :: FairTo(acts[k], limit, s0.rows[id].createdAt)
    ensures Valid(Sweep(Idle(s0), acts, max).queue) && Accounted(s0, Sweep(Idle(s0), acts, max), limit, max, id)
    decreases |acts|
  {
    if acts == [] {
      assert Waits(s0, Idle(s0), limit, max, id);
    } else {
      var s, act := Sweep(Idle(s0), acts[..|acts| - 1], max), acts[|acts| - 1];
      EveryEnvelopeIsAccounted(s0, acts[..|acts| - 1], limit, max, id);
      LogGrows(s, act, max);
      if s0.log <= s.queue.log && TriedSince(|s0.log|, s.queue.log, id) {
        TriedStaysTried(s0, s, act, max, id);
      } else if Waits(s0, s, limit, max, id) {
        WaitingAccounted(s0, s, act, limit, max, id);
      } else {
        InHandAccounted(s0, s, act, limit, max, id);
      }
    }
  }

  /** Bounded waiting, with everything going on beside the sweeps: once the sweeper is
      through with its floor(k * max / limit) + 1st sweep, a live envelope that had k
      live ones before it has been dispatched. */
  lemma WaitingIsBoundedBesideOthers(s0: State, acts: seq<Act>, limit: nat, max: nat, id: nat)
    requires Valid(s0) && id in s0.rows && s0.rows[id].Live() && limit > 0
    requires forall k | 0 <= k < |acts| :: FairTo(acts[k], limit, s0.rows[id].createdAt)
    requires var s := Sweep(Idle(s0), acts, max);
             s.at >= |s.batch| && s.sweeps >= Older(s0.rows, id) * Max(max, 1) / limit + 1
    ensures TriedSince(|s0.log|, Sweep(Idle(s0), acts, max).queue.log, id)
  {
    var s := Sweep(Idle(s0), acts, max);
    EveryEnvelopeIsAccounted(s0, acts, limit, max, id);
    DebtIsBounded(s0.rows, id, max);
    MoreThanTheDebt(Older(s0.rows, id) * Max(max, 1), limit, s.sweeps);
    if Waits(s0, s, limit, max, id) { ThroughMeansPaid(s0, s, limit, max, id); }
  }
}

/** A whole tick of the work loop: which cases it claims, the turns it takes and
    what it counts (app/orchestrator.py:30-92, 104-185). */
module Ticks {
  import opened Domain
  import opened CaseWork
  import opened Lifecycle

  // ------------------------------------------------------------------ claiming

  predicate Wanted(cases: map<nat, Case>, locked: set<nat>, now: int, i: nat) {
    i in cases && i !in locked && Claimable(cases[i], now)
  }

  /** The claim query over the cases in score order: the first `limit` that are
      claimable and not locked by somebody else. */
  function Claimed(cases: map<nat, Case>, order: seq<nat>, locked: set<nat>, limit: nat, now: int): seq<nat>
    decreases |order|
  {
    if order == [] then []
    else
      var before := Claimed(cases, order[..|order| - 1], locked, limit, now);
      var i := order[|order| - 1];
      if |before| < limit && Wanted(cases, locked, now, i) then before + [i] else before
  }

  /** A batch holds claimable unlocked cases, each once, at most `limit` of them; a
      claimable case is left out only when the batch is full, and then by
      cases that come before it in the order. */
  lemma {:induction false} ClaimedIsTheFront(cases: map<nat, Case>, order: seq<nat>, locked: set<nat>, limit: nat,
                                             now: int)
    requires Distinct(order)
    ensures var b := Claimed(cases, order, locked, limit, now);
            && Distinct(b) && |b| <= limit
            && (forall i | i in b :: i in order && Wanted(cases, locked, now, i))
            && (forall p | 0 <= p < |order| && Wanted(cases, locked, now, order[p]) && order[p] !in b ::
                  |b| == limit && forall i | i in b :: i in order[..p])
    decreases |order|
  {
    if order != [] {
      var init, last := order[..|order| - 1], order[|order| - 1];
      ClaimedIsTheFront(cases, init, locked, limit, now);
      var b0 := Claimed(cases, init, locked, limit, now);
      var b := Claimed(cases, order, locked, limit, now);
      assert last !in init;
      forall p | 0 <= p < |order| && Wanted(cases, locked, now, order[p]) && order[p] !in b
        ensures |b| == limit && forall i | i in b :: i in order[..p]
      {
        if p < |init| {
          assert init[p] == order[p] && init[..p] == order[..p];
        } else {
          assert order[..p] == init;
        }
      }
    }
  }

  /** In the database, open or under way, due, and held by nobody else. */
  predicate FreeAndDue(cases: map<nat, Case>, locked: set<nat>, now: int, i: nat) {
    && i in cases && i !in locked
    && (cases[i].status == Open || cases[i].status == InProgress)
    && (cases[i].nextEligibleAt == None || cases[i].nextEligibleAt.value <= now)
  }

  /** The batch, told from the columns: such cases only, each once, and every such case of
      the order unless `limit` of them come before it. */
  lemma FirstFreeAreClaimed(cases: map<nat, Case>, order: seq<nat>, locked: set<nat>, limit: nat, now: int)
    requires Distinct(order)
    ensures var b := Claimed(cases, order, locked, limit, now);
            && Distinct(b) && |b| <= limit
            && (forall i | i in b :: i in order && FreeAndDue(cases, locked, now, i))
            && (forall p | 0 <= p < |order| && FreeAndDue(cases, locked, now, order[p]) && order[p] !in b ::
                  |b| == limit && forall i | i in b :: i in order[..p])
  {
    ClaimedIsTheFront(cases, order, locked, limit, now);
    assert forall i: nat :: Wanted(cases, locked, now, i) <==> FreeAndDue(cases, locked, now, i);
  }

  // ------------------------------------------------------------------ counting

  datatype Tally = Tally(
    considered: nat, contacted: nat, linked: nat, charged: nat, stopped: nat,
    needsHuman: nat, waiting: nat, failed: nat,
    pendingCooldowns: seq<string>
  )

  const NOTHING := Tally(0, 0, 0, 0, 0, 0, 0, 0, [])

  function Counted(t: Tally, e: Effect, customerId: string): Tally {
    var t1 := t.(considered := t.considered + 1);
    match e
    case Waited => t1.(waiting := t.waiting + 1)
    case Closed(reason) =>
      t1.(stopped := t.stopped + 1, needsHuman := t.needsHuman + if reason.NeedsHuman? then 1 else 0)
    case Failed(_) => t1.(failed := t.failed + 1)
    case Delivered(kind) =>
      var t2 := t1.(pendingCooldowns := t.pendingCooldowns + [customerId]);
      match kind
      case Charging => t2.(charged := t.charged + 1)
      case Linking => t2.(linked := t.linked + 1)
      case Calling => t2.(contacted := t.contacted + 1)
  }

  function Turns(ids: seq<nat>, oracle: nat -> Answers, now: int): seq<Move> {
    seq(|ids|, k requires 0 <= k < |ids| => Turn(ids[k], oracle(ids[k]), now))
  }

  /** What a turn on case `i` would amount to. */
  function EffectOf(db: Db, i: nat, o: Answers, now: int, w: World): Effect
    requires i in db.cases
  {
    Work(db.cases[i], CustomerOf(db.customers, db.cases[i]), o, now, w.st).effect
  }

  /** What a tick over `ids` counts. */
  function Ticked(db: Db, ids: seq<nat>, oracle: nat -> Answers, now: int, w: World): Tally
    decreases |ids|
  {
    if ids == [] then NOTHING
    else
      var before := Ticked(db, ids[..|ids| - 1], oracle, now, w);
      var mid := Run(db, Turns(ids[..|ids| - 1], oracle, now), w);
      var i := ids[|ids| - 1];
      if i in mid.cases then Counted(before, EffectOf(mid, i, oracle(i), now, w), mid.cases[i].customerId) else before
  }

  predicate AddsUp(t: Tally) {
    && t.considered == t.contacted + t.linked + t.charged + t.stopped + t.waiting + t.failed
    && |t.pendingCooldowns| == t.contacted + t.linked + t.charged
    && t.needsHuman <= t.stopped
  }

  lemma CountingAddsUp(t: Tally, e: Effect, customerId: string)
    requires AddsUp(t)
    ensures AddsUp(Counted(t, e, customerId)) && Counted(t, e, customerId).considered == t.considered + 1
  {
  }

  /** Nothing falls through the tick: every case considered is counted under exactly
      one outcome, and every delivery announces one cooldown. */
  lemma {:induction false} EveryCaseIsCountedOnce(db: Db, ids: seq<nat>, oracle: nat -> Answers, now: int, w: World)
    requires forall i | i in ids :: i in db.cases
    ensures AddsUp(Ticked(db, ids, oracle, now, w)) && Ticked(db, ids, oracle, now, w).considered == |ids|
    decreases |ids|
  {
    if ids != [] {
      var init := ids[..|ids| - 1];
      EveryCaseIsCountedOnce(db, init, oracle, now, w);
      ClosedStaysClosed(db, Turns(init, oracle, now), w, ids[|ids| - 1]);
      var mid := Run(db, Turns(init, oracle, now), w);
      CountingAddsUp(Ticked(db, init, oracle, now, w), EffectOf(mid, ids[|ids| - 1], oracle(ids[|ids| - 1]), now, w),
                     mid.cases[ids[|ids| - 1]].customerId);
    }
  }

  // ----------------------------------------------------------- a tick is a run

  /** Working some cases leaves every other case row as it was. */
  lemma {:induction false} TurnsLeaveOthers(db: Db, ids: seq<nat>, oracle: nat -> Answers, now: int, w: World, j: nat)
    requires j !in ids && j in db.cases
    ensures var d := Run(db, Turns(ids, oracle, now), w); j in d.cases && d.cases[j] == db.cases[j]
    decreases |ids|
  {
    if ids != [] {
      var init, last := ids[..|ids| - 1], ids[|ids| - 1];
      TurnsLeaveOthers(db, init, oracle, now, w, j);
      assert Turns(ids, oracle, now) == Turns(init, oracle, now) + [Turn(last, oracle(last), now)];
      RunOneMore(db, Turns(init, oracle, now), Turn(last, oracle(last), now), w);
      EveryMove(Run(db, Turns(init, oracle, now), w), Turn(last, oracle(last), now), w, j);
    }
  }

  /** Each case of a batch is still claimable when its turn comes, so every turn of
      a tick is one the lifecycle allows: a tick is a run. */
  lemma EveryTurnIsLegal(db: Db, ids: seq<nat>, oracle: nat -> Answers, now: int, w: World, k: nat)
    requires Distinct(ids) && k < |ids|
    requires forall i | i in ids :: i in db.cases && Claimable(db.cases[i], now)
    ensures Legal(Run(db, Turns(ids[..k], oracle, now), w), Turn(ids[k], oracle(ids[k]), now), w)
  {
    TurnsLeaveOthers(db, ids[..k], oracle, now, w, ids[k]);
  }
}

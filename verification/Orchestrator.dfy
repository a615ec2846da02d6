/** app/orchestrator.py with app/mandate.py and app/payment_links.py: the work loop
    on the row objects, proved to do what CaseWork and Lifecycle say. */
module Orchestrator {
  import opened Domain
  import opened CaseWork
  import opened Lifecycle
  import opened Session
  import opened Ticks
  import Policy
  import Reports

  class TickResult {
    var considered: nat
    var contacted: nat
    var linked: nat
    var charged: nat
    var stopped: nat
    var needsHuman: nat
    var waiting: nat
    var failed: nat
    var pendingCooldowns: seq<string>

    constructor ()
      ensures Counts() == NOTHING
    {
      considered, contacted, linked, charged, stopped, needsHuman, waiting, failed := 0, 0, 0, 0, 0, 0, 0, 0;
      pendingCooldowns := [];
    }

    function Counts(): Tally
      reads this
    {
      Tally(considered, contacted, linked, charged, stopped, needsHuman, waiting, failed, pendingCooldowns)
    }
  }

  // ----------------------------------------------------------------- mandates

  /** The most recently used of the chargeable tokens, the first of equals. */
  predicate IsUsable(tokens: seq<Token>, amount: int, epoch: int, at: nat) {
    && at < |tokens| && Chargeable(tokens[at], amount, epoch)
    && (forall k | 0 <= k < |tokens| && Chargeable(tokens[k], amount, epoch) ::
          if k < at then tokens[k].usedAt < tokens[at].usedAt else tokens[k].usedAt <= tokens[at].usedAt)
  }

  method UsableToken(tokens: seq<Token>, amount: int, epoch: int) returns (token: Option<Token>)
    ensures token.None? <==> !SomeChargeable(tokens, amount, epoch)
    ensures token.Some? ==> exists at: nat :: IsUsable(tokens, amount, epoch, at) && tokens[at] == token.value
  {
    var candidates: seq<Token> := [];
    ghost var from: seq<nat> := [];       // where each candidate stands in `tokens`
    for n := 0 to |tokens|
      invariant |from| == |candidates|
      invariant forall a | 0 <= a < |from| ::
                from[a] < n && tokens[from[a]] == candidates[a] && Chargeable(candidates[a], amount, epoch)
      invariant forall a, b | 0 <= a < b < |from| :: from[a] < from[b]
      invariant forall k | 0 <= k < n && Chargeable(tokens[k], amount, epoch) :: k in from
    {
      var t := tokens[n];
      if !t.recurring { continue; }
      if t.status.Some? && t.status.value != "confirmed" { continue; }
      if t.expiredAt.Some? && t.expiredAt.value <= epoch { continue; }
      if t.maxAmount.Some? && t.maxAmount.value < amount { continue; }
      candidates := candidates + [t];
      from := from + [n];
    }
    if candidates == [] { return None; }
    assert Chargeable(tokens[from[0]], amount, epoch);
    var best := 0;
    for n := 1 to |candidates|
      invariant best < n
      invariant forall a | 0 <= a < n :: if a < best then candidates[a].usedAt < candidates[best].usedAt
                                         else candidates[a].usedAt <= candidates[best].usedAt
    {
      if candidates[n].usedAt > candidates[best].usedAt { best := n; }
    }
    assert IsUsable(tokens, amount, epoch, from[best]) by {
      forall k | 0 <= k < |tokens| && Chargeable(tokens[k], amount, epoch)
        ensures if k < from[best] then tokens[k].usedAt < tokens[from[best]].usedAt
                else tokens[k].usedAt <= tokens[from[best]].usedAt
      {
        var a :| 0 <= a < |from| && from[a] == k;
        if a > best { assert from[best] < from[a]; }
      }
    }
    return Some(candidates[best]);
  }

  method ChargeMandate(s: Tables, c: CaseRecord, cu: CustomerRecord, answer: ChargeAnswer, epoch: int)
      returns (outcome: ChargeOutcome)
    modifies s`audit
    ensures outcome == Charge(c.Row(), cu.Row(), answer, epoch)
    ensures s.audit == if outcome.ChargeRaised? then old(s.audit)
                       else old(s.audit) + [AuditRow(c.id, MandateRetried(outcome))]
  {
    var reachable := cu.phone != "" && !cu.phoneIsWrong;
    if !(c.customerId != "" && cu.email != "" && reachable) {
      s.LogAction(c, MandateRetried(MissingDetails));
      return MissingDetails;
    }
    if answer.tokens.None? { return ChargeRaised; }
    var token := UsableToken(answer.tokens.value, c.amount, epoch);
    if token.None? {
      s.LogAction(c, MandateRetried(NoChargeableMandate));
      return NoChargeableMandate;
    }
    if !answer.orderAccepted || !answer.paymentAccepted { return ChargeRaised; }
    s.LogAction(c, MandateRetried(ChargeOutcome.Charged));
    return ChargeOutcome.Charged;
  }

  // ------------------------------------------------------------ payment links

  /** `create_recovery_link`; false when Razorpay's answer raised. */
  method CreateRecoveryLink(s: Tables, c: CaseRecord, answer: LinkAnswer) returns (made: bool, raised: bool)
    modifies s`audit, s`log, c`link
    ensures var l := RecoveryLink(old(c.Row()), answer);
            && c.Row() == l.row && made == l.made && raised == l.note.None?
            && s.audit == old(s.audit) + (if l.note.Some? then [AuditRow(c.id, l.note.value)] else [])
            && s.log == old(s.log) + (if l.made then [NewLink(c.id)] else [])
  {
    if c.link.Some? && c.link.value.id != "" && c.link.value.url != "" {
      s.LogAction(c, LinkResent);
      return false, false;
    }
    if answer.LinkRefused? { return false, true; }
    c.link := Some(answer.link);
    s.LogAction(c, LinkCreated);
    s.log := s.log + [NewLink(c.id)];
    return true, false;
  }

  // ---------------------------------------------------------- the interventions

  method RetryMandate(s: Tables, c: CaseRecord, cu: CustomerRecord, answer: ChargeAnswer, now: int)
      returns (delivered: bool)
    modifies s`audit, c
    ensures var begun := old(c.Row()).(status := InProgress, lastAttemptAt := Some(now));
            var outcome := Charge(begun, cu.Row(), answer, now);
            && delivered == outcome.Charged?
            && c.Row() == (if delivered then begun.(attemptCount := begun.attemptCount + 1) else begun)
            && s.audit == old(s.audit) + [AuditRow(c.id, MandateRetried(outcome))]
  {
    c.status := InProgress;
    c.lastAttemptAt := Some(now);
    var outcome := ChargeMandate(s, c, cu, answer, now);
    if outcome.ChargeRaised? {
      s.LogAction(c, MandateRetried(ChargeRaised));
      return false;
    }
    if outcome.Charged? { c.attemptCount := c.attemptCount + 1; }
    return outcome.Charged?;
  }

  method SendLink(s: Tables, c: CaseRecord, answer: LinkAnswer, now: int) returns (delivered: bool, made: bool)
    modifies s`audit, s`log, c
    ensures var begun := old(c.Row()).(status := InProgress, lastAttemptAt := Some(now));
            var l := RecoveryLink(begun, answer);
            && delivered == l.note.Some? && made == l.made
            && c.Row() == (if delivered then l.row.(attemptCount := l.row.attemptCount + 1) else l.row)
            && s.audit == old(s.audit) + [AuditRow(c.id, if l.note.Some? then l.note.value else LinkRaised)]
            && s.log == old(s.log) + (if made then [NewLink(c.id)] else [])
  {
    c.status := InProgress;
    c.lastAttemptAt := Some(now);
    var raised;
    made, raised := CreateRecoveryLink(s, c, answer);
    if raised {
      s.LogAction(c, LinkRaised);
      return false, made;
    }
    c.attemptCount := c.attemptCount + 1;
    return true, made;
  }

  method Contact(s: Tables, c: CaseRecord, placed: bool, now: int) returns (delivered: bool)
    modifies s`audit, c
    ensures var begun := old(c.Row()).(status := InProgress, lastAttemptAt := Some(now));
            && delivered == placed
            && c.Row() == (if delivered then begun.(attemptCount := begun.attemptCount + 1) else begun)
            && s.audit == old(s.audit) + [AuditRow(c.id, if placed then CallPlaced else Note.CallRaised)]
  {
    c.status := InProgress;
    c.lastAttemptAt := Some(now);
    if !placed {
      s.LogAction(c, Note.CallRaised);
      return false;
    }
    c.attemptCount := c.attemptCount + 1;
    s.LogAction(c, CallPlaced);
    return true;
  }

  method RecordDelivery(c: CaseRecord, cu: CustomerRecord, r: TickResult, delivered: bool, kind: Kind, now: int)
    modifies c`deliveryFailures, cu`lastContactedAt, r
    ensures c.Row() == old(c.Row()).(deliveryFailures := if delivered then 0 else old(c.deliveryFailures) + 1)
    ensures cu.Row() == if delivered then old(cu.Row()).(lastContactedAt := Some(now)) else old(cu.Row())
    ensures var effect := if delivered then Delivered(kind) else Failed(kind);
            r.Counts() == Counted(old(r.Counts()), effect, cu.key).(considered := old(r.considered))
  {
    if delivered {
      c.deliveryFailures := 0;
      cu.lastContactedAt := Some(now);
      match kind {
        case Charging => r.charged := r.charged + 1;
        case Linking => r.linked := r.linked + 1;
        case Calling => r.contacted := r.contacted + 1;
      }
      r.pendingCooldowns := r.pendingCooldowns + [cu.key];
    } else {
      c.deliveryFailures := c.deliveryFailures + 1;
      r.failed := r.failed + 1;
    }
  }

  // ------------------------------------------------------------------ one turn

  /** The body of the batch loop, on the row objects: case and customer move as
      CaseWork.Work says, and the trail, the log and the tally grow by its notes,
      entries and effect. */
  method WorkRecord(s: Tables, r: TickResult, c: CaseRecord, cu: CustomerRecord?, o: Answers, now: int, st: Settings)
    requires cu != null ==> cu.key == c.customerId
    modifies s`audit, s`log, c, r, if cu == null then {} else {cu}
    ensures var w := Work(old(c.Row()), old(RowOf(cu)), o, now, st);
            && c.Row() == w.row && RowOf(cu) == w.customer
            && s.audit == old(s.audit) + Rows(c.id, w.notes)
            && s.log == old(s.log) + TurnEntries(c.id, c.customerId, w, now)
            && r.Counts() == Counted(old(r.Counts()), w.effect, c.customerId)
  {
    r.considered := r.considered + 1;
    if cu != null && o.onSharedCooldown {
      r.waiting := r.waiting + 1;
      return;
    }
    WorkByPolicy(s, r, c, cu, o, now, st);
  }

  /** The same, once the shared cooldown is out of the way and the case is counted. */
  method WorkByPolicy(s: Tables, r: TickResult, c: CaseRecord, cu: CustomerRecord?, o: Answers, now: int, st: Settings)
    requires cu != null ==> cu.key == c.customerId && !o.onSharedCooldown
    modifies s`audit, s`log, c, r, if cu == null then {} else {cu}
    ensures var w := Work(old(c.Row()), old(RowOf(cu)), o, now, st);
            && c.Row() == w.row && RowOf(cu) == w.customer
            && s.audit == old(s.audit) + Rows(c.id, w.notes)
            && s.log == old(s.log) + TurnEntries(c.id, c.customerId, w, now)
            && r.Counts() == Counted(old(r.Counts()), w.effect, c.customerId).(considered := old(r.considered))
  {
    var decision := Policy.Decide(c.Row(), RowOf(cu), now, st);
    if decision.action == Wait {
      c.nextEligibleAt := decision.retryAfter;
      r.waiting := r.waiting + 1;
      return;
    }
    DecidedIsWork(c.Row(), RowOf(cu), o, now, st);
    Decided(s, r, c, cu, decision, o, now);
  }

  lemma DecidedIsWork(c: Case, cu: Option<Customer>, o: Answers, now: int, st: Settings)
    requires !(cu.Some? && o.onSharedCooldown)
    ensures var d := Policy.Decide(c, cu, now, st);
            d.action != Wait ==>
              (d.action != Stop ==> cu.Some?) && Work(c, cu, o, now, st) == Executed(c, cu, d, o, now)
  {
    if Policy.Acts(Policy.Decide(c, cu, now, st)) { Policy.ActingMeans(c, cu, now, st); }
  }

  /** What a decision other than a wait makes of the rows. */
  function Executed(c: Case, cu: Option<Customer>, d: Decision, o: Answers, now: int): Worked
    requires d.action != Wait && (d.action != Stop ==> cu.Some?)
  {
    if d.action == Stop then
      Worked(c.(status := Stopped, nextEligibleAt := None), cu, [PolicyDecision(d), StoppedByPolicy(d.reason)],
             Closed(d.reason), false)
    else Intervene(c, cu.value, d, o, now)
  }

  method Decided(s: Tables, r: TickResult, c: CaseRecord, cu: CustomerRecord?, decision: Decision, o: Answers, now: int)
    requires cu != null ==> cu.key == c.customerId
    requires decision.action != Wait && (decision.action != Stop ==> cu != null)
    modifies s`audit, s`log, c, r, if cu == null then {} else {cu}
    ensures var w := Executed(old(c.Row()), old(RowOf(cu)), decision, o, now);
            && c.Row() == w.row && RowOf(cu) == w.customer
            && s.audit == old(s.audit) + Rows(c.id, w.notes)
            && s.log == old(s.log) + TurnEntries(c.id, c.customerId, w, now)
            && r.Counts() == Counted(old(r.Counts()), w.effect, c.customerId).(considered := old(r.considered))
  {
    s.LogAction(c, PolicyDecision(decision));
    c.nextEligibleAt := None;
    if decision.action == Stop {
      StopCase(s, r, c, decision);
      TwoRows(old(s.audit), c.id, [PolicyDecision(decision), StoppedByPolicy(decision.reason)]);
    } else {
      ghost var w := Intervene(c.Row(), cu.Row(), decision, o, now);
      assert Begun(old(c.Row()), now) == Begun(c.Row(), now);
      Intervened(s, r, c, cu, decision, o, now);
      TwoRows(old(s.audit), c.id, w.notes);
    }
  }

  method StopCase(s: Tables, r: TickResult, c: CaseRecord, decision: Decision)
    modifies s`audit, c`status, r`stopped, r`needsHuman
    ensures c.Row() == old(c.Row()).(status := Stopped)
    ensures s.audit == old(s.audit) + [AuditRow(c.id, StoppedByPolicy(decision.reason))]
    ensures r.Counts() ==
            Counted(old(r.Counts()), Closed(decision.reason), c.customerId).(considered := old(r.considered))
  {
    c.status := Stopped;
    s.LogAction(c, StoppedByPolicy(decision.reason));
    r.stopped := r.stopped + 1;
    if decision.reason.NeedsHuman? { r.needsHuman := r.needsHuman + 1; }
  }

  lemma TwoRows(audit: seq<AuditRow>, i: nat, notes: seq<Note>)
    requires |notes| == 2
    ensures audit + [AuditRow(i, notes[0])] + [AuditRow(i, notes[1])] == audit + Rows(i, notes)
  {
  }

  /** What an intervention and the record of its delivery leave behind. */
  twostate predicate Leaves(s: Tables, r: TickResult, c: CaseRecord, cu: CustomerRecord, w: Worked, now: int)
    reads s, r, c, cu
  {
    && c.Row() == w.row && Some(cu.Row()) == w.customer
    && |w.notes| == 2 && s.audit == old(s.audit) + [AuditRow(c.id, w.notes[1])]
    && s.log == old(s.log) + TurnEntries(c.id, c.customerId, w, now)
    && r.Counts() == Counted(old(r.Counts()), w.effect, c.customerId).(considered := old(r.considered))
  }

  method RetriedMandate(s: Tables, r: TickResult, c: CaseRecord, cu: CustomerRecord, d: Decision, o: Answers, now: int)
    requires cu.key == c.customerId && d.action == Action.RetryMandate && c.nextEligibleAt == None
    modifies s`audit, s`log, c, r, cu
    ensures Leaves(s, r, c, cu, Intervene(old(c.Row()), old(cu.Row()), d, o, now), now)
  {
    var ok := RetryMandate(s, c, cu, o.charge, now);
    RecordDelivery(c, cu, r, ok, Charging, now);
    s.log := s.log + [Attempt(c.id, c.customerId, Charging, now, ok)];
  }

  method SentLink(s: Tables, r: TickResult, c: CaseRecord, cu: CustomerRecord, d: Decision, o: Answers, now: int)
    requires cu.key == c.customerId && d.action == Action.SendLink && c.nextEligibleAt == None
    modifies s`audit, s`log, c, r, cu
    ensures Leaves(s, r, c, cu, Intervene(old(c.Row()), old(cu.Row()), d, o, now), now)
  {
    s.log := s.log + [Attempt(c.id, c.customerId, Linking, now,
                              RecoveryLink(Begun(c.Row(), now), o.link).note.Some?)];
    var ok, made := SendLink(s, c, o.link, now);
    RecordDelivery(c, cu, r, ok, Linking, now);
  }

  method PlacedCall(s: Tables, r: TickResult, c: CaseRecord, cu: CustomerRecord, d: Decision, o: Answers, now: int)
    requires cu.key == c.customerId && d.action == Action.PlaceCall && c.nextEligibleAt == None
    modifies s`audit, s`log, c, r, cu
    ensures Leaves(s, r, c, cu, Intervene(old(c.Row()), old(cu.Row()), d, o, now), now)
  {
    var ok := Contact(s, c, o.callPlaced, now);
    RecordDelivery(c, cu, r, ok, Calling, now);
    s.log := s.log + [Attempt(c.id, c.customerId, Calling, now, ok)];
  }

  /** The three interventions and the record of their delivery. */
  method Intervened(s: Tables, r: TickResult, c: CaseRecord, cu: CustomerRecord, d: Decision, o: Answers, now: int)
    requires cu.key == c.customerId && Policy.Acts(d) && c.nextEligibleAt == None
    modifies s`audit, s`log, c, r, cu
    ensures var w := Intervene(old(c.Row()), old(cu.Row()), d, o, now);
            Leaves(s, r, c, cu, w, now) && w.notes[0] == PolicyDecision(d)
  {
    match d.action {
      case RetryMandate => RetriedMandate(s, r, c, cu, d, o, now);
      case SendLink => SentLink(s, r, c, cu, d, o, now);
      case PlaceCall => PlacedCall(s, r, c, cu, d, o, now);
    }
  }

  // ------------------------------------------------------------------ the tick

  /** `FOR UPDATE SKIP LOCKED ... LIMIT`: `order` lists the case ids by score and age,
      `locked` are the rows other workers hold. */
  method ClaimActionableCases(s: Tables, order: seq<nat>, locked: set<nat>, limit: nat, now: int)
      returns (batch: seq<nat>)
    requires s.Valid()
    ensures batch == Claimed(s.Snap().cases, order, locked, limit, now)
  {
    batch := [];
    for n := 0 to |order|
      invariant batch == Claimed(s.Snap().cases, order[..n], locked, limit, now)
    {
      var i := order[n];
      assert order[..n + 1][..n] == order[..n];
      if |batch| < limit && i !in locked && i in s.cases {
        var c := s.cases[i];
        assert s.Snap().cases[i] == c.Row();
        if c.status.Active() && (c.nextEligibleAt.None? || c.nextEligibleAt.value <= now) {
          batch := batch + [i];
        }
      }
    }
    assert order[..|order|] == order;
  }

  /** One claimed case, worked against the tables. */
  method WorkClaimed(s: Tables, r: TickResult, i: nat, o: Answers, now: int, w: World)
    requires s.Valid() && i in s.cases
    modifies s`audit, s`log, s.Records(), r
    ensures s.Valid() && s.cases == old(s.cases) && s.customers == old(s.customers)
    ensures s.Snap() == Turned(old(s.Snap()), i, o, now, w.st)
    ensures r.Counts() == Counted(old(r.Counts()), EffectOf(old(s.Snap()), i, o, now, w),
                                  old(s.Snap()).cases[i].customerId)
  {
    var c := s.cases[i];
    var cu := s.CustomerFor(c);
    WorkRecord(s, r, c, cu, o, now, w.st);
    s.OneCaseMoved(i, cu);
  }

  ghost function TurnOf(db: Db, i: nat, o: Answers, now: int, st: Settings): Worked
    requires i in db.cases
  {
    Work(db.cases[i], CustomerOf(db.customers, db.cases[i]), o, now, st)
  }

  /** The database after a turn, spelt out. */
  ghost function Turned(db: Db, i: nat, o: Answers, now: int, st: Settings): Db
    requires i in db.cases
  {
    var w := TurnOf(db, i, o, now, st);
    var k := db.cases[i].customerId;
    PutRows(db, i, w.row, k, w.customer, db.calls, db.audit + Rows(i, w.notes), db.log + TurnEntries(i, k, w, now))
  }

  lemma TurnedIsTheMove(db: Db, i: nat, o: Answers, now: int, w: World)
    requires Legal(db, Turn(i, o, now), w)
    ensures Apply(db, Turn(i, o, now), w) == Turned(db, i, o, now, w.st)
  {
  }

  /** The loop over the claimed cases. */
  method WorkBatch(s: Tables, r: TickResult, batch: seq<nat>, oracle: nat -> Answers, now: int, w: World, ghost db: Db)
    requires s.Valid() && s.Snap() == db && Distinct(batch) && r.Counts() == NOTHING
    requires forall i | i in batch :: i in db.cases && Claimable(db.cases[i], now)
    modifies s`audit, s`log, s.Records(), r
    ensures s.Valid() && s.cases == old(s.cases) && s.customers == old(s.customers)
    ensures s.Snap() == Run(db, Turns(batch, oracle, now), w)
    ensures r.Counts() == Ticked(db, batch, oracle, now, w)
  {
    for n := 0 to |batch|
      invariant s.Valid() && s.cases == old(s.cases) && s.customers == old(s.customers)
      invariant s.Snap() == Run(db, Turns(batch[..n], oracle, now), w)
      invariant r.Counts() == Ticked(db, batch[..n], oracle, now, w)
    {
      var i := batch[n];
      TickOneMore(db, batch, oracle, now, w, n);
      WorkClaimed(s, r, i, oracle(i), now, w);
    }
    assert batch[..|batch|] == batch;
  }

  lemma ClaimedReport(db: Db, order: seq<nat>, locked: set<nat>, limit: nat, oracle: nat -> Answers, now: int, w: World)
    requires Distinct(order)
    ensures var batch := Claimed(db.cases, order, locked, limit, now);
            && Distinct(batch) && (forall i | i in batch :: i in db.cases && Claimable(db.cases[i], now))
            && Reports.Reported(Ticked(db, batch, oracle, now, w), db, Run(db, Turns(batch, oracle, now), w))
  {
    ClaimedIsTheFront(db.cases, order, locked, limit, now);
    Reports.TicksReportWhatTheyDid(db, Claimed(db.cases, order, locked, limit, now), oracle, now, w);
  }

  /** `run_once`. One tick leaves the tables as the run of its turns does, with every
      turn legal, and counts what that run amounts to: each counter is the number of the
      entries or rows of its kind that the tick left behind. */
  method RunOnce(s: Tables, order: seq<nat>, locked: set<nat>, limit: nat, oracle: nat -> Answers, now: int, w: World)
    returns (r: TickResult)
    requires s.Valid() && Distinct(order)
    modifies s`audit, s`log, s.Records()
    ensures s.Valid() && s.cases == old(s.cases) && s.customers == old(s.customers) && fresh(r)
    ensures var batch := Claimed(old(s.Snap()).cases, order, locked, limit, now);
            && s.Snap() == Run(old(s.Snap()), Turns(batch, oracle, now), w)
            && r.Counts() == Ticked(old(s.Snap()), batch, oracle, now, w)
    ensures Reports.Reported(r.Counts(), old(s.Snap()), s.Snap())
  {
    ghost var db := s.Snap();
    var batch := ClaimActionableCases(s, order, locked, limit, now);
    ClaimedReport(db, order, locked, limit, oracle, now, w);
    r := new TickResult();
    WorkBatch(s, r, batch, oracle, now, w, db);
  }

  lemma TickOneMore(db: Db, ids: seq<nat>, oracle: nat -> Answers, now: int, w: World, n: nat)
    requires Distinct(ids) && n < |ids|
    requires forall i | i in ids :: i in db.cases && Claimable(db.cases[i], now)
    ensures var mid := Run(db, Turns(ids[..n], oracle, now), w);
            && ids[n] in mid.cases
            && Run(db, Turns(ids[..n + 1], oracle, now), w) == Turned(mid, ids[n], oracle(ids[n]), now, w.st)
            && Ticked(db, ids[..n + 1], oracle, now, w) ==
               Counted(Ticked(db, ids[..n], oracle, now, w), EffectOf(mid, ids[n], oracle(ids[n]), now, w),
                       mid.cases[ids[n]].customerId)
  {
    EveryTurnIsLegal(db, ids, oracle, now, w, n);
    TurnsOneMore(db, ids, oracle, now, w, n);
    TurnedIsTheMove(Run(db, Turns(ids[..n], oracle, now), w), ids[n], oracle(ids[n]), now, w);
  }

  lemma TurnsOneMore(db: Db, ids: seq<nat>, oracle: nat -> Answers, now: int, w: World, n: nat)
    requires n < |ids|
    requires ids[n] in Run(db, Turns(ids[..n], oracle, now), w).cases
    ensures var mid := Run(db, Turns(ids[..n], oracle, now), w);
            && Run(db, Turns(ids[..n + 1], oracle, now), w) == Apply(mid, Turn(ids[n], oracle(ids[n]), now), w)
            && Ticked(db, ids[..n + 1], oracle, now, w) ==
               Counted(Ticked(db, ids[..n], oracle, now, w), EffectOf(mid, ids[n], oracle(ids[n]), now, w),
                       mid.cases[ids[n]].customerId)
  {
    assert ids[..n + 1][..n] == ids[..n];
    assert Turns(ids[..n + 1], oracle, now) == Turns(ids[..n], oracle, now) + [Turn(ids[n], oracle(ids[n]), now)];
    RunOneMore(db, Turns(ids[..n], oracle, now), Turn(ids[n], oracle(ids[n]), now), w);
  }
}

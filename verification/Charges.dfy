/** Mandate charges over a case's life: when one is taken, when a second one is, and
    where charges that fail end. */
module Charges {
  import opened Domain
  import opened CaseWork
  import opened Lifecycle
  import opened Ledger
  import Policy

  // ------------------------------------------------------- one charge per case

  /** A machine verdict comes once per placed call. */
  predicate VerdictsWithinCalls(log: seq<Entry>, i: nat) {
    Count(log, i, Verdicts) <= Count(log, i, DeliveriesBy(Calling))
  }

  /** While that holds, a mandate charge goes through on an untouched case only:
      no charge and no link was delivered before it. */
  lemma ChargesComeFirst(db: Db, m: Move, w: World, i: nat)
    requires Books(db, w.st) && VerdictsWithinCalls(db.log, i)
    requires Added(db, m, w, i, AttemptsBy(Charging)) > 0
    ensures Count(db.log, i, DeliveriesBy(Charging)) == 0 && Count(db.log, i, DeliveriesBy(Linking)) == 0
    ensures Added(db, m, w, i, DeliveriesBy(Charging)) <= 1
  {
    ChargesAreTurns(db, m, w, i);
    DeliveriesByKind(db.log, i);
    var c := db.cases[i];
    AttemptMeans(c, CustomerOf(db.customers, c), m.answers, m.now, w.st);
  }

  lemma ChargesAreTurns(db: Db, m: Move, w: World, i: nat)
    requires Added(db, m, w, i, AttemptsBy(Charging)) > 0
    ensures Legal(db, m, w) && m.Turn? && m.caseId == i
    ensures var c := db.cases[i];
            var t := Work(c, CustomerOf(db.customers, c), m.answers, m.now, w.st);
            t.effect.Attempted() && t.effect.kind.Charging?
    ensures Added(db, m, w, i, DeliveriesBy(Charging)) <= 1
  {
    if !m.Turn? {
      OnlyTurnsAttempt(db, m, w, i, AttemptsBy(Charging));
      CountAfter(db, m, w, i, AttemptsBy(Charging));
      assert false;
    }
    var es := ChangeOf(db, m, w).entries;
    if m.caseId != i {
      NothingCountedOfStrangers(es, i, AttemptsBy(Charging));
    }
    CountTwo(es[0], NewLink(i), i, AttemptsBy(Charging));
    CountTwo(es[0], NewLink(i), i, DeliveriesBy(Charging));
  }

  /** At most one mandate charge succeeds per case, over every run in which each
      placed call is judged a machine at most once. */
  lemma {:induction false} OneChargePerCase(ms: seq<Move>, w: World, i: nat)
    requires forall k | 0 <= k <= |ms| :: VerdictsWithinCalls(Run(EMPTY, ms[..k], w).log, i)
    ensures Count(Run(EMPTY, ms, w).log, i, DeliveriesBy(Charging)) <= 1
    decreases |ms|
  {
    if ms != [] {
      var before, m := ms[..|ms| - 1], ms[|ms| - 1];
      var mid := Run(EMPTY, before, w);
      forall k | 0 <= k <= |before| ensures VerdictsWithinCalls(Run(EMPTY, before[..k], w).log, i) {
        assert before[..k] == ms[..k];
      }
      OneChargePerCase(before, w, i);
      BooksBalance(EMPTY, before, w);
      CountAfter(mid, m, w, i, DeliveriesBy(Charging));
      assert before[..|before|] == before;
      AddedKindsAreAttempts(mid, m, w, i);
      if Added(mid, m, w, i, AttemptsBy(Charging)) > 0 {
        ChargesComeFirst(mid, m, w, i);
      }
    }
  }

  function MachineVerdicts(sid: string, n: nat): seq<Move> {
    if n == 0 then [] else MachineVerdicts(sid, n - 1) + [JudgeMachine(sid, true)]
  }

  /** `d` is `db` after n machine verdicts on one call, as far as its case goes. */
  predicate Refunded(db: Db, d: Db, sid: string, n: nat)
    requires sid in db.calls && db.calls[sid].caseId in db.cases
  {
    var i := db.calls[sid].caseId;
    && sid in d.calls && d.calls[sid].caseId == i && i in d.cases
    && d.cases[i] == db.cases[i].(attemptCount := Max(db.cases[i].attemptCount - n, 0))
    && Count(d.log, i, Refunds) == Count(db.log, i, Refunds) + Min(n, db.cases[i].attemptCount)
  }

  lemma NoVerdict(db: Db, sid: string, w: World)
    requires sid in db.calls && db.calls[sid].caseId in db.cases && db.cases[db.calls[sid].caseId].attemptCount >= 0
    ensures Refunded(db, Run(db, MachineVerdicts(sid, 0), w), sid, 0)
  {
  }

  lemma OneVerdictRefunds(db: Db, d: Db, sid: string, n: nat, w: World)
    requires sid in db.calls && db.calls[sid].caseId in db.cases && db.cases[db.calls[sid].caseId].attemptCount >= 0
    requires Refunded(db, d, sid, n)
    ensures Refunded(db, Apply(d, JudgeMachine(sid, true), w), sid, n + 1)
  {
    var i := db.calls[sid].caseId;
    var e := VerdictChange(d, sid, true).entries[0];
    CountAfter(d, JudgeMachine(sid, true), w, i, Refunds);
    CountTwo(e, e, i, Refunds);
  }

  lemma VerdictsOneMore(db: Db, sid: string, n: nat, w: World)
    requires n > 0
    ensures Run(db, MachineVerdicts(sid, n), w) ==
            Apply(Run(db, MachineVerdicts(sid, n - 1), w), JudgeMachine(sid, true), w)
  {
    RunOneMore(db, MachineVerdicts(sid, n - 1), JudgeMachine(sid, true), w);
  }

  /** Each of n machine verdicts on one call gives an attempt back, down to none, so
      without that condition a case can be charged again: OneCaseIsChargedTwice, and
      exactly when, ChargedTwiceExactlyIfRedelivered. */
  lemma {:induction false} EachVerdictRefundsAgain(db: Db, sid: string, n: nat, w: World)
    requires sid in db.calls && db.calls[sid].caseId in db.cases && db.cases[db.calls[sid].caseId].attemptCount >= 0
    ensures Refunded(db, Run(db, MachineVerdicts(sid, n), w), sid, n)
    decreases n
  {
    if n == 0 {
      NoVerdict(db, sid, w);
    } else {
      var d := Run(db, MachineVerdicts(sid, n - 1), w);
      VerdictsOneMore(db, sid, n, w);
      EachVerdictRefundsAgain(db, sid, n - 1, w);
      OneVerdictRefunds(db, d, sid, n - 1, w);
    }
  }

  lemma {:induction false} DeliveredChargesAreAttempts(log: seq<Entry>, i: nat)
    ensures Count(log, i, DeliveriesBy(Charging)) <= Count(log, i, AttemptsBy(Charging)) <= Count(log, i, Attempts)
    decreases |log|
  {
    if log != [] { DeliveredChargesAreAttempts(log[..|log| - 1], i); }
  }

  lemma AddedKindsAreAttempts(db: Db, m: Move, w: World, i: nat)
    ensures Added(db, m, w, i, DeliveriesBy(Charging)) <= Added(db, m, w, i, AttemptsBy(Charging))
  {
    if Legal(db, m, w) && ChangeOf(db, m, w).Change? {
      DeliveredChargesAreAttempts(ChangeOf(db, m, w).entries, i);
    }
  }

  // ------------------------------------------------- when a second charge is taken

  /** What the turn `m` would come to on its case in `db`. */
  function TurnOf(db: Db, m: Move, w: World): Worked
    requires m.Turn? && m.caseId in db.cases
  {
    Work(db.cases[m.caseId], CustomerOf(db.customers, db.cases[m.caseId]), m.answers, m.now, w.st)
  }

  lemma AttemptsChargeIfUnspent(db: Db, m: Move, w: World)
    requires m.Turn? && Legal(db, m, w) && Balanced(db.cases[m.caseId], db.log, m.caseId, w.st)
    requires TurnOf(db, m, w).effect.Attempted()
    ensures TurnOf(db, m, w).effect.kind.Charging? <==>
              && w.st.mandateRetryEnabled && db.cases[m.caseId].cause.CustomerFunds?
              && Count(db.log, m.caseId, Deliveries) == Count(db.log, m.caseId, Refunds)
  {
    var c := db.cases[m.caseId];
    var cu := CustomerOf(db.customers, c);
    AttemptMeans(c, cu, m.answers, m.now, w.st);
    if w.st.mandateRetryEnabled && c.cause.CustomerFunds? {
      Policy.LinkFallbackNeedsASpentAttempt(c, cu, m.now, w.st);
    }
  }

  /** On every run, what is attempted is a charge exactly if mandates are retried, the
      money was missing, and everything delivered on the case so far was refunded. */
  lemma ChargedExactlyIfNothingIsSpent(ms: seq<Move>, m: Move, w: World)
    requires var db := Run(EMPTY, ms, w);
             m.Turn? && Legal(db, m, w) && TurnOf(db, m, w).effect.Attempted()
    ensures var db := Run(EMPTY, ms, w);
            TurnOf(db, m, w).effect.kind.Charging? <==>
              && w.st.mandateRetryEnabled && db.cases[m.caseId].cause.CustomerFunds?
              && Count(db.log, m.caseId, Deliveries) == Count(db.log, m.caseId, Refunds)
  {
    BooksBalance(EMPTY, ms, w);
    AttemptsChargeIfUnspent(Run(EMPTY, ms, w), m, w);
  }

  /** The move delivers something on the case. */
  predicate DeliversOn(db: Db, m: Move, w: World, i: nat) {
    m.Turn? && m.caseId == i && Legal(db, m, w) && TurnOf(db, m, w).effect.Delivered?
  }

  predicate AllRefunded(log: seq<Entry>, i: nat) { Count(log, i, Deliveries) == Count(log, i, Refunds) }

  lemma TurnCounts(db: Db, m: Move, w: World, what: What)
    requires m.Turn? && Legal(db, m, w) && !what.NewLinks?
    ensures var t := TurnOf(db, m, w);
            Count(Apply(db, m, w).log, m.caseId, what) == Count(db.log, m.caseId, what) +
              if t.effect.Attempted()
                 && Is(Attempt(m.caseId, db.cases[m.caseId].customerId, t.effect.kind, m.now, t.effect.Delivered?),
                       m.caseId, what)
              then 1 else 0
  {
    var i, t := m.caseId, TurnOf(db, m, w);
    CountAfter(db, m, w, i, what);
    var tried := if t.effect.Attempted() then
                   Attempt(i, db.cases[i].customerId, t.effect.kind, m.now, t.effect.Delivered?)
                 else NewLink(i);
    CountTwo(tried, NewLink(i), i, what);
    assert [tried] + [NewLink(i)] == [tried, NewLink(i)];
    assert [tried] + [] == [tried];
  }

  /** Deliveries and charges after one move. */
  lemma OneMoveDelivers(db: Db, m: Move, w: World, i: nat)
    requires i in db.cases && Balanced(db.cases[i], db.log, i, w.st)
    requires w.st.mandateRetryEnabled && db.cases[i].cause.CustomerFunds?
    ensures var more := if DeliversOn(db, m, w, i) then 1 else 0;
            var log := Apply(db, m, w).log;
            && (DeliversOn(db, m, w, i) && Count(db.log, i, Deliveries) == 0 ==> AllRefunded(db.log, i))
            && Count(log, i, Deliveries) == Count(db.log, i, Deliveries) + more
            && Count(log, i, DeliveriesBy(Charging)) ==
               Count(db.log, i, DeliveriesBy(Charging)) + if AllRefunded(db.log, i) then more else 0
  {
    if m.Turn? && Legal(db, m, w) && m.caseId == i {
      TurnCounts(db, m, w, Deliveries);
      TurnCounts(db, m, w, DeliveriesBy(Charging));
      if TurnOf(db, m, w).effect.Attempted() { AttemptsChargeIfUnspent(db, m, w); }
    } else if m.Turn? {
      OthersUncounted(db, m, w, i, Deliveries);
      OthersUncounted(db, m, w, i, DeliveriesBy(Charging));
    } else {
      OnlyTurnsAttempt(db, m, w, i, Deliveries);
      OnlyTurnsAttempt(db, m, w, i, DeliveriesBy(Charging));
    }
  }

  /** Something was delivered on the case, all of it was refunded, and then something is
      delivered again. */
  ghost predicate Redelivered(ms: seq<Move>, w: World, i: nat, k: nat) {
    && k < |ms|
    && var db := Run(EMPTY, ms[..k], w);
       DeliversOn(db, ms[k], w, i) && Count(db.log, i, Deliveries) > 0 && AllRefunded(db.log, i)
  }

  lemma RedeliveredBefore(ms: seq<Move>, w: World, i: nat)
    requires ms != []
    ensures var before := ms[..|ms| - 1];
            (exists k: nat :: Redelivered(ms, w, i, k)) <==>
              (exists k: nat :: Redelivered(before, w, i, k)) || Redelivered(ms, w, i, |ms| - 1)
  {
    var before := ms[..|ms| - 1];
    forall k: nat | k < |before| ensures Redelivered(ms, w, i, k) <==> Redelivered(before, w, i, k) {
      assert before[..k] == ms[..k];
    }
  }

  /** A case is charged where mandates are retried and the money was missing, or never. */
  lemma {:induction false} NobodyElseIsCharged(ms: seq<Move>, w: World, i: nat)
    requires i in Run(EMPTY, ms, w).cases
    requires !(w.st.mandateRetryEnabled && Run(EMPTY, ms, w).cases[i].cause.CustomerFunds?)
    ensures Count(Run(EMPTY, ms, w).log, i, AttemptsBy(Charging)) == 0
    decreases |ms|
  {
    if ms != [] {
      var mid, m := Run(EMPTY, ms[..|ms| - 1], w), ms[|ms| - 1];
      BooksBalance(EMPTY, ms[..|ms| - 1], w);
      CountAfter(mid, m, w, i, AttemptsBy(Charging));
      if i in mid.cases {
        EveryMove(mid, m, w, i);
        NobodyElseIsCharged(ms[..|ms| - 1], w, i);
      } else {
        NothingCountedOfStrangers(mid.log, i, AttemptsBy(Charging));
      }
      if Added(mid, m, w, i, AttemptsBy(Charging)) > 0 {
        ChargesAreTurns(mid, m, w, i);
        AttemptsChargeIfUnspent(mid, m, w);
      }
    }
  }

  lemma {:induction false} UnknownIsUndelivered(ms: seq<Move>, w: World, i: nat)
    requires i !in Run(EMPTY, ms, w).cases
    ensures !exists k: nat :: Redelivered(ms, w, i, k)
    decreases |ms|
  {
    if ms != [] {
      var mid := Run(EMPTY, ms[..|ms| - 1], w);
      if i in mid.cases { EveryMove(mid, ms[|ms| - 1], w, i); }
      UnknownIsUndelivered(ms[..|ms| - 1], w, i);
      RedeliveredBefore(ms, w, i);
    }
  }

  /** Over every run a funds case under mandate retry is charged first, and a second
      time exactly if something is delivered on it after all that had been delivered
      before was refunded. */
  lemma {:induction false} ChargedTwiceExactlyIfRedelivered(ms: seq<Move>, w: World, i: nat)
    requires w.st.mandateRetryEnabled
    requires i in Run(EMPTY, ms, w).cases && Run(EMPTY, ms, w).cases[i].cause.CustomerFunds?
    ensures var log := Run(EMPTY, ms, w).log;
            && (Count(log, i, Deliveries) > 0 <==> Count(log, i, DeliveriesBy(Charging)) > 0)
            && (Count(log, i, DeliveriesBy(Charging)) >= 2 <==> exists k: nat :: Redelivered(ms, w, i, k))
    decreases |ms|
  {
    if ms != [] {
      var before, m := ms[..|ms| - 1], ms[|ms| - 1];
      var mid := Run(EMPTY, before, w);
      BooksBalance(EMPTY, before, w);
      RedeliveredBefore(ms, w, i);
      if i in mid.cases {
        EveryMove(mid, m, w, i);
        ChargedTwiceExactlyIfRedelivered(before, w, i);
        OneMoveDelivers(mid, m, w, i);
      } else {
        UnknownIsUndelivered(before, w, i);
        NothingCountedOfStrangers(mid.log, i, Deliveries);
        NothingCountedOfStrangers(mid.log, i, DeliveriesBy(Charging));
        if !m.Turn? {
          OnlyTurnsAttempt(mid, m, w, i, Deliveries);
          OnlyTurnsAttempt(mid, m, w, i, DeliveriesBy(Charging));
        }
      }
    }
  }

  // ----------------------------------------------- two charges on one case, a run

  const RETRYING: World :=
    World(Settings(0, 1, 1, 0, 0, 24, 0, 5, true, 48, 30), _ => Invoice("", ""))

  const PAYER: Customer := Customer("+91", "a@b", false, false, None)

  const SHORT_OF_FUNDS: Case :=
    Case("pay", "", "", "cust", "", 49900, CustomerFunds, Source.Razorpay, Some(0), 3,
         Open, 0, 0, None, None, None, None, None, None)

  const EVERYTHING_WORKS: Answers :=
    Answers(false, LinkRefused, ChargeAnswer(Some([Token("token", true, None, None, None, 0)]), true, true), true)

  /** Case 1 is worked, its counter at `n`, last touched at `at`, charged `charges` times. */
  predicate Stands(db: Db, n: nat, at: int, charges: nat) {
    && 1 in db.cases
    && db.cases[1] == Touched(n, at)
    && "cust" in db.customers && db.customers["cust"] == PAYER.(lastContactedAt := Some(at))
    && Count(db.log, 1, DeliveriesBy(Charging)) == charges
  }

  function Touched(n: nat, at: int): Case {
    SHORT_OF_FUNDS.(status := InProgress, attemptCount := n, lastAttemptAt := Some(at))
  }

  lemma TokenIsChargeable(epoch: int)
    ensures SomeChargeable(EVERYTHING_WORKS.charge.tokens.value, 49900, epoch)
  {
    var t := Token("token", true, None, None, None, 0);
    assert t in EVERYTHING_WORKS.charge.tokens.value && Chargeable(t, 49900, epoch);
  }

  lemma FirstTurn()
    ensures Work(SHORT_OF_FUNDS, Some(PAYER), EVERYTHING_WORKS, 0, RETRYING.st) ==
            Worked(Touched(1, 0), Some(PAYER.(lastContactedAt := Some(0))),
                   Work(SHORT_OF_FUNDS, Some(PAYER), EVERYTHING_WORKS, 0, RETRYING.st).notes, Delivered(Charging),
                   false)
  {
    TokenIsChargeable(0);
  }

  lemma NextTurn(n: nat, at: int)
    requires n < 3
    ensures var cu := PAYER.(lastContactedAt := Some(at));
            var t := Work(Touched(n, at), Some(cu), EVERYTHING_WORKS, at + HOUR, RETRYING.st);
            t == Worked(Touched(n + 1, at + HOUR), Some(PAYER.(lastContactedAt := Some(at + HOUR))), t.notes,
                        Delivered(if n == 0 then Charging else Calling), false)
  {
    TokenIsChargeable(at + HOUR);
  }

  /** The run goes on by one move. */
  lemma Further(ms: seq<Move>, m: Move) returns (more: seq<Move>)
    ensures Run(EMPTY, more, RETRYING) == Apply(Run(EMPTY, ms, RETRYING), m, RETRYING)
  {
    RunOneMore(EMPTY, ms, m, RETRYING);
    more := ms + [m];
  }

  lemma Opened() returns (ms: seq<Move>)
    ensures var db := Run(EMPTY, ms, RETRYING);
            && 1 in db.cases && db.cases[1] == SHORT_OF_FUNDS && "cust" in db.customers && db.customers["cust"] == PAYER
            && db.log == [] && db.calls == map[]
  {
    ms := Further([], PutCustomer("cust", "+91", "a@b"));
    ms := Further(ms, OpenCase(1, SHORT_OF_FUNDS, CaseOpened));
  }

  lemma FirstCharge() returns (ms: seq<Move>)
    ensures Stands(Run(EMPTY, ms, RETRYING), 1, 0, 1) && Run(EMPTY, ms, RETRYING).calls == map[]
  {
    ms := Opened();
    var db, turn := Run(EMPTY, ms, RETRYING), Turn(1, EVERYTHING_WORKS, 0);
    FirstTurn();
    TurnCounts(db, turn, RETRYING, DeliveriesBy(Charging));
    ms := Further(ms, turn);
  }

  /** An hour later the case is called, or, if its counter is at 0, charged. */
  lemma AnHourLater(ms: seq<Move>, n: nat, at: int, charges: nat) returns (more: seq<Move>)
    requires Stands(Run(EMPTY, ms, RETRYING), n, at, charges) && n < 3
    ensures Stands(Run(EMPTY, more, RETRYING), n + 1, at + HOUR, charges + if n == 0 then 1 else 0)
    ensures Run(EMPTY, more, RETRYING).calls == Run(EMPTY, ms, RETRYING).calls
  {
    var turn := Turn(1, EVERYTHING_WORKS, at + HOUR);
    NextTurn(n, at);
    TurnCounts(Run(EMPTY, ms, RETRYING), turn, RETRYING, DeliveriesBy(Charging));
    more := Further(ms, turn);
  }

  predicate CallStored(db: Db) { "call" in db.calls && db.calls["call"].caseId == 1 }

  lemma CallOpens(ms: seq<Move>, n: nat, at: int, charges: nat) returns (more: seq<Move>)
    requires Stands(Run(EMPTY, ms, RETRYING), n, at, charges) && Run(EMPTY, ms, RETRYING).calls == map[]
    ensures Stands(Run(EMPTY, more, RETRYING), n, at, charges) && CallStored(Run(EMPTY, more, RETRYING))
  {
    OnlyTurnsAttempt(Run(EMPTY, ms, RETRYING), OpenCall("call", 1), RETRYING, 1, DeliveriesBy(Charging));
    more := Further(ms, OpenCall("call", 1));
  }

  lemma ByMachine(ms: seq<Move>, n: nat, at: int, charges: nat) returns (more: seq<Move>)
    requires Stands(Run(EMPTY, ms, RETRYING), n, at, charges) && n > 0 && CallStored(Run(EMPTY, ms, RETRYING))
    ensures Stands(Run(EMPTY, more, RETRYING), n - 1, at, charges) && CallStored(Run(EMPTY, more, RETRYING))
  {
    OnlyTurnsAttempt(Run(EMPTY, ms, RETRYING), JudgeMachine("call", true), RETRYING, 1, DeliveriesBy(Charging));
    more := Further(ms, JudgeMachine("call", true));
  }

  /** A charge, a call, two machine verdicts on that call, and the same debt is charged
      again: at most one charge per case does not hold of every run. */
  lemma OneCaseIsChargedTwice()
    ensures exists ms :: Count(Run(EMPTY, ms, RETRYING).log, 1, DeliveriesBy(Charging)) == 2
  {
    var ms := FirstCharge();
    ms := AnHourLater(ms, 1, 0, 1);
    ms := CallOpens(ms, 2, HOUR, 1);
    ms := ByMachine(ms, 2, HOUR, 1);
    ms := ByMachine(ms, 1, HOUR, 1);
    ms := AnHourLater(ms, 0, HOUR, 1);
  }

  // ------------------------------------------------- a mandate that never pays

  predicate AuditKnown(db: Db) {
    forall k | 0 <= k < |db.audit| :: db.audit[k].caseId in db.cases
  }

  /** A case whose charges were all refused so far: every attempt on it was a
      charge, none has been spent, and it was given up as undeliverable only after
      max_delivery_failures of them. */
  predicate OnlyRefusals(c: Case, db: Db, i: nat, st: Settings) {
    && Count(db.log, i, Deliveries) == 0
    && Count(db.log, i, Attempts) == Count(db.log, i, AttemptsBy(Charging)) <= st.maxDeliveryFailures
    && (c.status.Active() ==> c.attemptCount == 0 && c.deliveryFailures == Count(db.log, i, Attempts))
    && (AuditRow(i, StoppedByPolicy(Undeliverable)) in db.audit ==>
          !c.status.Active() && Count(db.log, i, Attempts) == st.maxDeliveryFailures)
  }

  /** A funds case whose counter stands at 0 is attempted by a charge. */
  lemma UnspentMeansCharging(c: Case, cu: Option<Customer>, o: Answers, now: int, st: Settings)
    requires st.mandateRetryEnabled && c.cause.CustomerFunds? && c.attemptCount == 0
    requires Work(c, cu, o, now, st).effect.Attempted()
    ensures var w := Work(c, cu, o, now, st);
            w.effect.kind.Charging? && !w.linkMade && forall k | 0 <= k < |w.notes| :: !w.notes[k].StoppedByPolicy?
  {
    AttemptMeans(c, cu, o, now, st);
    Policy.LinkFallbackNeedsASpentAttempt(c, cu, now, st);
  }

  lemma RefusedAttempt(db: Db, m: Move, w: World)
    requires m.Turn? && Legal(db, m, w) && w.st.mandateRetryEnabled && db.cases[m.caseId].cause.CustomerFunds?
    requires OnlyRefusals(db.cases[m.caseId], db, m.caseId, w.st)
    requires Count(Apply(db, m, w).log, m.caseId, DeliveriesBy(Charging)) == 0
    requires var c := db.cases[m.caseId];
             Work(c, CustomerOf(db.customers, c), m.answers, m.now, w.st).effect.Attempted()
    ensures OnlyRefusals(Apply(db, m, w).cases[m.caseId], Apply(db, m, w), m.caseId, w.st)
  {
    var c := db.cases[m.caseId];
    var cu := CustomerOf(db.customers, c);
    AttemptMeans(c, cu, m.answers, m.now, w.st);
    UnspentMeansCharging(c, cu, m.answers, m.now, w.st);
    RefusedAttemptCounts(db, m, w);
  }

  lemma TurnWithoutAttempt(db: Db, m: Move, w: World)
    requires m.Turn? && Legal(db, m, w)
    requires OnlyRefusals(db.cases[m.caseId], db, m.caseId, w.st)
    requires var c := db.cases[m.caseId];
             !Work(c, CustomerOf(db.customers, c), m.answers, m.now, w.st).effect.Attempted()
    ensures OnlyRefusals(Apply(db, m, w).cases[m.caseId], Apply(db, m, w), m.caseId, w.st)
  {
    var c := db.cases[m.caseId];
    OtherwiseNothingMoves(c, CustomerOf(db.customers, c), m.answers, m.now, w.st);
    assert db.log + [] == db.log;
    assert Apply(db, m, w).log == db.log;
  }

  lemma RefusedTurn(db: Db, m: Move, w: World)
    requires m.Turn? && Legal(db, m, w) && w.st.mandateRetryEnabled && db.cases[m.caseId].cause.CustomerFunds?
    requires OnlyRefusals(db.cases[m.caseId], db, m.caseId, w.st)
    requires Count(Apply(db, m, w).log, m.caseId, DeliveriesBy(Charging)) == 0
    ensures OnlyRefusals(Apply(db, m, w).cases[m.caseId], Apply(db, m, w), m.caseId, w.st)
  {
    var c := db.cases[m.caseId];
    if Work(c, CustomerOf(db.customers, c), m.answers, m.now, w.st).effect.Attempted() {
      RefusedAttempt(db, m, w);
    } else {
      TurnWithoutAttempt(db, m, w);
    }
  }

  /** An attempted charge that did not succeed is one more attempt and no delivery. */
  lemma RefusedAttemptCounts(db: Db, m: Move, w: World)
    requires m.Turn? && Legal(db, m, w)
    requires var c := db.cases[m.caseId];
             var t := Work(c, CustomerOf(db.customers, c), m.answers, m.now, w.st);
             TurnChange(db, m.caseId, m.answers, m.now, w.st).entries ==
             [Attempt(m.caseId, c.customerId, Charging, m.now, t.effect.Delivered?)]
    requires Count(Apply(db, m, w).log, m.caseId, DeliveriesBy(Charging)) == 0
    ensures var i, log := m.caseId, Apply(db, m, w).log;
            && TurnChange(db, i, m.answers, m.now, w.st).entries[0].delivered == false
            && Count(log, i, Deliveries) == Count(db.log, i, Deliveries)
            && Count(log, i, Attempts) == Count(db.log, i, Attempts) + 1
            && Count(log, i, AttemptsBy(Charging)) == Count(db.log, i, AttemptsBy(Charging)) + 1
  {
    var i := m.caseId;
    var e := TurnChange(db, i, m.answers, m.now, w.st).entries[0];
    CountAfter(db, m, w, i, Deliveries);
    CountAfter(db, m, w, i, Attempts);
    CountAfter(db, m, w, i, AttemptsBy(Charging));
    CountAfter(db, m, w, i, DeliveriesBy(Charging));
    CountTwo(e, e, i, Deliveries);
    CountTwo(e, e, i, Attempts);
    CountTwo(e, e, i, AttemptsBy(Charging));
    CountTwo(e, e, i, DeliveriesBy(Charging));
  }

  lemma MoveKeepsRefusals(db: Db, m: Move, w: World, i: nat)
    requires Books(db, w.st) && AuditKnown(db) && w.st.mandateRetryEnabled
    requires i in Apply(db, m, w).cases && Apply(db, m, w).cases[i].cause.CustomerFunds?
    requires Count(Apply(db, m, w).log, i, DeliveriesBy(Charging)) == 0
    requires i in db.cases && db.cases[i].cause.CustomerFunds? && Count(db.log, i, DeliveriesBy(Charging)) == 0 ==>
             OnlyRefusals(db.cases[i], db, i, w.st)
    ensures OnlyRefusals(Apply(db, m, w).cases[i], Apply(db, m, w), i, w.st)
  {
    CountAfter(db, m, w, i, DeliveriesBy(Charging));
    if i in db.cases {
      EveryMove(db, m, w, i);
      OldCaseKeepsRefusals(db, m, w, i);
    } else {
      NothingCountedOfStrangers(db.log, i, Deliveries);
      NothingCountedOfStrangers(db.log, i, Attempts);
      NothingCountedOfStrangers(db.log, i, AttemptsBy(Charging));
      OnlyTurnsAttempt(db, m, w, i, Deliveries);
      OnlyTurnsAttempt(db, m, w, i, Attempts);
      OnlyTurnsAttempt(db, m, w, i, AttemptsBy(Charging));
      OnlyTurnsGiveUp(db, m, w, i);
    }
  }

  lemma OldCaseKeepsRefusals(db: Db, m: Move, w: World, i: nat)
    requires w.st.mandateRetryEnabled
    requires i in db.cases && db.cases[i].cause.CustomerFunds? && OnlyRefusals(db.cases[i], db, i, w.st)
    requires Count(Apply(db, m, w).log, i, DeliveriesBy(Charging)) == 0
    ensures OnlyRefusals(Apply(db, m, w).cases[i], Apply(db, m, w), i, w.st)
  {
    var touched := Legal(db, m, w) && ChangeOf(db, m, w).Change? && ChangeOf(db, m, w).caseId == i;
    if touched && m.Turn? {
      RefusedTurn(db, m, w);
    } else {
      EveryMove(db, m, w, i);
      OnlyTurnsGiveUp(db, m, w, i);
      if touched {
        QuietMoveKeepsRefusals(db, m, w, i);
      } else {
        OthersUncounted(db, m, w, i, Deliveries);
        OthersUncounted(db, m, w, i, Attempts);
        OthersUncounted(db, m, w, i, AttemptsBy(Charging));
      }
    }
  }

  lemma QuietMoveKeepsRefusals(db: Db, m: Move, w: World, i: nat)
    requires !m.Turn? && i in db.cases && OnlyRefusals(db.cases[i], db, i, w.st)
    ensures OnlyRefusals(Apply(db, m, w).cases[i], Apply(db, m, w), i, w.st)
  {
    EveryMove(db, m, w, i);
    OnlyTurnsGiveUp(db, m, w, i);
    OnlyTurnsAttempt(db, m, w, i, Deliveries);
    OnlyTurnsAttempt(db, m, w, i, Attempts);
    OnlyTurnsAttempt(db, m, w, i, AttemptsBy(Charging));
    if Apply(db, m, w).cases[i].status.Active() && !m.JudgeMachine? { CounterMovesOnlyIn(db, m, w, i); }
  }

  lemma OnlyTurnsGiveUp(db: Db, m: Move, w: World, i: nat)
    requires !(Legal(db, m, w) && m.Turn? && m.caseId == i)
    ensures AuditRow(i, StoppedByPolicy(Undeliverable)) in Apply(db, m, w).audit
            ==> AuditRow(i, StoppedByPolicy(Undeliverable)) in db.audit
  {
    if Legal(db, m, w) && ChangeOf(db, m, w).Change? {
      var ch := ChangeOf(db, m, w);
      EveryEntry(db, m, w);
      NoSuchRow(ch.caseId, ch.notes, i);
      assert Apply(db, m, w).audit == db.audit + Rows(ch.caseId, ch.notes);
    }
  }

  lemma NoSuchRow(j: nat, notes: seq<Note>, i: nat)
    requires i != j || forall k | 0 <= k < |notes| :: !notes[k].StoppedByPolicy?
    ensures AuditRow(i, StoppedByPolicy(Undeliverable)) !in Rows(j, notes)
  {
  }

  /** A funds case under mandate retry whose charges all fail: in every state
      reached from the empty database it has been attempted by charges alone, no
      link and no call, at most max_delivery_failures times, and exactly that many
      once it has been given up as undeliverable. */
  lemma {:induction false} RefusedChargesRunOut(ms: seq<Move>, w: World, i: nat)
    requires w.st.mandateRetryEnabled
    requires var db := Run(EMPTY, ms, w);
             i in db.cases && db.cases[i].cause.CustomerFunds? && Count(db.log, i, DeliveriesBy(Charging)) == 0
    ensures var db := Run(EMPTY, ms, w); AuditKnown(db) && OnlyRefusals(db.cases[i], db, i, w.st)
    decreases |ms|
  {
    AuditIsKnown(ms, w);
    if ms != [] {
      var before, m := ms[..|ms| - 1], ms[|ms| - 1];
      var mid := Run(EMPTY, before, w);
      BooksBalance(EMPTY, before, w);
      AuditIsKnown(before, w);
      if i in mid.cases && mid.cases[i].cause.CustomerFunds? && Count(mid.log, i, DeliveriesBy(Charging)) == 0 {
        RefusedChargesRunOut(before, w, i);
      }
      MoveKeepsRefusals(mid, m, w, i);
    }
  }

  lemma {:induction false} AuditIsKnown(ms: seq<Move>, w: World)
    ensures AuditKnown(Run(EMPTY, ms, w))
    decreases |ms|
  {
    if ms != [] {
      AuditIsKnown(ms[..|ms| - 1], w);
      MoveKeepsAuditKnown(Run(EMPTY, ms[..|ms| - 1], w), ms[|ms| - 1], w);
    }
  }

  lemma MoveKeepsAuditKnown(db: Db, m: Move, w: World)
    requires AuditKnown(db)
    ensures AuditKnown(Apply(db, m, w))
  {
    if Legal(db, m, w) && ChangeOf(db, m, w).Change? {
      var ch := ChangeOf(db, m, w);
      assert forall r | r in Rows(ch.caseId, ch.notes) :: r.caseId == ch.caseId;
    }
  }

  /** ... and once its failures reach the limit, its next turn that does not wait
      closes it: as undeliverable, unless the person had asked not to be contacted. */
  lemma SpentRefusalsClose(c: Case, cu: Option<Customer>, o: Answers, now: int, st: Settings)
    requires c.status.Active() && c.attemptCount < c.maxAttempts && c.deliveryFailures >= st.maxDeliveryFailures
    ensures var e := Work(c, cu, o, now, st).effect;
            if cu.Some? && o.onSharedCooldown then e == Waited
            else if cu.Some? && cu.value.doNotContact then e == Closed(DoNotContact)
            else e == Closed(Undeliverable)
  {
  }

  /** What becomes of such a case: while fewer charges failed than the limit, every turn
      that does not wait or stop is one more charge; at the limit, the next turn that
      does not wait gives it up as undeliverable, unless the person was barred. */
  lemma RefusedChargesEnd(ms: seq<Move>, m: Move, w: World)
    requires w.st.mandateRetryEnabled
    requires var db := Run(EMPTY, ms, w);
             && m.Turn? && Legal(db, m, w)
             && db.cases[m.caseId].cause.CustomerFunds? && db.cases[m.caseId].maxAttempts > 0
             && Count(db.log, m.caseId, DeliveriesBy(Charging)) == 0
    ensures var db := Run(EMPTY, ms, w);
            var e, n := TurnOf(db, m, w).effect, Count(db.log, m.caseId, AttemptsBy(Charging));
            var cu := CustomerOf(db.customers, db.cases[m.caseId]);
            && n <= w.st.maxDeliveryFailures
            && (n < w.st.maxDeliveryFailures && e.Attempted() ==>
                  && e.kind.Charging?
                  && Count(Apply(db, m, w).log, m.caseId, AttemptsBy(Charging)) == n + 1)
            && (n == w.st.maxDeliveryFailures ==>
                  e == if cu.Some? && m.answers.onSharedCooldown then Waited
                       else if cu.Some? && cu.value.doNotContact then Effect.Closed(DoNotContact)
                       else Effect.Closed(Undeliverable))
  {
    var db := Run(EMPTY, ms, w);
    var c := db.cases[m.caseId];
    var cu := CustomerOf(db.customers, c);
    RefusedChargesRunOut(ms, w, m.caseId);
    if TurnOf(db, m, w).effect.Attempted() {
      UnspentMeansCharging(c, cu, m.answers, m.now, w.st);
      TurnCounts(db, m, w, AttemptsBy(Charging));
    }
    if c.deliveryFailures >= w.st.maxDeliveryFailures { SpentRefusalsClose(c, cu, m.answers, m.now, w.st); }
  }
}

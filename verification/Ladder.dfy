/** Which rule of the policy decides, and which rung of the ladder is taken, told from
    the columns alone: on decisions, on turns, and over every run. */
module Ladder {
  import opened Domain
  import opened CaseWork
  import opened Lifecycle
  import opened Ledger
  import Charges
  import Policy

  // --------------------------------------------------------------- the rules

  /** The number is there, and nobody told us that it is somebody else's. */
  predicate Callable(cu: Option<Customer>) { cu.Some? && cu.value.phone != "" && !cu.value.phoneIsWrong }

  /** Each rule by itself, whatever the others say. */
  predicate Applies(rule: Reason, c: Case, cu: Option<Customer>, now: int, st: Settings) {
    match rule
    case AlreadyClosed => c.status == Recovered || c.status == Declined || c.status == Stopped
    case DoNotContact => cu.Some? && cu.value.doNotContact
    case MaxAttemptsReached => c.attemptCount >= c.maxAttempts
    case Undeliverable => c.deliveryFailures >= st.maxDeliveryFailures
    case BelowMinAmount => c.amount < st.minRecoverableAmount
    case NeedsHuman => c.cause == Configuration
    case NoContactDetails => !Callable(cu) && (cu.Some? ==> cu.value.email == "")
    case AwaitingBankRetry =>
      && (c.cause == Transient || c.cause == BankDecline) && c.haltedAt.None?
      && now < (if c.createdAt.Some? then c.createdAt.value else now) + st.bankGraceHours * HOUR
    case WithinBackoff => c.lastAttemptAt.Some? && now < c.lastAttemptAt.value + st.retryBackoffHours * HOUR
    case CustomerRecentlyContacted =>
      && cu.Some? && cu.value.lastContactedAt.Some?
      && now < cu.value.lastContactedAt.value + st.customerCooldownHours * HOUR
    case OutsideContactWindow => !(st.windowStartHour <= Policy.LocalHour(now, st) < st.windowEndHour)
    case Eligible => true
  }

  /** The order of the rules: what ends a case, then what delays it, then what is done. */
  function Rank(rule: Reason): nat {
    match rule
    case AlreadyClosed => 0
    case DoNotContact => 1
    case MaxAttemptsReached => 2
    case Undeliverable => 3
    case BelowMinAmount => 4
    case NeedsHuman => 5
    case NoContactDetails => 6
    case AwaitingBankRetry => 7
    case WithinBackoff => 8
    case CustomerRecentlyContacted => 9
    case OutsideContactWindow => 10
    case Eligible => 11
  }

  /** The first rule that applies decides, and its place says whether the case is
      stopped, waits or is acted upon. */
  lemma FirstRuleDecides(c: Case, cu: Option<Customer>, now: int, st: Settings)
    ensures var d := Policy.Decide(c, cu, now, st);
            && Applies(d.reason, c, cu, now, st)
            && (forall rule | Rank(rule) < Rank(d.reason) :: !Applies(rule, c, cu, now, st))
            && (d.action == Stop <==> Rank(d.reason) <= 6)
            && (d.action == Wait <==> 7 <= Rank(d.reason) <= 10)
            && (d.retryAfter.Some? <==> 7 <= Rank(d.reason) <= 9)
            && (Policy.Renews(c, d.reason) ==> d.retryAfter == Some(now + st.bankGraceHours * HOUR))
            && d.cause == c.cause
  {
  }

  /** The local hour is what the wall clock shows: whole days and hours since midnight. */
  lemma LocalHourIsTheClock(now: int, st: Settings, days: int, hour: int, seconds: int)
    requires now + st.zoneOffset == days * DAY + hour * HOUR + seconds && 0 <= hour < 24 && 0 <= seconds < HOUR
    ensures Policy.LocalHour(now, st) == hour
  {
    assert (now + st.zoneOffset) % DAY == hour * HOUR + seconds;
  }

  // ---------------------------------------------------------------- the rungs

  /** On decisions. An instrument that has to be talked about gets a call whenever there is
      a number, any other case a link until something was spent on it; without a number
      nobody is called. */
  lemma RungOfADecision(c: Case, cu: Option<Customer>, now: int, st: Settings)
    requires Policy.Acts(Policy.Decide(c, cu, now, st))
    ensures var action := Policy.Decide(c, cu, now, st).action;
            && (c.cause == CustomerInstrument && Callable(cu) ==> action == PlaceCall)
            && (c.cause != CustomerInstrument && action != RetryMandate ==>
                  (action == PlaceCall <==> Callable(cu) && c.attemptCount != 0))
            && (!Callable(cu) ==> action == SendLink || action == RetryMandate)
            && (action == RetryMandate <==>
                  st.mandateRetryEnabled && c.cause == CustomerFunds && c.attemptCount == 0)
  {
  }

  /** A turn executes what was decided, and notes that decision first. */
  lemma TurnsFollowDecisions(c: Case, cu: Option<Customer>, o: Answers, now: int, st: Settings)
    ensures var d, t := Policy.Decide(c, cu, now, st), Work(c, cu, o, now, st);
            && (t.effect.Attempted() ==>
                  && (t.effect.kind == Charging <==> d.action == RetryMandate)
                  && (t.effect.kind == Linking <==> d.action == SendLink)
                  && (t.effect.kind == Calling <==> d.action == PlaceCall))
            && (t.effect.Closed? ==> d.action == Stop && t.effect.reason == d.reason)
            && (t.effect.Waited? <==> d.action == Wait || (cu.Some? && o.onSharedCooldown))
            && (!t.effect.Waited? ==> |t.notes| == 2 && t.notes[0] == PolicyDecision(d))
  {
  }

  /** What is attempted goes through exactly if: there is a link already, or Razorpay makes
      one; the channel places the call; the customer's details are complete, a recurring,
      confirmed, unexpired mandate covers the amount, and both of Razorpay's answers
      accept. */
  lemma DeliveredExactlyIf(c: Case, cu: Option<Customer>, o: Answers, now: int, st: Settings)
    requires Work(c, cu, o, now, st).effect.Attempted()
    ensures cu.Some?
    ensures Work(c, cu, o, now, st).effect.Delivered? <==>
              match Work(c, cu, o, now, st).effect.kind
              case Linking =>
                (c.link.Some? && c.link.value.id != "" && c.link.value.url != "") || o.link.LinkMade?
              case Calling => o.callPlaced
              case Charging =>
                && c.customerId != "" && cu.value.email != "" && Callable(cu)
                && o.charge.tokens.Some? && o.charge.orderAccepted && o.charge.paymentAccepted
                && exists k :: 0 <= k < |o.charge.tokens.value| && Covers(o.charge.tokens.value[k], c.amount, now)
  {
    Policy.ActingMeans(c, cu, now, st);
    if o.charge.tokens.Some? {
      var tokens := o.charge.tokens.value;
      assert SomeChargeable(tokens, c.amount, now) <==>
             exists k :: 0 <= k < |tokens| && Covers(tokens[k], c.amount, now) by {
        if k :| 0 <= k < |tokens| && Covers(tokens[k], c.amount, now) {
          assert tokens[k] in tokens && Chargeable(tokens[k], c.amount, now);
        }
      }
    }
  }

  /** A saved instrument that this amount can be charged to now. */
  predicate Covers(t: Token, amount: int, epoch: int) {
    && t.recurring
    && t.status in {None, Some("confirmed")}
    && (t.expiredAt.None? || epoch < t.expiredAt.value)
    && (t.maxAmount.None? || amount <= t.maxAmount.value)
  }

  // ------------------------------------------------------------ over every run

  /** More was delivered on the case than was given back. */
  predicate Spent(log: seq<Entry>, i: nat) { Count(log, i, Deliveries) > Count(log, i, Refunds) }

  function Rung(c: Case, callable: bool, spent: bool, mandates: bool): Kind {
    if mandates && c.cause == CustomerFunds && !spent then Charging
    else if callable && (c.cause == CustomerInstrument || spent) then Calling
    else Linking
  }

  /** Over every run from the empty database, the kind of every attempt follows from the
      cause, the number, and whether more was delivered on the case than refunded. */
  lemma EveryAttemptTakesItsRung(ms: seq<Move>, m: Move, w: World)
    requires var db := Run(EMPTY, ms, w);
             m.Turn? && Legal(db, m, w) && Charges.TurnOf(db, m, w).effect.Attempted()
    ensures var db := Run(EMPTY, ms, w);
            var c := db.cases[m.caseId];
            var callable := Callable(CustomerOf(db.customers, c));
            Charges.TurnOf(db, m, w).effect.kind == Rung(c, callable, Spent(db.log, m.caseId), w.st.mandateRetryEnabled)
  {
    BooksBalance(EMPTY, ms, w);
    TurnTakesItsRung(Run(EMPTY, ms, w), m, w);
  }

  lemma TurnTakesItsRung(db: Db, m: Move, w: World)
    requires m.Turn? && Legal(db, m, w) && Charges.TurnOf(db, m, w).effect.Attempted()
    requires Balanced(db.cases[m.caseId], db.log, m.caseId, w.st)
    ensures var c := db.cases[m.caseId];
            var callable := Callable(CustomerOf(db.customers, c));
            Charges.TurnOf(db, m, w).effect.kind == Rung(c, callable, Spent(db.log, m.caseId), w.st.mandateRetryEnabled)
  {
    var c := db.cases[m.caseId];
    var cu := CustomerOf(db.customers, c);
    AttemptMeans(c, cu, m.answers, m.now, w.st);
    TurnsFollowDecisions(c, cu, m.answers, m.now, w.st);
    RungOfADecision(c, cu, m.now, w.st);
  }

  /** So, unless it is the instrument that has to be talked about, nobody is dialled about
      a case before a link or a charge on it went through: over every run. */
  lemma {:induction false} CallsComeLater(ms: seq<Move>, w: World, i: nat)
    requires i in Run(EMPTY, ms, w).cases && Run(EMPTY, ms, w).cases[i].cause != CustomerInstrument
    requires Count(Run(EMPTY, ms, w).log, i, AttemptsBy(Calling)) > 0
    ensures var log := Run(EMPTY, ms, w).log;
            Count(log, i, DeliveriesBy(Linking)) + Count(log, i, DeliveriesBy(Charging)) > 0
    decreases |ms|
  {
    if ms != [] {
      var before, m := ms[..|ms| - 1], ms[|ms| - 1];
      var mid := Run(EMPTY, before, w);
      BooksBalance(EMPTY, before, w);
      CountAfter(mid, m, w, i, AttemptsBy(Calling));
      CountAfter(mid, m, w, i, DeliveriesBy(Linking));
      CountAfter(mid, m, w, i, DeliveriesBy(Charging));
      if i !in mid.cases {
        NothingCountedOfStrangers(mid.log, i, AttemptsBy(Calling));
        if !m.Turn? { OnlyTurnsAttempt(mid, m, w, i, AttemptsBy(Calling)); }
      } else {
        EveryMove(mid, m, w, i);
        if Count(mid.log, i, AttemptsBy(Calling)) > 0 {
          CallsComeLater(before, w, i);
        } else {
          FirstCallIsLater(mid, m, w, i);
        }
      }
    }
  }

  lemma {:induction false} PlacedCallsAreTried(log: seq<Entry>, i: nat)
    ensures Count(log, i, DeliveriesBy(Calling)) <= Count(log, i, AttemptsBy(Calling))
    decreases |log|
  {
    if log != [] { PlacedCallsAreTried(log[..|log| - 1], i); }
  }

  lemma FirstCallIsLater(db: Db, m: Move, w: World, i: nat)
    requires i in db.cases && db.cases[i].cause != CustomerInstrument && Balanced(db.cases[i], db.log, i, w.st)
    requires Count(db.log, i, AttemptsBy(Calling)) == 0 && Added(db, m, w, i, AttemptsBy(Calling)) > 0
    ensures Count(db.log, i, DeliveriesBy(Linking)) + Count(db.log, i, DeliveriesBy(Charging)) > 0
  {
    CountAfter(db, m, w, i, AttemptsBy(Calling));
    if !m.Turn? {
      OnlyTurnsAttempt(db, m, w, i, AttemptsBy(Calling));
    } else if m.caseId != i {
      OthersUncounted(db, m, w, i, AttemptsBy(Calling));
    } else {
      Charges.TurnCounts(db, m, w, AttemptsBy(Calling));
      TurnTakesItsRung(db, m, w);
      DeliveriesByKind(db.log, i);
      PlacedCallsAreTried(db.log, i);
    }
  }
}

/** One turn of the work loop on one case, as a function of the case row, the
    customer row and what the outside world answers: app/orchestrator.py:124-183
    with the parts of app/mandate.py and app/payment_links.py it calls. */
module CaseWork {
  import opened Domain
  import Policy

  datatype Kind = Charging | Linking | Calling

  datatype Effect =
    | Waited
    | Closed(reason: Reason)
    | Delivered(kind: Kind)
    | Failed(kind: Kind)
  {
    predicate Attempted() { Delivered? || Failed? }
  }

  /** The rows after the turn, the audit notes it appended, and what it amounted to. */
  datatype Worked = Worked(row: Case, customer: Option<Customer>, notes: seq<Note>, effect: Effect, linkMade: bool)

  // ------------------------------------------------------------ payment links

  datatype LinkResult = LinkResult(row: Case, note: Option<Note>, made: bool)

  /** `create_recovery_link`: a case that has a link keeps it and has it sent
      again; otherwise a new one is made and stored. No note: it raised. */
  function RecoveryLink(c: Case, answer: LinkAnswer): LinkResult {
    if c.HasLink() then LinkResult(c, Some(LinkResent), false)
    else match answer
      case LinkMade(link) => LinkResult(c.(link := Some(link)), Some(LinkCreated), true)
      case LinkRefused => LinkResult(c, None, false)
  }

  // ----------------------------------------------------------------- mandates

  predicate Chargeable(t: Token, amount: int, epoch: int) {
    && t.recurring
    && (t.status.Some? ==> t.status.value == "confirmed")
    && (t.expiredAt.Some? ==> t.expiredAt.value > epoch)
    && (t.maxAmount.Some? ==> t.maxAmount.value >= amount)
  }

  predicate SomeChargeable(tokens: seq<Token>, amount: int, epoch: int) {
    exists t :: t in tokens && Chargeable(t, amount, epoch)
  }

  predicate ChargeDetails(c: Case, cu: Customer) {
    c.customerId != "" && cu.email != "" && Policy.CanCall(Some(cu))
  }

  function Charge(c: Case, cu: Customer, answer: ChargeAnswer, epoch: int): ChargeOutcome {
    if !ChargeDetails(c, cu) then MissingDetails
    else if answer.tokens.None? then ChargeRaised
    else if !SomeChargeable(answer.tokens.value, c.amount, epoch) then NoChargeableMandate
    else if answer.orderAccepted && answer.paymentAccepted then Charged
    else ChargeRaised
  }

  // ------------------------------------------------------------------ one turn

  /** Every intervention first moves these two columns, whatever comes of it. */
  function Begun(c: Case, now: int): Case {
    c.(status := InProgress, lastAttemptAt := Some(now), nextEligibleAt := None)
  }

  /** `_record_delivery` on top of the attempt counter. */
  function Recorded(c: Case, cu: Customer, notes: seq<Note>, kind: Kind, delivered: bool, made: bool,
                    now: int): Worked {
    if delivered then
      Worked(c.(attemptCount := c.attemptCount + 1, deliveryFailures := 0),
             Some(cu.(lastContactedAt := Some(now))), notes, Delivered(kind), made)
    else
      Worked(c.(deliveryFailures := c.deliveryFailures + 1), Some(cu), notes, Failed(kind), made)
  }

  function Intervene(c: Case, cu: Customer, d: Decision, o: Answers, now: int): Worked
    requires Policy.Acts(d)
  {
    var begun := Begun(c, now);
    match d.action
    case RetryMandate =>
      var outcome := Charge(begun, cu, o.charge, now);
      Recorded(begun, cu, [PolicyDecision(d), MandateRetried(outcome)], Charging, outcome.Charged?, false, now)
    case SendLink =>
      var l := RecoveryLink(begun, o.link);
      var note := if l.note.Some? then l.note.value else LinkRaised;
      Recorded(l.row, cu, [PolicyDecision(d), note], Linking, l.note.Some?, l.made, now)
    case PlaceCall =>
      var note := if o.callPlaced then CallPlaced else Note.CallRaised;
      Recorded(begun, cu, [PolicyDecision(d), note], Calling, o.callPlaced, false, now)
  }

  function Work(c: Case, cu: Option<Customer>, o: Answers, now: int, st: Settings): Worked {
    var d := Policy.Decide(c, cu, now, st);
    if cu.Some? && o.onSharedCooldown then
      Worked(c, cu, [], Waited, false)
    else if d.action == Wait then
      Worked(c.(nextEligibleAt := d.retryAfter), cu, [], Waited, false)
    else if d.action == Stop then
      Worked(c.(status := Stopped, nextEligibleAt := None), cu,
             [PolicyDecision(d), StoppedByPolicy(d.reason)], Closed(d.reason), false)
    else
      Policy.ActingMeans(c, cu, now, st);
      Intervene(c, cu.value, d, o, now)
  }

  // --------------------------------------------------------- what a turn means

  /** The columns that identify a debt never move. */
  predicate SameDebt(a: Case, b: Case) {
    && a.paymentId == b.paymentId && a.invoiceId == b.invoiceId && a.subscriptionId == b.subscriptionId
    && a.customerId == b.customerId && a.orderId == b.orderId && a.amount == b.amount && a.cause == b.cause
    && a.source == b.source && a.createdAt == b.createdAt && a.maxAttempts == b.maxAttempts
  }

  /** A turn that attempts something respects every gap, spends a contact exactly
      when it delivers, and otherwise counts one more failure of ours. */
  lemma AttemptMeans(c: Case, cu: Option<Customer>, o: Answers, now: int, st: Settings)
    requires Work(c, cu, o, now, st).effect.Attempted()
    ensures var w := Work(c, cu, o, now, st);
            && c.status.Active() && w.row.status == InProgress
            && cu.Some? && w.customer.Some? && !cu.value.doNotContact
            && c.attemptCount < c.maxAttempts && c.deliveryFailures < st.maxDeliveryFailures
            && (c.lastAttemptAt.Some? ==> now - c.lastAttemptAt.value >= st.retryBackoffHours * HOUR)
            && (cu.value.lastContactedAt.Some? ==>
                now - cu.value.lastContactedAt.value >= st.customerCooldownHours * HOUR)
            && w.row.lastAttemptAt == Some(now) && w.row.nextEligibleAt == None
            && (w.effect.Delivered? ==>
                  && w.row.attemptCount == c.attemptCount + 1 && w.row.deliveryFailures == 0
                  && w.customer == Some(cu.value.(lastContactedAt := Some(now))))
            && (w.effect.Failed? ==>
                  && w.row.attemptCount == c.attemptCount && w.row.deliveryFailures == c.deliveryFailures + 1
                  && w.customer == cu)
            && (w.effect.kind.Charging? ==> c.cause.CustomerFunds? && c.attemptCount == 0 && st.mandateRetryEnabled)
            && (w.effect.Delivered? && (w.effect.kind.Charging? || w.effect.kind.Calling?) ==> !cu.value.phoneIsWrong)
  {
    Policy.ActingMeans(c, cu, now, st);
  }

  /** A turn that attempts nothing leaves the counters, the clocks and the
      customer alone, and either parks the case or closes it. */
  lemma OtherwiseNothingMoves(c: Case, cu: Option<Customer>, o: Answers, now: int, st: Settings)
    requires !Work(c, cu, o, now, st).effect.Attempted()
    ensures var w := Work(c, cu, o, now, st);
            && w.customer == cu && !w.linkMade
            && (w.effect.Waited? ==> w.row == c.(nextEligibleAt := w.row.nextEligibleAt) && w.notes == [])
            && (w.effect.Closed? ==> w.row == c.(status := Stopped, nextEligibleAt := None))
  {
  }

  /** What a turn makes of a case and its customer, as far as it never depends on what
      was decided: the debt is the same one, the halt, promise and credit columns are
      untouched, a stored link is never replaced. */
  predicate TurnMay(c: Case, cu: Option<Customer>, o: Answers, w: Worked) {
    && SameDebt(c, w.row)
    && w.row.haltedAt == c.haltedAt && w.row.promise == c.promise && w.row.credit == c.credit
    && (c.HasLink() ==> w.row.link == c.link && !w.linkMade)
    && (!w.linkMade ==> w.row.link == c.link)
    && (w.linkMade ==> o.link.LinkMade? && w.row.link == Some(o.link.link) && w.effect == Delivered(Linking))
    && w.customer.Some? == cu.Some?
    && (cu.Some? ==> w.customer.value == cu.value.(lastContactedAt := w.customer.value.lastContactedAt))
  }

  lemma EveryInterventionKeeps(c: Case, cu: Customer, d: Decision, o: Answers, now: int)
    requires Policy.Acts(d)
    ensures TurnMay(c, Some(cu), o, Intervene(c, cu, d, o, now)) && Intervene(c, cu, d, o, now).row.status == InProgress
  {
  }

  lemma EveryTurnKeeps(c: Case, cu: Option<Customer>, o: Answers, now: int, st: Settings)
    ensures var w := Work(c, cu, o, now, st);
            && TurnMay(c, cu, o, w)
            && (w.row.status == c.status || w.row.status == InProgress || w.row.status == Stopped)
            && (c.status.Closed() ==> w.row.status == c.status || w.row.status == Stopped)
  {
    var d := Policy.Decide(c, cu, now, st);
    if Policy.Acts(d) {
      Policy.ActingMeans(c, cu, now, st);
      EveryInterventionKeeps(c, cu.value, d, o, now);
    }
  }

  /** Parking a case hides it from the claim query, which asks for
      `next_eligible_at <= now`; while nothing about the case or its customer
      moves, the turns that are skipped are exactly turns that would have waited. */
  predicate Claimable(c: Case, now: int) {
    c.status.Active() && (c.nextEligibleAt.Some? ==> c.nextEligibleAt.value <= now)
  }

  lemma ParkingSkipsOnlyWaits(c: Case, cu: Option<Customer>, o: Answers, now: int, st: Settings, u: int, o': Answers)
    requires !Policy.Renews(c, Policy.Decide(c, cu, now, st).reason) && Claimable(c, now)
    requires Work(c, cu, o, now, st).effect.Waited? && !(cu.Some? && o.onSharedCooldown)
    ensures var parked := Work(c, cu, o, now, st).row;
            !Claimable(parked, u) ==> u < parked.nextEligibleAt.value && Work(parked, cu, o', u, st).effect.Waited?
  {
    var d := Policy.Decide(c, cu, now, st);
    if d.retryAfter.Some? && u < d.retryAfter.value {
      Policy.ParkingIsExact(c, cu, now, st);
      assert Policy.Decide(c, cu, u, st).action == Wait;
      assert Policy.Decide(c.(nextEligibleAt := d.retryAfter), cu, u, st) == Policy.Decide(c, cu, u, st);
    }
  }

  /** A halt is the signal that the bank has given up, but it does not clear the
      parking column. A case parked for the bank and then halted is hidden from the
      claim exactly until the grace it was parked for runs out, and would be acted upon
      exactly when backoff, quiet period and contact window allow it. */
  lemma HaltedIsHiddenUntilTheGrace(c: Case, cu: Option<Customer>, o: Answers, now: int, st: Settings,
                                    haltedAt: int, u: int, o': Answers)
    requires c.createdAt.Some? && Claimable(c, now) && !o.onSharedCooldown
    requires Policy.Decide(c, cu, now, st).reason == AwaitingBankRetry
    ensures var halted := Work(c, cu, o, now, st).row.(haltedAt := Some(haltedAt));
            && cu.Some?
            && (Claimable(halted, u) <==> u >= c.createdAt.value + st.bankGraceHours * HOUR)
            && (Work(halted, cu, o', u, st).effect.Attempted() <==>
                !o'.onSharedCooldown && NothingElseWaits(c, cu.value, u, st))
  {
  }

  /** No wait but the bank's keeps the case at `u`. */
  predicate NothingElseWaits(c: Case, cu: Customer, u: int, st: Settings) {
    && !Policy.WithinBackoff(c, u, st)
    && (cu.lastContactedAt.Some? ==> u >= Policy.QuietUntil(cu.lastContactedAt.value, st))
    && Policy.WithinContactWindow(u, st)
  }

  /** So the instants at which a halted case would be acted upon and is hidden are
      exactly those before the end of the grace at which nothing else waits. */
  lemma HiddenThoughActionable(c: Case, cu: Option<Customer>, o: Answers, now: int, st: Settings,
                               haltedAt: int, u: int, o': Answers)
    requires c.createdAt.Some? && Claimable(c, now) && !o.onSharedCooldown && !o'.onSharedCooldown
    requires Policy.Decide(c, cu, now, st).reason == AwaitingBankRetry
    ensures var halted := Work(c, cu, o, now, st).row.(haltedAt := Some(haltedAt));
            && cu.Some?
            && (!Claimable(halted, u) && Work(halted, cu, o', u, st).effect.Attempted()
                <==> u < c.createdAt.value + st.bankGraceHours * HOUR && NothingElseWaits(c, cu.value, u, st))
  {
    HaltedIsHiddenUntilTheGrace(c, cu, o, now, st, haltedAt, u, o');
  }

  /** There are such instants: a case of a bank decline halted a second after it was parked. */
  lemma HaltDoesNotUnpark()
    ensures exists c: Case, cu: Customer, o: Answers, st: Settings, now: int, haltedAt: int, u: int ::
              var parked := Work(c, Some(cu), o, now, st).row;
              var halted := parked.(haltedAt := Some(haltedAt));
              && Claimable(c, now) && now <= haltedAt <= u
              && !Claimable(halted, u)
              && Work(halted, Some(cu), o, u, st).effect.Attempted()
  {
    var st := Settings(5000, 24, 24, 72, 0, 24, 19800, 5, false, 48, 30);
    var c := Case("pay", "inv", "sub", "cust", "", 49900, BankDecline, Source.Razorpay, Some(0), 3,
                  Open, 0, 0, None, None, None, None, None, None);
    var cu := Customer("+91", "a@b", false, false, None);
    var o := Answers(false, LinkMade(Domain.Link("plink", "https://l")), ChargeAnswer(None, true, true), true);
    var parked := Work(c, Some(cu), o, 0, st).row;
    var halted := parked.(haltedAt := Some(1));
    assert parked.nextEligibleAt == Some(72 * HOUR);
    assert Policy.LocalHour(2, st) == 5;
    assert Policy.Decide(halted, Some(cu), 2, st).action == SendLink;
    assert Claimable(c, 0) && !Claimable(halted, 2) && Work(halted, Some(cu), o, 2, st).effect.Attempted();
  }
}

/** Whom a webhook is about, and what it does to them: the tables after each event, told
    from the event and the tables before it. */
module Attribution {
  import opened Domain
  import opened Lifecycle
  import opened Webhooks
  import Redelivery
  import References

  // ------------------------------------------------------------ rows of the trail

  /** How often the trail notes exactly this on the case. */
  function Noted(audit: seq<AuditRow>, i: nat, note: Note): nat
    decreases |audit|
  {
    if audit == [] then 0
    else Noted(audit[..|audit| - 1], i, note) + if audit[|audit| - 1] == AuditRow(i, note) then 1 else 0
  }

  lemma NotedOnce(audit: seq<AuditRow>, row: AuditRow)
    ensures forall i, note ::
              Noted(audit + [row], i, note) == Noted(audit, i, note) + if row == AuditRow(i, note) then 1 else 0
  {
    assert (audit + [row])[..|audit|] == audit;
  }

  /** The trail grew by this note, once on each of these cases, and by nothing else. */
  ghost predicate GrewBy(a: seq<AuditRow>, b: seq<AuditRow>, on: set<nat>, note: Note) {
    && a <= b
    && forall i, n :: Noted(b, i, n) == Noted(a, i, n) + if i in on && n == note then 1 else 0
  }

  // --------------------------------------------------------------- attribution

  predicate IsActive(c: Case) { c.status == Open || c.status == InProgress }

  /** The subscription and the customer an invoice belongs to. */
  function SubscriptionOf(p: PaymentEntity, w: World): string {
    if p.invoiceId == "" then "" else w.resolve(p.invoiceId).subscriptionId
  }

  function PayerOf(p: PaymentEntity, w: World): string {
    if p.invoiceId == "" then "" else w.resolve(p.invoiceId).customerId
  }

  predicate IsPayment(ev: Event) { ev.PaymentArrived? || ev.Charged? || ev.LinkPaid? || ev.OrderPaid? }

  /** The event names case `i`: by a note of the payment; by the reference of the link, and
      by the link's note where the reference has none; by the subscription the invoice
      belongs to or that was charged; by the order. */
  predicate Names(ev: Event, i: nat, c: Case, w: World) {
    match ev
    case PaymentArrived(p) =>
      (match p.note
       case CaseNote(id) => i == id
       case Unreadable => false
       case NoNote => SubscriptionOf(p, w) != "" && c.subscriptionId == SubscriptionOf(p, w) && IsActive(c))
    case Charged(s, _) => s.id != "" && c.subscriptionId == s.id && IsActive(c)
    case OrderPaid(orderId, _) => orderId != "" && c.orderId == orderId && IsActive(c)
    case LinkPaid(reference, note, _) =>
      var id := References.CaseIdFrom(reference);
      if id.Some? && id.value != 0 then i == id.value else note.CaseNote? && i == note.id
    case _ => false
  }

  /** The cases a payment recovers: those it names that are not RECOVERED yet. */
  ghost function Credited(db: Db, ev: Event, w: World): set<nat> {
    set i | i in db.cases && Names(ev, i, db.cases[i], w) && db.cases[i].status != Recovered
  }

  /** Exactly those get this payment, its amount and this instant, and one row each. */
  ghost predicate CreditsExactly(db: Db, d: Db, ev: Event, now: int, w: World)
    requires IsPayment(ev)
  {
    var p, who := ev.payment, Credited(db, ev, w);
    && d.cases.Keys == db.cases.Keys
    && (forall i | i in db.cases ::
          d.cases[i] == if i in who then db.cases[i].(status := Recovered, credit := Some(Credit(p.id, p.amount, now)))
                        else db.cases[i])
    && GrewBy(db.audit, d.audit, who, PaymentCaptured(p.id, p.amount))
    && d.log == db.log && d.calls == db.calls
  }

  lemma PaidAreNamed(db: Db, ev: Event, r: Replies, w: World)
    requires IsPayment(ev) && Truthful(db, ev, r, w)
    ensures Distinct(Paid(db, ev, r))
    ensures forall i: nat :: i in Paid(db, ev, r) <==> i in db.cases && Names(ev, i, db.cases[i], w)
  {
    forall i: nat | i in db.cases ensures i in Paid(db, ev, r) <==> Names(ev, i, db.cases[i], w) {
      assert i in r.found <==> Wanted(ev, db.cases[i], w);
    }
  }

  function Ids(ids: seq<nat>): set<nat> { set i | i in ids }

  lemma OneRow(db: Db, d: Db, i: nat, note: Note)
    requires d.audit == db.audit + Rows(i, [note])
    ensures GrewBy(db.audit, d.audit, {i}, note)
  {
    assert Rows(i, [note]) == [AuditRow(i, note)];
    NotedOnce(db.audit, AuditRow(i, note));
  }

  lemma GrowsFurther(a: seq<AuditRow>, b: seq<AuditRow>, c: seq<AuditRow>, on: set<nat>, more: set<nat>, note: Note)
    requires GrewBy(a, b, on, note) && GrewBy(b, c, more, note) && on !! more
    ensures GrewBy(a, c, on + more, note)
  {
  }

  function Unpaid(db: Db, ids: seq<nat>): set<nat> {
    set i | i in ids && i in db.cases && db.cases[i].status != Recovered
  }

  lemma {:induction false} RecoverAllNotes(db: Db, ids: seq<nat>, credit: Credit, w: World)
    requires Distinct(ids) && forall i | i in ids :: i in db.cases
    ensures GrewBy(db.audit, Run(db, RecoverAll(ids, credit), w).audit, Unpaid(db, ids),
                   PaymentCaptured(credit.paymentId, credit.amount))
    decreases |ids|
  {
    if ids == [] {
      assert RecoverAll(ids, credit) == [];
    } else {
      var init, last := ids[..|ids| - 1], ids[|ids| - 1];
      assert ids == init + [last] && last !in init;
      var mid := Run(db, RecoverAll(init, credit), w);
      RecoverAllNotes(db, init, credit, w);
      Redelivery.RecoverAllDoes(db, init, credit, w);
      assert RecoverAll(ids, credit) == RecoverAll(init, credit) + [Recover(last, credit)];
      RunOneMore(db, RecoverAll(init, credit), Recover(last, credit), w);
      RecoveryNotes(mid, last, credit, w);
      GrowsFurther(db.audit, mid.audit, Apply(mid, Recover(last, credit), w).audit,
                   Unpaid(db, init), Unpaid(mid, [last]), PaymentCaptured(credit.paymentId, credit.amount));
      assert Unpaid(db, init) + Unpaid(mid, [last]) == Unpaid(db, ids);
    }
  }

  lemma RecoveryNotes(db: Db, i: nat, credit: Credit, w: World)
    requires i in db.cases
    ensures GrewBy(db.audit, Apply(db, Recover(i, credit), w).audit, Unpaid(db, [i]),
                   PaymentCaptured(credit.paymentId, credit.amount))
  {
    if db.cases[i].status != Recovered {
      OneRow(db, Apply(db, Recover(i, credit), w), i, PaymentCaptured(credit.paymentId, credit.amount));
      assert Unpaid(db, [i]) == {i};
    } else {
      assert Unpaid(db, [i]) == {};
    }
  }

  /** A handler first stores rows, which touches no case, and then works on the cases. */
  lemma RowsThenCases(db: Db, ev: Event, r: Replies, now: int, w: World) returns (mid: Db)
    requires Truthful(db, ev, r, w)
    ensures mid.cases == db.cases && mid.audit == db.audit && mid.log == db.log && mid.calls == db.calls
    ensures Handle(db, ev, r, now, w) == Run(mid, OnCases(db, ev, r, now, w), w)
  {
    var ms := Mirror(db, ev, r, w);
    mid := Run(db, ms, w);
    Redelivery.MirrorIsPuts(db, ev, r, w);
    Redelivery.PutsDo(db, ms, w);
    RunsCompose(db, ms, OnCases(db, ev, r, now, w), w);
  }

  lemma AllCredited(db: Db, mid: Db, ids: seq<nat>, credit: Credit, who: set<nat>, w: World)
    requires mid.cases == db.cases && mid.audit == db.audit && mid.log == db.log && mid.calls == db.calls
    requires Distinct(ids)
    requires forall i | i in ids :: i in db.cases
    requires forall i: nat :: i in who <==> i in ids && db.cases[i].status != Recovered
    ensures var d := Run(mid, RecoverAll(ids, credit), w);
            && d.cases.Keys == db.cases.Keys && d.log == db.log && d.calls == db.calls
            && (forall i | i in db.cases ::
                  d.cases[i] == if i in who then db.cases[i].(status := Recovered, credit := Some(credit))
                                else db.cases[i])
            && GrewBy(db.audit, d.audit, who, PaymentCaptured(credit.paymentId, credit.amount))
  {
    Redelivery.RecoverAllDoes(mid, ids, credit, w);
    RecoverAllNotes(mid, ids, credit, w);
    assert Unpaid(mid, ids) == who;
  }

  /** A payment credits exactly the cases it names. */
  lemma PaymentsCreditExactly(db: Db, ev: Event, r: Replies, now: int, w: World)
    requires IsPayment(ev) && Truthful(db, ev, r, w)
    ensures CreditsExactly(db, Handle(db, ev, r, now, w), ev, now, w)
  {
    var mid := RowsThenCases(db, ev, r, now, w);
    PaidAreNamed(db, ev, r, w);
    AllCredited(db, mid, Paid(db, ev, r), CreditOf(ev.payment, now), Credited(db, ev, w), w);
  }

  // ---------------------------------------------------------- pending and halted

  /** The active cases of a subscription. */
  ghost function ActiveOf(db: Db, subscriptionId: string): set<nat> {
    set i | i in db.cases && IsActive(db.cases[i])
            && subscriptionId != "" && db.cases[i].subscriptionId == subscriptionId
  }

  lemma FoundAreActive(db: Db, ev: Event, r: Replies, w: World)
    requires (ev.Pending? || ev.Halted?) && Truthful(db, ev, r, w)
    ensures forall i: nat :: i in r.found <==> i in ActiveOf(db, ev.subscription.id)
  {
    forall i: nat | i in db.cases ensures i in r.found <==> i in ActiveOf(db, ev.subscription.id) {
      assert i in r.found <==> Wanted(ev, db.cases[i], w);
    }
  }

  lemma AnnotationNotes(db: Db, i: nat, note: Note, w: World)
    requires i in db.cases && PlainNote(note)
    ensures GrewBy(db.audit, Apply(db, Annotate(i, note), w).audit, {i}, note)
  {
    OneRow(db, Apply(db, Annotate(i, note), w), i, note);
  }

  lemma HaltNotes(db: Db, i: nat, at: int, w: World)
    requires i in db.cases
    ensures GrewBy(db.audit, Apply(db, Halt(i, at), w).audit, {i}, Note.SubscriptionHalted)
  {
    OneRow(db, Apply(db, Halt(i, at), w), i, Note.SubscriptionHalted);
  }

  lemma {:induction false} AnnotateAllNotes(db: Db, ids: seq<nat>, note: Note, w: World)
    requires Distinct(ids) && PlainNote(note) && forall i | i in ids :: i in db.cases
    ensures GrewBy(db.audit, Run(db, AnnotateAll(ids, note), w).audit, Ids(ids), note)
    decreases |ids|
  {
    if ids == [] {
      assert AnnotateAll(ids, note) == [];
    } else {
      var init, last := ids[..|ids| - 1], ids[|ids| - 1];
      assert ids == init + [last] && last !in init;
      var mid := Run(db, AnnotateAll(init, note), w);
      AnnotateAllNotes(db, init, note, w);
      Redelivery.AnnotateAllDoes(db, init, note, w);
      assert AnnotateAll(ids, note) == AnnotateAll(init, note) + [Annotate(last, note)];
      RunOneMore(db, AnnotateAll(init, note), Annotate(last, note), w);
      AnnotationNotes(mid, last, note, w);
      GrowsFurther(db.audit, mid.audit, Apply(mid, Annotate(last, note), w).audit, Ids(init), {last}, note);
      assert Ids(init) + {last} == Ids(ids);
    }
  }

  lemma {:induction false} HaltAllNotes(db: Db, ids: seq<nat>, at: int, w: World)
    requires Distinct(ids) && forall i | i in ids :: i in db.cases
    ensures GrewBy(db.audit, Run(db, HaltAll(ids, at), w).audit, Ids(ids), Note.SubscriptionHalted)
    decreases |ids|
  {
    if ids == [] {
      assert HaltAll(ids, at) == [];
    } else {
      var init, last := ids[..|ids| - 1], ids[|ids| - 1];
      assert ids == init + [last] && last !in init;
      var mid := Run(db, HaltAll(init, at), w);
      HaltAllNotes(db, init, at, w);
      Redelivery.HaltAllDoes(db, init, at, w);
      assert HaltAll(ids, at) == HaltAll(init, at) + [Halt(last, at)];
      RunOneMore(db, HaltAll(init, at), Halt(last, at), w);
      HaltNotes(mid, last, at, w);
      GrowsFurther(db.audit, mid.audit, Apply(mid, Halt(last, at), w).audit, Ids(init), {last},
                   Note.SubscriptionHalted);
      assert Ids(init) + {last} == Ids(ids);
    }
  }

  /** A pending subscription is noted once on each of its active cases, and moves none. */
  lemma PendingIsNoted(db: Db, s: SubscriptionEntity, r: Replies, now: int, w: World)
    requires Truthful(db, Pending(s), r, w)
    ensures var d := Handle(db, Pending(s), r, now, w);
            && d.cases == db.cases && d.log == db.log && d.calls == db.calls
            && GrewBy(db.audit, d.audit, ActiveOf(db, s.id), Note.SubscriptionPending)
  {
    var mid := RowsThenCases(db, Pending(s), r, now, w);
    FoundAreActive(db, Pending(s), r, w);
    AnnotateAllNotes(mid, r.found, Note.SubscriptionPending, w);
    Redelivery.AnnotateAllDoes(mid, r.found, Note.SubscriptionPending, w);
    assert Ids(r.found) == ActiveOf(db, s.id);
  }

  /** A halted subscription stamps each of its active cases, notes it once on each, and
      touches no other. */
  lemma HaltsAreStamped(db: Db, s: SubscriptionEntity, r: Replies, now: int, w: World)
    requires Truthful(db, Halted(s), r, w)
    ensures var d, on := Handle(db, Halted(s), r, now, w), ActiveOf(db, s.id);
            && d.cases.Keys == db.cases.Keys && d.log == db.log && d.calls == db.calls
            && (forall i | i in db.cases ::
                  d.cases[i] == if i in on then db.cases[i].(haltedAt := Some(now)) else db.cases[i])
            && GrewBy(db.audit, d.audit, on, Note.SubscriptionHalted)
  {
    var mid := RowsThenCases(db, Halted(s), r, now, w);
    FoundAreActive(db, Halted(s), r, w);
    HaltAllNotes(mid, r.found, now, w);
    Redelivery.HaltAllDoes(mid, r.found, now, w);
    assert Ids(r.found) == ActiveOf(db, s.id);
  }

  /** An authorised payment and an authenticated subscription touch no case. */
  lemma TheRestTouchNoCase(db: Db, ev: Event, r: Replies, now: int, w: World)
    requires (ev.PaymentAuthorized? || ev.SubscriptionAuthenticated?) && Truthful(db, ev, r, w)
    ensures var d := Handle(db, ev, r, now, w);
            d.cases == db.cases && d.audit == db.audit && d.log == db.log && d.calls == db.calls
  {
    var mid := RowsThenCases(db, ev, r, now, w);
  }

  // ------------------------------------------------------------- a failed payment

  predicate Owes(db: Db, paymentId: string) { exists i :: i in db.cases && db.cases[i].paymentId == paymentId }

  /** An active case chases the invoice. */
  predicate Chased(db: Db, invoiceId: string) {
    exists i :: i in db.cases && IsActive(db.cases[i]) && db.cases[i].invoiceId == invoiceId
  }

  /** The payer's phone or email is a known customer's. */
  predicate PayerKnown(db: Db, p: PaymentEntity) {
    exists k :: k in db.customers && k != "" && IsPayer(db.customers[k], p)
  }

  predicate IsPayer(cu: Customer, p: PaymentEntity) {
    (p.contact != "" && p.contact == cu.phone) || (p.email != "" && p.email == cu.email)
  }

  /** A failed charge opens a case unless its invoice is chased or its payment has a case; a
      failed checkout unless the payer is a stranger or the payment has a case. */
  predicate OpensACase(db: Db, p: PaymentEntity, w: World) {
    && !Owes(db, p.id)
    && if SubscriptionOf(p, w) == "" then PayerKnown(db, p) else !Chased(db, p.invoiceId)
  }

  /** The case that is opened: this debt, nothing done about it yet; a checkout's waits for
      its grace, a charge's is due at once. */
  predicate OpenedFor(p: PaymentEntity, c: Case, now: int, w: World) {
    var checkout := SubscriptionOf(p, w) == "";
    && c.paymentId == p.id && c.invoiceId == p.invoiceId && c.orderId == p.orderId
    && c.amount == p.amount && c.cause == p.cause && c.subscriptionId == SubscriptionOf(p, w)
    && c.source == (if checkout then Checkout else Source.Razorpay)
    && c.nextEligibleAt == (if checkout then Some(now + w.st.checkoutGraceMinutes * 60) else None)
    && c.createdAt == Some(now) && c.status == Open && c.attemptCount == 0 && c.maxAttempts == 3
    && c.deliveryFailures == 0 && c.lastAttemptAt.None? && c.haltedAt.None? && c.link.None? && c.promise.None?
    && c.credit.None?
  }

  /** What a failed payment does to the cases and the trail. */
  predicate FailsInto(db: Db, d: Db, p: PaymentEntity, r: Replies, now: int, w: World) {
    && d.log == db.log && d.calls == db.calls
    && if OpensACase(db, p, w) then
         && r.newId !in db.cases && r.newId in d.cases
         && d.cases == db.cases[r.newId := d.cases[r.newId]]
         && OpenedFor(p, d.cases[r.newId], now, w)
         && (if SubscriptionOf(p, w) == "" then
               && d.cases[r.newId].customerId in db.customers
               && IsPayer(db.customers[d.cases[r.newId].customerId], p)
               && d.audit == db.audit + [AuditRow(r.newId, Note.CheckoutAbandoned)]
             else
               && d.cases[r.newId].customerId == PayerOf(p, w)
               && d.audit == db.audit + [AuditRow(r.newId, CaseOpened)])
       else
         && d.cases == db.cases
         && if SubscriptionOf(p, w) != "" && r.existing.Some? && r.existing.value in db.cases
               && db.cases[r.existing.value].paymentId != p.id
            then d.audit == db.audit + [AuditRow(r.existing.value, RepeatFailure(p.id))]
            else d.audit == db.audit
  }

  lemma OpeningIsDecided(db: Db, p: PaymentEntity, r: Replies, now: int, w: World)
    requires Truthful(db, PaymentFailed(p), r, w)
    ensures OpensACase(db, p, w) <==>
              && !PaymentKnown(db, p.id)
              && if InvoiceOf(p, w).subscriptionId == "" then r.matched != "" else r.existing.None?
  {
    if r.matched != "" { assert Matches(db.customers[r.matched], p) && IsPayer(db.customers[r.matched], p); }
    assert forall k | k in db.customers :: Matches(db.customers[k], p) <==> IsPayer(db.customers[k], p);
    if r.existing.Some? { assert ChasesInvoice(db.cases[r.existing.value], p.invoiceId); }
    assert Chased(db, p.invoiceId) <==> InvoiceChased(db, p.invoiceId) by {
      if i :| i in db.cases && IsActive(db.cases[i]) && db.cases[i].invoiceId == p.invoiceId {
        assert ChasesInvoice(db.cases[i], p.invoiceId);
      }
    }
  }

  /** A failed payment becomes a case, a note, or nothing, exactly as that says. */
  lemma FailuresBecomeCases(db: Db, p: PaymentEntity, r: Replies, now: int, w: World)
    requires Truthful(db, PaymentFailed(p), r, w)
    ensures FailsInto(db, Handle(db, PaymentFailed(p), r, now, w), p, r, now, w)
  {
    var ev := PaymentFailed(p);
    var mid := RowsThenCases(db, ev, r, now, w);
    OpeningIsDecided(db, p, r, now, w);
    FailureWorks(db, mid, p, r, now, w);
  }

  lemma OpeningDoes(d: Db, i: nat, row: Case, note: Note, w: World)
    requires Legal(d, OpenCase(i, row, note), w)
    ensures Run(d, [OpenCase(i, row, note)], w) ==
            d.(cases := d.cases[i := row], audit := d.audit + [AuditRow(i, note)])
  {
    Redelivery.RunThree(d, [OpenCase(i, row, note)], w);
    assert Rows(i, [note]) == [AuditRow(i, note)] && d.log + [] == d.log;
  }

  lemma NotingDoes(d: Db, i: nat, note: Note, w: World)
    requires i in d.cases && PlainNote(note)
    ensures Run(d, [Annotate(i, note)], w) == d.(audit := d.audit + [AuditRow(i, note)])
  {
    Redelivery.RunThree(d, [Annotate(i, note)], w);
    assert Rows(i, [note]) == [AuditRow(i, note)] && d.log + [] == d.log && d.cases[i := d.cases[i]] == d.cases;
  }

  lemma FailureWorks(db: Db, mid: Db, p: PaymentEntity, r: Replies, now: int, w: World)
    requires Truthful(db, PaymentFailed(p), r, w)
    requires mid.cases == db.cases && mid.audit == db.audit && mid.log == db.log && mid.calls == db.calls
    ensures FailsInto(db, Run(mid, OnCases(db, PaymentFailed(p), r, now, w), w), p, r, now, w)
  {
    var ms := OnCases(db, PaymentFailed(p), r, now, w);
    OpeningIsDecided(db, p, r, now, w);
    Redelivery.OneThingToDo(db, PaymentFailed(p), r, now, w);
    if OpensACase(db, p, w) {
      FailureOpens(db, mid, ms[0], p, r, now, w);
    } else if ms != [] {
      assert ms == [Annotate(r.existing.value, RepeatFailure(p.id))];
      NotingDoes(mid, r.existing.value, RepeatFailure(p.id), w);
    }
  }

  lemma FailureOpens(db: Db, mid: Db, m: Move, p: PaymentEntity, r: Replies, now: int, w: World)
    requires Truthful(db, PaymentFailed(p), r, w) && OpensACase(db, p, w)
    requires mid.cases == db.cases && mid.audit == db.audit && mid.log == db.log && mid.calls == db.calls
    requires OnCases(db, PaymentFailed(p), r, now, w) == [m] && m.OpenCase? && m.caseId == r.newId && Legal(db, m, w)
    ensures FailsInto(db, Run(mid, [m], w), p, r, now, w)
  {
    assert Legal(mid, m, w);
    OpeningDoes(mid, m.caseId, m.row, m.note, w);
    if SubscriptionOf(p, w) == "" {
      assert Matches(db.customers[r.matched], p) && IsPayer(db.customers[r.matched], p);
      assert m.row.customerId == r.matched;
    }
  }

  // ------------------------------------------------------------ the mirrored rows

  /** The row of the payment an event carries, with the subscription and customer known for
      it. */
  predicate PaymentMirrored(db: Db, d: Db, ev: Event, w: World) {
    match ev
    case PaymentFailed(p) => PaymentStored(db, d, p, SubscriptionOf(p, w), PayerOf(p, w))
    case PaymentArrived(p) => PaymentStored(db, d, p, SubscriptionOf(p, w), PayerOf(p, w))
    case Charged(s, p) => PaymentStored(db, d, p, s.id, s.customerId)
    case PaymentAuthorized(p) => PaymentStored(db, d, p, "", "")
    case LinkPaid(_, _, p) => PaymentStored(db, d, p, "", "")
    case OrderPaid(_, p) => PaymentStored(db, d, p, "", "")
    case _ => d.payments == db.payments
  }

  predicate PaymentStored(db: Db, d: Db, p: PaymentEntity, subscriptionId: string, customerId: string) {
    d.payments == db.payments[p.id := Payment(p.invoiceId, p.orderId, subscriptionId, customerId, p.amount, p.mirror)]
  }

  /** The row of the subscription an event carries; a failed charge fetches one it does not
      know. */
  predicate SubscriptionMirrored(db: Db, d: Db, ev: Event, r: Replies, w: World) {
    var missing := if ev.PaymentFailed? then SubscriptionOf(ev.payment, w) else "";
    if ev.Pending? || ev.Halted? || ev.Charged? || ev.SubscriptionAuthenticated? then
      SubscriptionStored(db, d, ev.subscription.id, ev.subscription)
    else if missing != "" && missing !in db.subscriptions then
      SubscriptionStored(db, d, missing, r.subscription)
    else d.subscriptions == db.subscriptions
  }

  predicate SubscriptionStored(db: Db, d: Db, id: string, s: SubscriptionEntity) {
    d.subscriptions == db.subscriptions[id := Subscription(s.customerId, s.mirror)]
  }

  /** The customer of a failed charge or an authenticated subscription, fetched if unknown;
      nobody else is touched. */
  predicate CustomerMirrored(db: Db, d: Db, ev: Event, r: Replies, w: World) {
    var id := if ev.PaymentFailed? && SubscriptionOf(ev.payment, w) != "" then PayerOf(ev.payment, w)
              else if ev.SubscriptionAuthenticated? then ev.subscription.customerId
              else "";
    d.customers == if id == "" || id in db.customers then db.customers
                   else db.customers[id := Customer(r.customer.contact, r.customer.email, false, false, None)]
  }

  predicate Mirrored(db: Db, d: Db, ev: Event, r: Replies, w: World) {
    PaymentMirrored(db, d, ev, w) && SubscriptionMirrored(db, d, ev, r, w) && CustomerMirrored(db, d, ev, r, w)
  }

  /** Storing a row, spelt out. */
  function Stored(d: Db, m: Move): Db {
    match m
    case PutPayment(id, p) => d.(payments := d.payments[id := p])
    case PutSubscription(id, v) => d.(subscriptions := d.subscriptions[id := v])
    case PutCustomer(id, phone, email) => d.(customers := Refreshed(d.customers, id, phone, email))
    case _ => d
  }

  function StoredAll(d: Db, ms: seq<Move>): Db
    decreases |ms|
  {
    if ms == [] then d else StoredAll(Stored(d, ms[0]), ms[1..])
  }

  lemma PutIsStored(d: Db, m: Move, w: World)
    requires Redelivery.IsPut(m)
    ensures Apply(d, m, w) == Stored(d, m)
  {
  }

  lemma {:induction false} PutsAreStored(d: Db, ms: seq<Move>, w: World)
    requires forall m | m in ms :: Redelivery.IsPut(m)
    ensures Run(d, ms, w) == StoredAll(d, ms)
    decreases |ms|
  {
    if ms != [] {
      assert ms == [ms[0]] + ms[1..];
      assert [ms[0]][..0] == [];
      RunsCompose(d, [ms[0]], ms[1..], w);
      PutIsStored(d, ms[0], w);
      PutsAreStored(Apply(d, ms[0], w), ms[1..], w);
    }
  }

  lemma FewAreStored(d: Db, a: Move, b: Move, c: Move)
    ensures StoredAll(d, [a]) == Stored(d, a)
    ensures StoredAll(d, [a, b]) == Stored(Stored(d, a), b)
    ensures StoredAll(d, [a, b, c]) == Stored(Stored(Stored(d, a), b), c)
  {
    var d1, d2 := Stored(d, a), Stored(Stored(d, a), b);
    assert [a, b] == [a] + [b] && [a, b, c] == [a] + ([b] + [c]);
    StoredFirst(d, a, []);
    StoredFirst(d, a, [b]);
    StoredFirst(d, a, [b] + [c]);
    StoredFirst(d1, b, []);
    StoredFirst(d1, b, [c]);
    StoredFirst(d2, c, []);
  }

  lemma StoredFirst(d: Db, a: Move, ms: seq<Move>)
    ensures StoredAll(d, [a] + ms) == StoredAll(Stored(d, a), ms)
    ensures [a] + [] == [a]
  {
    assert ([a] + ms)[1..] == ms;
  }

  /** The rows a failed payment stores, listed. */
  lemma FailureRows(db: Db, p: PaymentEntity, r: Replies, w: World)
    ensures var inv := InvoiceOf(p, w);
            var put := PutPaymentOf(p, inv.subscriptionId, inv.customerId);
            var cu := PutCustomer(r.customer.id, r.customer.contact, r.customer.email);
            var sub := PutSubscriptionOf(r.subscription);
            var knowsCustomer := inv.customerId == "" || inv.customerId in db.customers;
            Mirror(db, PaymentFailed(p), r, w) ==
              if inv.subscriptionId == "" || (knowsCustomer && inv.subscriptionId in db.subscriptions) then [put]
              else if knowsCustomer then [put, sub]
              else if inv.subscriptionId in db.subscriptions then [put, cu]
              else [put, cu, sub]
  {
  }

  lemma FailureIsStored(db: Db, p: PaymentEntity, r: Replies, w: World)
    requires Truthful(db, PaymentFailed(p), r, w)
    ensures Mirrored(db, StoredAll(db, Mirror(db, PaymentFailed(p), r, w)), PaymentFailed(p), r, w)
  {
    var inv := InvoiceOf(p, w);
    var put := PutPaymentOf(p, inv.subscriptionId, inv.customerId);
    var cu, sub := PutCustomer(r.customer.id, r.customer.contact, r.customer.email), PutSubscriptionOf(r.subscription);
    FailureRows(db, p, r, w);
    FewAreStored(db, put, cu, sub);
    FewAreStored(db, put, sub, sub);
  }

  lemma RowsAreStored(db: Db, ev: Event, r: Replies, w: World)
    requires Truthful(db, ev, r, w)
    ensures Mirrored(db, StoredAll(db, Mirror(db, ev, r, w)), ev, r, w)
  {
    var ms := Mirror(db, ev, r, w);
    if ev.PaymentFailed? {
      FailureIsStored(db, ev.payment, r, w);
    } else {
      FewAreStored(db, ms[0], ms[|ms| - 1], ms[0]);
      assert ms == [ms[0]] || ms == [ms[0], ms[1]];
    }
  }

  lemma {:induction false} CasesMovesKeepRows(d: Db, ms: seq<Move>, w: World)
    requires forall m | m in ms :: m.Recover? || m.Halt? || m.Annotate? || m.OpenCase?
    ensures var e := Run(d, ms, w);
            e.payments == d.payments && e.subscriptions == d.subscriptions && e.customers == d.customers
    decreases |ms|
  {
    if ms != [] {
      assert ms == ms[..|ms| - 1] + [ms[|ms| - 1]];
      CasesMovesKeepRows(d, ms[..|ms| - 1], w);
      assert ms[|ms| - 1] in ms;
    }
  }

  /** What every event mirrors of its payment, its subscription and its customer. */
  lemma EventsAreMirrored(db: Db, ev: Event, r: Replies, now: int, w: World)
    requires Truthful(db, ev, r, w)
    ensures Mirrored(db, Handle(db, ev, r, now, w), ev, r, w)
  {
    RowsAreStored(db, ev, r, w);
    Redelivery.MirrorIsPuts(db, ev, r, w);
    PutsAreStored(db, Mirror(db, ev, r, w), w);
    CasesMovesKeepRows(Run(db, Mirror(db, ev, r, w), w), OnCases(db, ev, r, now, w), w);
    RunsCompose(db, Mirror(db, ev, r, w), OnCases(db, ev, r, now, w), w);
  }
}

/** app/webhooks/handlers.py on the row objects: each handler leaves the tables that
    Webhooks.Handle says. */
module Handlers {
  import opened Domain
  import opened Lifecycle
  import opened Webhooks
  import opened Session
  import Attribution
  import Redelivery

  lemma PutsSpeltOut(db: Db, w: World)
    ensures forall id, p {:trigger PutPayment(id, p)} ::
            Apply(db, PutPayment(id, p), w) == db.(payments := db.payments[id := p])
    ensures forall id, v {:trigger PutSubscription(id, v)} ::
            Apply(db, PutSubscription(id, v), w) == db.(subscriptions := db.subscriptions[id := v])
    ensures forall id, phone, email {:trigger PutCustomer(id, phone, email)} ::
              Apply(db, PutCustomer(id, phone, email), w) == db.(customers := Refreshed(db.customers, id, phone, email))
  {
  }

  // ------------------------------------------------------------ single cases

  ghost function RecoveredDb(db: Db, i: nat, credit: Credit): Db
    requires i in db.cases
  {
    if db.cases[i].status.Recovered? then db
    else PutRows(db, i, db.cases[i].(status := Recovered, credit := Some(credit)), "", None, db.calls,
                 db.audit + [AuditRow(i, PaymentCaptured(credit.paymentId, credit.amount))], db.log)
  }

  lemma RecoveredIsTheMove(db: Db, i: nat, credit: Credit, w: World)
    requires i in db.cases
    ensures Apply(db, Recover(i, credit), w) == RecoveredDb(db, i, credit)
  {
    var note := PaymentCaptured(credit.paymentId, credit.amount);
    assert Rows(i, [note]) == [AuditRow(i, note)];
    assert db.log + [] == db.log;
  }

  /** `_record_recovery`: credited once, with its audit row beside it. */
  method RecordRecovery(s: Tables, i: nat, credit: Credit)
    requires s.Valid() && i in s.cases
    modifies s`audit, s.Records()
    ensures s.Valid() && s.cases == old(s.cases) && s.customers == old(s.customers)
    ensures s.Snap() == RecoveredDb(old(s.Snap()), i, credit)
  {
    var c := s.cases[i];
    var marked := s.MarkRecovered(c, credit);
    if marked { s.LogAction(c, PaymentCaptured(credit.paymentId, credit.amount)); }
    s.OneCaseMoved(i, null);
    if !marked { assert s.Snap().cases == old(s.Snap()).cases; }
  }

  ghost function HaltedDb(db: Db, i: nat, at: int): Db
    requires i in db.cases
  {
    PutRows(db, i, db.cases[i].(haltedAt := Some(at)), "", None, db.calls,
            db.audit + [AuditRow(i, Note.SubscriptionHalted)], db.log)
  }

  lemma HaltedIsTheMove(db: Db, i: nat, at: int, w: World)
    requires i in db.cases
    ensures Apply(db, Halt(i, at), w) == HaltedDb(db, i, at)
  {
    assert Rows(i, [Note.SubscriptionHalted]) == [AuditRow(i, Note.SubscriptionHalted)];
    assert db.log + [] == db.log;
  }

  method HaltCase(s: Tables, i: nat, at: int)
    requires s.Valid() && i in s.cases
    modifies s`audit, s.Records()
    ensures s.Valid() && s.cases == old(s.cases) && s.customers == old(s.customers)
    ensures s.Snap() == HaltedDb(old(s.Snap()), i, at)
  {
    var c := s.cases[i];
    c.haltedAt := Some(at);
    s.LogAction(c, Note.SubscriptionHalted);
    s.OneCaseMoved(i, null);
  }

  method NoteOnCase(s: Tables, i: nat, note: Note)
    requires s.Valid() && i in s.cases
    modifies s`audit
    ensures s.Valid() && s.Snap() == old(s.Snap()).(audit := old(s.audit) + [AuditRow(i, note)])
  {
    s.LogAction(s.cases[i], note);
  }

  lemma NotedIsTheMove(db: Db, i: nat, note: Note, w: World)
    requires i in db.cases && PlainNote(note)
    ensures Apply(db, Annotate(i, note), w) == db.(audit := db.audit + [AuditRow(i, note)])
  {
    assert Rows(i, [note]) == [AuditRow(i, note)];
    assert db.log + [] == db.log;
    assert db.cases[i := db.cases[i]] == db.cases;
  }

  // --------------------------------------------------- the cases a query found

  lemma RecoverOneMore(db: Db, ids: seq<nat>, credit: Credit, n: nat, w: World)
    requires n < |ids| && ids[n] in Run(db, RecoverAll(ids[..n], credit), w).cases
    ensures Run(db, RecoverAll(ids[..n + 1], credit), w) ==
            RecoveredDb(Run(db, RecoverAll(ids[..n], credit), w), ids[n], credit)
  {
    assert RecoverAll(ids[..n + 1], credit) == RecoverAll(ids[..n], credit) + [Recover(ids[n], credit)];
    RunOneMore(db, RecoverAll(ids[..n], credit), Recover(ids[n], credit), w);
    RecoveredIsTheMove(Run(db, RecoverAll(ids[..n], credit), w), ids[n], credit, w);
  }

  method RecoverCases(s: Tables, ids: seq<nat>, credit: Credit, ghost w: World)
    requires s.Valid() && forall i | i in ids :: i in s.cases
    modifies s`audit, s.Records()
    ensures s.Valid() && s.cases == old(s.cases) && s.customers == old(s.customers)
    ensures s.Snap() == Run(old(s.Snap()), RecoverAll(ids, credit), w)
  {
    ghost var db := s.Snap();
    assert RecoverAll(ids[..0], credit) == [];
    for n := 0 to |ids|
      invariant s.Valid() && s.cases == old(s.cases) && s.customers == old(s.customers)
      invariant s.Snap() == Run(db, RecoverAll(ids[..n], credit), w)
    {
      RecoverOneMore(db, ids, credit, n, w);
      RecordRecovery(s, ids[n], credit);
    }
    assert ids[..|ids|] == ids;
  }

  lemma HaltOneMore(db: Db, ids: seq<nat>, at: int, n: nat, w: World)
    requires n < |ids| && ids[n] in Run(db, HaltAll(ids[..n], at), w).cases
    ensures Run(db, HaltAll(ids[..n + 1], at), w) == HaltedDb(Run(db, HaltAll(ids[..n], at), w), ids[n], at)
  {
    assert HaltAll(ids[..n + 1], at) == HaltAll(ids[..n], at) + [Halt(ids[n], at)];
    RunOneMore(db, HaltAll(ids[..n], at), Halt(ids[n], at), w);
    HaltedIsTheMove(Run(db, HaltAll(ids[..n], at), w), ids[n], at, w);
  }

  method HaltCases(s: Tables, ids: seq<nat>, at: int, ghost w: World)
    requires s.Valid() && forall i | i in ids :: i in s.cases
    modifies s`audit, s.Records()
    ensures s.Valid() && s.cases == old(s.cases) && s.customers == old(s.customers)
    ensures s.Snap() == Run(old(s.Snap()), HaltAll(ids, at), w)
  {
    ghost var db := s.Snap();
    assert HaltAll(ids[..0], at) == [];
    for n := 0 to |ids|
      invariant s.Valid() && s.cases == old(s.cases) && s.customers == old(s.customers)
      invariant s.Snap() == Run(db, HaltAll(ids[..n], at), w)
    {
      HaltOneMore(db, ids, at, n, w);
      HaltCase(s, ids[n], at);
    }
    assert ids[..|ids|] == ids;
  }

  lemma AnnotateOneMore(db: Db, ids: seq<nat>, note: Note, n: nat, w: World)
    requires n < |ids| && ids[n] in Run(db, AnnotateAll(ids[..n], note), w).cases
    requires PlainNote(note)
    ensures var d := Run(db, AnnotateAll(ids[..n], note), w);
            Run(db, AnnotateAll(ids[..n + 1], note), w) == d.(audit := d.audit + [AuditRow(ids[n], note)])
  {
    assert AnnotateAll(ids[..n + 1], note) == AnnotateAll(ids[..n], note) + [Annotate(ids[n], note)];
    RunOneMore(db, AnnotateAll(ids[..n], note), Annotate(ids[n], note), w);
    NotedIsTheMove(Run(db, AnnotateAll(ids[..n], note), w), ids[n], note, w);
  }

  method NoteOnCases(s: Tables, ids: seq<nat>, note: Note, ghost w: World)
    requires s.Valid() && forall i | i in ids :: i in s.cases
    requires PlainNote(note)
    modifies s`audit
    ensures s.Valid() && s.Snap() == Run(old(s.Snap()), AnnotateAll(ids, note), w)
  {
    ghost var db := s.Snap();
    assert AnnotateAll(ids[..0], note) == [];
    for n := 0 to |ids|
      invariant s.Valid() && s.Snap() == Run(db, AnnotateAll(ids[..n], note), w)
    {
      AnnotateOneMore(db, ids, note, n, w);
      NoteOnCase(s, ids[n], note);
    }
    assert ids[..|ids|] == ids;
  }

  // ------------------------------------------------------------- failed payments

  ghost function OpenedDb(db: Db, i: nat, row: Case, note: Note): Db {
    db.(cases := db.cases[i := row], audit := db.audit + [AuditRow(i, note)])
  }

  lemma OpenedIsTheMove(db: Db, i: nat, row: Case, note: Note, w: World)
    requires Legal(db, OpenCase(i, row, note), w)
    ensures Apply(db, OpenCase(i, row, note), w) == OpenedDb(db, i, row, note)
  {
    assert Rows(i, [note]) == [AuditRow(i, note)];
    assert db.log + [] == db.log;
  }

  /** Opens a case and notes it, unless the payment has one. */
  method OpenNoted(s: Tables, newId: nat, row: Case, note: Note)
    requires s.Valid() && newId !in s.cases
    modifies s`cases, s`audit
    ensures s.Valid() && fresh(s.Records() - old(s.Records()))
    ensures s.Snap() == if PaymentKnown(old(s.Snap()), row.paymentId) then old(s.Snap())
                        else OpenedDb(old(s.Snap()), newId, row, note)
  {
    ghost var db := s.Snap();
    var c := s.OpenRecoveryCase(newId, row);
    if c != null {
      NoteOnCase(s, newId, note);
    }
  }

  /** `_ensure_customer`: fetched and stored only if the id is unknown. */
  method EnsureCustomerRow(s: Tables, id: string, fetched: CustomerEntity, ghost w: World, ghost r: Replies)
    requires s.Valid() && r.customer == fetched
    modifies s`customers, s.Records()
    ensures s.Valid() && fresh(s.Records() - old(s.Records())) && s.cases == old(s.cases)
    ensures s.Snap() == Run(old(s.Snap()), EnsureCustomer(old(s.Snap()), id, r), w)
  {
    ghost var db := s.Snap();
    Redelivery.RunThree(db, EnsureCustomer(db, id, r), w);
    PutsSpeltOut(db, w);
    if id != "" && id !in s.customers { s.UpsertCustomer(fetched.id, fetched.contact, fetched.email); }
  }

  method EnsureSubscriptionRow(s: Tables, id: string, fetched: SubscriptionEntity, ghost w: World, ghost r: Replies)
    requires s.Valid() && r.subscription == fetched
    modifies s`subscriptions
    ensures s.Valid() && s.Snap() == Run(old(s.Snap()), EnsureSubscription(old(s.Snap()), id, r), w)
  {
    ghost var db := s.Snap();
    Redelivery.RunThree(db, EnsureSubscription(db, id, r), w);
    PutsSpeltOut(db, w);
    if id !in s.subscriptions { s.UpsertSubscription(fetched.id, Subscription(fetched.customerId, fetched.mirror)); }
  }

  method StorePayment(s: Tables, p: PaymentEntity, subscriptionId: string, customerId: string, ghost w: World)
    requires s.Valid()
    modifies s`payments
    ensures s.Valid() && s.Snap() == Apply(old(s.Snap()), PutPaymentOf(p, subscriptionId, customerId), w)
  {
    PutsSpeltOut(s.Snap(), w);
    s.UpsertPayment(p.id, Payment(p.invoiceId, p.orderId, subscriptionId, customerId, p.amount, p.mirror));
  }

  method StoreSubscription(s: Tables, v: SubscriptionEntity, ghost w: World)
    requires s.Valid()
    modifies s`subscriptions
    ensures s.Valid() && s.Snap() == Apply(old(s.Snap()), PutSubscriptionOf(v), w)
  {
    PutsSpeltOut(s.Snap(), w);
    s.UpsertSubscription(v.id, Subscription(v.customerId, v.mirror));
  }

  // ------------------------------------------------------------- the handlers

  lemma Twofold(db: Db, a: seq<Move>, b: seq<Move>, w: World)
    ensures Run(db, a + b, w) == Run(Run(db, a, w), b, w)
    ensures |a| == 1 ==> Run(db, a, w) == Apply(db, a[0], w)
    ensures |a| == 2 ==> Run(db, a, w) == Apply(Apply(db, a[0], w), a[1], w)
  {
    RunsCompose(db, a, b, w);
    if |a| <= 3 { Redelivery.RunThree(db, a, w); }
  }

  /** A payment that mirrors one row: the row, then the credits, and whom they reach. */
  lemma PaidThrough(db: Db, ev: Event, put: Move, r: Replies, now: int, w: World)
    requires Attribution.IsPayment(ev) && Truthful(db, ev, r, w) && Mirror(db, ev, r, w) == [put]
    ensures Handle(db, ev, r, now, w) ==
            Run(Apply(db, put, w), RecoverAll(Paid(db, ev, r), CreditOf(ev.payment, now)), w)
    ensures Attribution.CreditsExactly(db, Handle(db, ev, r, now, w), ev, now, w)
  {
    Attribution.PaymentsCreditExactly(db, ev, r, now, w);
    Twofold(db, [put], RecoverAll(Paid(db, ev, r), CreditOf(ev.payment, now)), w);
  }

  /** The row of the payment, and the credits of the cases it pays for. */
  method StoreAndCredit(s: Tables, p: PaymentEntity, subscriptionId: string, customerId: string, ids: seq<nat>,
                        now: int, w: World, ghost ev: Event, ghost r: Replies)
    requires s.Valid() && Attribution.IsPayment(ev) && ev.payment == p && Truthful(s.Snap(), ev, r, w)
    requires Mirror(s.Snap(), ev, r, w) == [PutPaymentOf(p, subscriptionId, customerId)] && ids == Paid(s.Snap(), ev, r)
    modifies s`payments, s`audit, s.Records()
    ensures s.Valid() && s.Snap() == Handle(old(s.Snap()), ev, r, now, w)
    ensures Attribution.CreditsExactly(old(s.Snap()), s.Snap(), ev, now, w)
  {
    PaidThrough(s.Snap(), ev, PutPaymentOf(p, subscriptionId, customerId), r, now, w);
    Attribution.PaidAreNamed(s.Snap(), ev, r, w);
    StorePayment(s, p, subscriptionId, customerId, w);
    RecoverCases(s, ids, CreditOf(p, now), w);
  }

  lemma FirstIsAMember(ids: seq<nat>)
    ensures ids == [] || ids[0] in ids
  {
  }

  lemma NobodyWanted(db: Db, ev: Event, r: Replies, w: World)
    requires Truthful(db, ev, r, w) && forall i | i in db.cases :: !Wanted(ev, db.cases[i], w)
    ensures r.found == []
  {
    FirstIsAMember(r.found);
  }

  /** The case of the note if there is one, else the active cases of the invoice's
      subscription. */
  method CasesPaidFor(s: Tables, p: PaymentEntity, inv: Invoice, r: Replies, ghost w: World) returns (ids: seq<nat>)
    requires Truthful(s.Snap(), PaymentArrived(p), r, w) && inv == InvoiceOf(p, w)
    ensures ids == Paid(s.Snap(), PaymentArrived(p), r)
  {
    if p.note.NoNote? {
      if inv.subscriptionId != "" { return r.found; }
      NobodyWanted(s.Snap(), PaymentArrived(p), r, w);
      return [];
    }
    return if p.note.CaseNote? && p.note.id >= 0 && p.note.id in s.cases then [p.note.id] else [];
  }

  /** The handlers that mirror one row and credit the cases the event pays for. */
  method HandlePaymentCaptured(s: Tables, p: PaymentEntity, r: Replies, now: int, w: World)
    requires s.Valid() && Truthful(s.Snap(), PaymentArrived(p), r, w)
    modifies s`payments, s`audit, s.Records()
    ensures s.Valid() && s.Snap() == Handle(old(s.Snap()), PaymentArrived(p), r, now, w)
    ensures Attribution.CreditsExactly(old(s.Snap()), s.Snap(), PaymentArrived(p), now, w)
  {
    var inv := if p.invoiceId != "" then w.resolve(p.invoiceId) else Invoice("", "");
    var ids := CasesPaidFor(s, p, inv, r, w);
    StoreAndCredit(s, p, inv.subscriptionId, inv.customerId, ids, now, w, PaymentArrived(p), r);
  }

  method HandlePaymentLinkPaid(s: Tables, reference: string, note: NoteField, p: PaymentEntity, r: Replies, now: int,
                               w: World)
    requires s.Valid() && Truthful(s.Snap(), LinkPaid(reference, note, p), r, w)
    modifies s`payments, s`audit, s.Records()
    ensures s.Valid() && s.Snap() == Handle(old(s.Snap()), LinkPaid(reference, note, p), r, now, w)
    ensures Attribution.CreditsExactly(old(s.Snap()), s.Snap(), LinkPaid(reference, note, p), now, w)
  {
    var id := PaidCase(reference, note);
    var ids: seq<nat> := if id.Some? && id.value >= 0 && id.value in s.cases then [id.value] else [];
    StoreAndCredit(s, p, "", "", ids, now, w, LinkPaid(reference, note, p), r);
  }

  method HandleOrderPaid(s: Tables, orderId: string, p: PaymentEntity, r: Replies, now: int, w: World)
    requires s.Valid() && Truthful(s.Snap(), OrderPaid(orderId, p), r, w)
    modifies s`payments, s`audit, s.Records()
    ensures s.Valid() && s.Snap() == Handle(old(s.Snap()), OrderPaid(orderId, p), r, now, w)
    ensures Attribution.CreditsExactly(old(s.Snap()), s.Snap(), OrderPaid(orderId, p), now, w)
  {
    StoreAndCredit(s, p, "", "", r.found, now, w, OrderPaid(orderId, p), r);
  }

  method HandleSubscriptionCharged(s: Tables, v: SubscriptionEntity, p: PaymentEntity, r: Replies, now: int, w: World)
    requires s.Valid() && Truthful(s.Snap(), Event.Charged(v, p), r, w)
    modifies s`payments, s`subscriptions, s`audit, s.Records()
    ensures s.Valid() && s.Snap() == Handle(old(s.Snap()), Event.Charged(v, p), r, now, w)
    ensures Attribution.CreditsExactly(old(s.Snap()), s.Snap(), Event.Charged(v, p), now, w)
  {
    ghost var db, ev := s.Snap(), Event.Charged(v, p);
    Attribution.PaymentsCreditExactly(db, ev, r, now, w);
    StoreSubscription(s, v, w);
    StorePayment(s, p, v.id, v.customerId, w);
    RecoverCases(s, r.found, CreditOf(p, now), w);
    Twofold(db, Mirror(db, ev, r, w), RecoverAll(r.found, CreditOf(p, now)), w);
  }

  method HandleSubscriptionPending(s: Tables, v: SubscriptionEntity, r: Replies, now: int, w: World)
    requires s.Valid() && Truthful(s.Snap(), Pending(v), r, w)
    modifies s`subscriptions, s`audit
    ensures s.Valid() && s.Snap() == Handle(old(s.Snap()), Pending(v), r, now, w)
  {
    ghost var db, ev := s.Snap(), Pending(v);
    StoreSubscription(s, v, w);
    NoteOnCases(s, r.found, Note.SubscriptionPending, w);
    Twofold(db, Mirror(db, ev, r, w), AnnotateAll(r.found, Note.SubscriptionPending), w);
  }

  method HandleSubscriptionHalted(s: Tables, v: SubscriptionEntity, r: Replies, now: int, w: World)
    requires s.Valid() && Truthful(s.Snap(), Halted(v), r, w)
    modifies s`subscriptions, s`audit, s.Records()
    ensures s.Valid() && s.Snap() == Handle(old(s.Snap()), Halted(v), r, now, w)
  {
    ghost var db, ev := s.Snap(), Halted(v);
    StoreSubscription(s, v, w);
    HaltCases(s, r.found, now, w);
    Twofold(db, Mirror(db, ev, r, w), HaltAll(r.found, now), w);
  }

  method HandleSubscriptionAuthenticated(s: Tables, v: SubscriptionEntity, r: Replies, now: int, w: World)
    requires s.Valid() && Truthful(s.Snap(), SubscriptionAuthenticated(v), r, w)
    modifies s`subscriptions, s`customers, s.Records()
    ensures s.Valid() && s.Snap() == Handle(old(s.Snap()), SubscriptionAuthenticated(v), r, now, w)
  {
    ghost var db, ev := s.Snap(), SubscriptionAuthenticated(v);
    StoreSubscription(s, v, w);
    EnsureCustomerRow(s, v.customerId, r.customer, w, r);
    Twofold(db, [PutSubscriptionOf(v)], EnsureCustomer(db, v.customerId, r), w);
    assert EnsureCustomer(Apply(db, PutSubscriptionOf(v), w), v.customerId, r) == EnsureCustomer(db, v.customerId, r);
    assert Moves(db, ev, r, now, w) == [PutSubscriptionOf(v)] + EnsureCustomer(db, v.customerId, r);
  }

  method HandlePaymentAuthorized(s: Tables, p: PaymentEntity, r: Replies, now: int, w: World)
    requires s.Valid() && Truthful(s.Snap(), PaymentAuthorized(p), r, w)
    modifies s`payments
    ensures s.Valid() && s.Snap() == Handle(old(s.Snap()), PaymentAuthorized(p), r, now, w)
  {
    ghost var db, ev := s.Snap(), PaymentAuthorized(p);
    StorePayment(s, p, "", "", w);
    Twofold(db, Mirror(db, ev, r, w), [], w);
  }

  /** The tables after the mirrored rows of a failed payment are stored, one helper
      at a time. */
  ghost function FailureStored(db: Db, p: PaymentEntity, r: Replies, w: World): Db {
    var inv := InvoiceOf(p, w);
    var d1 := Apply(db, PutPaymentOf(p, inv.subscriptionId, inv.customerId), w);
    if inv.subscriptionId == "" then d1
    else
      var d2 := Run(d1, EnsureCustomer(d1, inv.customerId, r), w);
      Run(d2, EnsureSubscription(d2, inv.subscriptionId, r), w)
  }

  lemma FailureStoredIsTheMirror(db: Db, p: PaymentEntity, r: Replies, w: World)
    ensures FailureStored(db, p, r, w) == Run(db, Mirror(db, PaymentFailed(p), r, w), w)
  {
    var inv := InvoiceOf(p, w);
    var put := PutPaymentOf(p, inv.subscriptionId, inv.customerId);
    PutsSpeltOut(db, w);
    Redelivery.RunThree(db, [put], w);
    if inv.subscriptionId == "" {
      assert Mirror(db, PaymentFailed(p), r, w) == [put];
    } else {
      var d1 := Apply(db, put, w);
      var cu, sub := EnsureCustomer(db, inv.customerId, r), EnsureSubscription(db, inv.subscriptionId, r);
      assert Mirror(db, PaymentFailed(p), r, w) == [put] + (cu + sub);
      RunsCompose(db, [put], cu + sub, w);
      RunsCompose(d1, cu, sub, w);
      Redelivery.RunThree(d1, cu, w);
      PutsSpeltOut(d1, w);
    }
  }

  lemma FailureOnCases(db: Db, d: Db, p: PaymentEntity, r: Replies, now: int, w: World)
    requires Truthful(db, PaymentFailed(p), r, w)
    requires d == db.(customers := d.customers, payments := d.payments, subscriptions := d.subscriptions)
    ensures Run(d, OnCases(db, PaymentFailed(p), r, now, w), w) == FailureWorked(db, d, p, r, now, w)
  {
    var ms := OnCases(db, PaymentFailed(p), r, now, w);
    Redelivery.OneThingToDo(db, PaymentFailed(p), r, now, w);
    if ms != [] {
      Redelivery.RunThree(d, ms, w);
      if ms[0].OpenCase? {
        assert Legal(d, ms[0], w);
        OpenedIsTheMove(d, ms[0].caseId, ms[0].row, ms[0].note, w);
      } else {
        NotedIsTheMove(d, r.existing.value, RepeatFailure(p.id), w);
      }
    }
  }

  /** What is left to do on the cases once the mirrored rows are stored in `d`. */
  ghost function FailureWorked(db: Db, d: Db, p: PaymentEntity, r: Replies, now: int, w: World): Db
    requires Truthful(db, PaymentFailed(p), r, w)
  {
    var inv := InvoiceOf(p, w);
    if inv.subscriptionId == "" then
      if r.matched == "" || PaymentKnown(db, p.id) then d
      else OpenedDb(d, r.newId, NewCase(p, "", r.matched, Checkout, Some(now + w.st.checkoutGraceMinutes * 60), now),
                    Note.CheckoutAbandoned)
    else if r.existing.Some? then
      if db.cases[r.existing.value].paymentId == p.id then d
      else d.(audit := d.audit + [AuditRow(r.existing.value, RepeatFailure(p.id))])
    else if PaymentKnown(db, p.id) then d
    else OpenedDb(d, r.newId, NewCase(p, inv.subscriptionId, inv.customerId, Source.Razorpay, None, now), CaseOpened)
  }

  lemma FailureHandled(db: Db, p: PaymentEntity, r: Replies, now: int, w: World)
    requires Truthful(db, PaymentFailed(p), r, w)
    ensures var d := FailureStored(db, p, r, w);
            && d == db.(customers := d.customers, payments := d.payments, subscriptions := d.subscriptions)
            && Handle(db, PaymentFailed(p), r, now, w) == FailureWorked(db, d, p, r, now, w)
  {
    var ev := PaymentFailed(p);
    var d := FailureStored(db, p, r, w);
    FailureStoredIsTheMirror(db, p, r, w);
    Redelivery.MirrorIsPuts(db, ev, r, w);
    Redelivery.PutsDo(db, Mirror(db, ev, r, w), w);
    FailureOnCases(db, d, p, r, now, w);
    RunsCompose(db, Mirror(db, ev, r, w), OnCases(db, ev, r, now, w), w);
  }

  /** The first half of `handle_payment_failed`: the mirrored rows. */
  method StoreFailure(s: Tables, p: PaymentEntity, inv: Invoice, r: Replies, w: World)
    requires s.Valid() && inv == InvoiceOf(p, w)
    modifies s`payments, s`customers, s`subscriptions, s.Records()
    ensures s.Valid() && fresh(s.Records() - old(s.Records()))
    ensures s.Snap() == FailureStored(old(s.Snap()), p, r, w)
  {
    StorePayment(s, p, inv.subscriptionId, inv.customerId, w);
    if inv.subscriptionId != "" {
      EnsureCustomerRow(s, inv.customerId, r.customer, w, r);
      EnsureSubscriptionRow(s, inv.subscriptionId, r.subscription, w, r);
    }
  }

  /** `_open_checkout_case`. */
  method WorkCheckout(s: Tables, p: PaymentEntity, r: Replies, now: int, w: World, ghost db: Db)
    requires s.Valid() && Truthful(db, PaymentFailed(p), r, w) && InvoiceOf(p, w).subscriptionId == ""
    requires s.Snap().cases == db.cases
    modifies s`cases, s`audit
    ensures s.Valid() && s.Snap() == FailureWorked(db, old(s.Snap()), p, r, now, w)
  {
    assert forall i :: i in s.cases <==> i in s.Snap().cases;
    if r.matched != "" {
      OpenNoted(s, r.newId, NewCase(p, "", r.matched, Checkout, Some(now + w.st.checkoutGraceMinutes * 60), now),
                Note.CheckoutAbandoned);
    }
  }

  /** The case that chases the invoice already, noted unless it is of this payment. */
  method NoteFailure(s: Tables, p: PaymentEntity, r: Replies, now: int, w: World, ghost db: Db)
    requires s.Valid() && Truthful(db, PaymentFailed(p), r, w)
    requires InvoiceOf(p, w).subscriptionId != "" && r.existing.Some?
    requires s.Snap().cases == db.cases
    modifies s`audit
    ensures s.Valid() && s.Snap() == FailureWorked(db, old(s.Snap()), p, r, now, w)
  {
    assert forall i :: i in s.cases <==> i in s.Snap().cases;
    assert s.Snap().cases[r.existing.value].paymentId == s.cases[r.existing.value].paymentId;
    if s.cases[r.existing.value].paymentId != p.id { NoteOnCase(s, r.existing.value, RepeatFailure(p.id)); }
  }

  method OpenFailure(s: Tables, p: PaymentEntity, inv: Invoice, r: Replies, now: int, w: World, ghost db: Db)
    requires s.Valid() && Truthful(db, PaymentFailed(p), r, w)
    requires inv == InvoiceOf(p, w) && inv.subscriptionId != "" && r.existing.None?
    requires s.Snap().cases == db.cases
    modifies s`cases, s`audit
    ensures s.Valid() && s.Snap() == FailureWorked(db, old(s.Snap()), p, r, now, w)
  {
    assert forall i :: i in s.cases <==> i in s.Snap().cases;
    OpenNoted(s, r.newId, NewCase(p, inv.subscriptionId, inv.customerId, Source.Razorpay, None, now), CaseOpened);
  }

  /** The second half: the case, opened or noted. */
  method WorkFailure(s: Tables, p: PaymentEntity, inv: Invoice, r: Replies, now: int, w: World, ghost db: Db)
    requires s.Valid() && Truthful(db, PaymentFailed(p), r, w) && inv == InvoiceOf(p, w)
    requires s.Snap().cases == db.cases
    modifies s`cases, s`audit
    ensures s.Valid() && s.Snap() == FailureWorked(db, old(s.Snap()), p, r, now, w)
  {
    if inv.subscriptionId == "" { WorkCheckout(s, p, r, now, w, db); }
    else if r.existing.Some? { NoteFailure(s, p, r, now, w, db); }
    else { OpenFailure(s, p, inv, r, now, w, db); }
  }

  /** `handle_payment_failed`. */
  method HandlePaymentFailed(s: Tables, p: PaymentEntity, r: Replies, now: int, w: World)
    requires s.Valid() && Truthful(s.Snap(), PaymentFailed(p), r, w)
    modifies s, s.Records()
    ensures s.Valid() && s.Snap() == Handle(old(s.Snap()), PaymentFailed(p), r, now, w)
    ensures Attribution.FailsInto(old(s.Snap()), s.Snap(), p, r, now, w)
  {
    ghost var db := s.Snap();
    Attribution.FailuresBecomeCases(db, p, r, now, w);
    var inv := if p.invoiceId != "" then w.resolve(p.invoiceId) else Invoice("", "");
    FailureHandled(db, p, r, now, w);
    StoreFailure(s, p, inv, r, w);
    WorkFailure(s, p, inv, r, now, w, db);
  }
}

/** Razorpay delivers at least once: handling an event twice leaves the tables
    as handling it once. */
module Redelivery {
  import opened Domain
  import opened Lifecycle
  import opened Webhooks
  import Decimals
  import References

  /** The same tables, up to the value of a halt instant and extra audit rows. */
  predicate SameTables(a: Db, b: Db) {
    && a.customers == b.customers && a.payments == b.payments && a.subscriptions == b.subscriptions
    && a.calls == b.calls && a.log == b.log
    && a.cases.Keys == b.cases.Keys
    && (forall i | i in a.cases ::
          && b.cases[i] == a.cases[i].(haltedAt := b.cases[i].haltedAt)
          && (b.cases[i].haltedAt.Some? <==> a.cases[i].haltedAt.Some?))
    && a.audit <= b.audit
  }

  /** What is left when only the cases and the audit trail may differ. */
  predicate OnlyCasesDiffer(a: Db, b: Db) {
    && a.customers == b.customers && a.payments == b.payments && a.subscriptions == b.subscriptions
    && a.calls == b.calls && a.log == b.log
    && a.cases.Keys == b.cases.Keys && a.audit <= b.audit
  }

  function RecoveredRow(c: Case, credit: Credit): Case {
    if c.status.Recovered? then c else c.(status := Recovered, credit := Some(credit))
  }

  lemma RecoverDoes(db: Db, i: nat, credit: Credit, w: World)
    requires i in db.cases
    ensures var d := Apply(db, Recover(i, credit), w);
            OnlyCasesDiffer(db, d) && d.cases == db.cases[i := RecoveredRow(db.cases[i], credit)]
  {
  }

  lemma AnnotateDoes(db: Db, i: nat, note: Note, w: World)
    requires i in db.cases && PlainNote(note)
    ensures var d := Apply(db, Annotate(i, note), w);
            OnlyCasesDiffer(db, d) && d.cases == db.cases
  {
  }

  lemma HaltDoes(db: Db, i: nat, at: int, w: World)
    requires i in db.cases
    ensures var d := Apply(db, Halt(i, at), w);
            OnlyCasesDiffer(db, d) && d.cases == db.cases[i := db.cases[i].(haltedAt := Some(at))]
  {
  }

  lemma {:induction false} RecoverAllDoes(db: Db, ids: seq<nat>, credit: Credit, w: World)
    requires forall i | i in ids :: i in db.cases
    ensures var d := Run(db, RecoverAll(ids, credit), w);
            && OnlyCasesDiffer(db, d)
            && forall i | i in db.cases ::
                  d.cases[i] == if i in ids then RecoveredRow(db.cases[i], credit) else db.cases[i]
    decreases |ids|
  {
    if ids == [] {
      assert RecoverAll(ids, credit) == [];
    } else {
      var init, last := ids[..|ids| - 1], ids[|ids| - 1];
      assert ids == init + [last];
      RecoverAllDoes(db, init, credit, w);
      assert RecoverAll(ids, credit) == RecoverAll(init, credit) + [Recover(last, credit)];
      RunOneMore(db, RecoverAll(init, credit), Recover(last, credit), w);
      RecoverDoes(Run(db, RecoverAll(init, credit), w), last, credit, w);
    }
  }

  lemma {:induction false} AnnotateAllDoes(db: Db, ids: seq<nat>, note: Note, w: World)
    requires forall i | i in ids :: i in db.cases
    requires PlainNote(note)
    ensures var d := Run(db, AnnotateAll(ids, note), w);
            OnlyCasesDiffer(db, d) && d.cases == db.cases
    decreases |ids|
  {
    if ids == [] {
      assert AnnotateAll(ids, note) == [];
    } else {
      var init, last := ids[..|ids| - 1], ids[|ids| - 1];
      assert ids == init + [last];
      AnnotateAllDoes(db, init, note, w);
      assert AnnotateAll(ids, note) == AnnotateAll(init, note) + [Annotate(last, note)];
      RunOneMore(db, AnnotateAll(init, note), Annotate(last, note), w);
      AnnotateDoes(Run(db, AnnotateAll(init, note), w), last, note, w);
    }
  }

  lemma {:induction false} HaltAllDoes(db: Db, ids: seq<nat>, at: int, w: World)
    requires forall i | i in ids :: i in db.cases
    ensures var d := Run(db, HaltAll(ids, at), w);
            && OnlyCasesDiffer(db, d)
            && forall i | i in db.cases ::
                  d.cases[i] == if i in ids then db.cases[i].(haltedAt := Some(at)) else db.cases[i]
    decreases |ids|
  {
    if ids == [] {
      assert HaltAll(ids, at) == [];
    } else {
      var init, last := ids[..|ids| - 1], ids[|ids| - 1];
      assert ids == init + [last];
      HaltAllDoes(db, init, at, w);
      assert HaltAll(ids, at) == HaltAll(init, at) + [Halt(last, at)];
      RunOneMore(db, HaltAll(init, at), Halt(last, at), w);
      HaltDoes(Run(db, HaltAll(init, at), w), last, at, w);
    }
  }

  lemma RunThree(db: Db, ms: seq<Move>, w: World)
    requires |ms| <= 3
    ensures Run(db, ms, w) ==
            if ms == [] then db
            else if |ms| == 1 then Apply(db, ms[0], w)
            else if |ms| == 2 then Apply(Apply(db, ms[0], w), ms[1], w)
            else Apply(Apply(Apply(db, ms[0], w), ms[1], w), ms[2], w)
  {
    if ms != [] {
      var before := ms[..|ms| - 1];
      if before != [] {
        var b := before[..|before| - 1];
        if b != [] { assert b[..|b| - 1] == []; }
      }
    }
  }

  predicate IsPut(m: Move) { m.PutPayment? || m.PutSubscription? || m.PutCustomer? }

  predicate Holds(d: Db, m: Move)
    requires IsPut(m)
  {
    match m
    case PutPayment(id, p) => id in d.payments && d.payments[id] == p
    case PutSubscription(id, s) => id in d.subscriptions && d.subscriptions[id] == s
    case PutCustomer(id, _, _) => id in d.customers
  }

  /** No two of the moves put the same kind of row. */
  predicate OneOfEach(ms: seq<Move>) {
    forall a, b | 0 <= a < b < |ms| ::
      !(ms[a].PutPayment? && ms[b].PutPayment?) && !(ms[a].PutSubscription? && ms[b].PutSubscription?)
  }

  lemma {:induction false} PutsDo(db: Db, ms: seq<Move>, w: World)
    requires OneOfEach(ms) && forall m | m in ms :: IsPut(m)
    ensures var d := Run(db, ms, w);
            && d == db.(customers := d.customers, payments := d.payments, subscriptions := d.subscriptions)
            && (forall m | m in ms :: Holds(d, m))
            && db.customers.Keys <= d.customers.Keys && db.subscriptions.Keys <= d.subscriptions.Keys
            && ((forall m | m in ms :: !m.PutCustomer?) ==> d.customers == db.customers)
    decreases |ms|
  {
    if ms != [] {
      var before, last := ms[..|ms| - 1], ms[|ms| - 1];
      assert ms == before + [last];
      PutsDo(db, before, w);
      PutDoes(Run(db, before, w), last, w);
      forall m | m in before ensures Holds(Run(db, ms, w), m) {
        assert Holds(Run(db, before, w), m);
        var k :| 0 <= k < |before| && before[k] == m;
        assert ms[k] == m;
      }
    }
  }

  lemma PutDoes(db: Db, m: Move, w: World)
    requires IsPut(m)
    ensures var d := Apply(db, m, w);
            && d == db.(customers := d.customers, payments := d.payments, subscriptions := d.subscriptions)
            && Holds(d, m)
            && db.customers.Keys <= d.customers.Keys
            && (if m.PutPayment? then d.payments == db.payments[m.id := m.payment] else d.payments == db.payments)
            && (if m.PutSubscription? then d.subscriptions == db.subscriptions[m.id := m.subscription]
                else d.subscriptions == db.subscriptions)
            && (!m.PutCustomer? ==> d.customers == db.customers)
            && (!m.PutCustomer? && Holds(db, m) ==> d == db)
  {
  }

  lemma {:induction false} PutsRedone(d: Db, ms: seq<Move>, w: World)
    requires forall m | m in ms :: IsPut(m) && !m.PutCustomer? && Holds(d, m)
    ensures Run(d, ms, w) == d
    decreases |ms|
  {
    if ms != [] {
      var before, last := ms[..|ms| - 1], ms[|ms| - 1];
      assert ms == before + [last];
      PutsRedone(d, before, w);
      PutDoes(d, last, w);
    }
  }

  lemma MirrorIsPuts(db: Db, ev: Event, r: Replies, w: World)
    ensures var ms := Mirror(db, ev, r, w);
            && OneOfEach(ms) && (forall m | m in ms :: IsPut(m))
            && (CustomerNeeded(ev, w) == "" ==> forall m | m in ms :: !m.PutCustomer?)
  {
  }

  /** Mirroring touches neither the cases nor the calls, and does nothing to a
      database that already mirrors the same. */
  lemma MirrorsOnce(db: Db, ev: Event, r1: Replies, d: Db, r2: Replies, w: World)
    requires CustomerNeeded(ev, w) != "" ==> r1.customer.id == CustomerNeeded(ev, w)
    requires ev.PaymentFailed? && InvoiceOf(ev.payment, w).subscriptionId != "" ==>
             r1.subscription.id == InvoiceOf(ev.payment, w).subscriptionId
    ensures var m := Run(db, Mirror(db, ev, r1, w), w);
            && m == db.(customers := m.customers, payments := m.payments, subscriptions := m.subscriptions)
            && (d.customers == m.customers && d.payments == m.payments && d.subscriptions == m.subscriptions ==>
                  Run(d, Mirror(d, ev, r2, w), w) == d)
            && (CustomerNeeded(ev, w) == "" ==> m.customers == db.customers)
  {
    var ms1, ms2 := Mirror(db, ev, r1, w), Mirror(d, ev, r2, w);
    MirrorIsPuts(db, ev, r1, w);
    PutsDo(db, ms1, w);
    var m := Run(db, ms1, w);
    if d.customers == m.customers && d.payments == m.payments && d.subscriptions == m.subscriptions {
      MirrorShrinks(db, ev, r1, d, r2, w);
      PutsRedone(d, ms2, w);
    }
  }

  /** The second time round, only rows that are there already are put. */
  lemma MirrorShrinks(db: Db, ev: Event, r1: Replies, d: Db, r2: Replies, w: World)
    requires CustomerNeeded(ev, w) != "" ==> r1.customer.id == CustomerNeeded(ev, w)
    requires ev.PaymentFailed? && InvoiceOf(ev.payment, w).subscriptionId != "" ==>
             r1.subscription.id == InvoiceOf(ev.payment, w).subscriptionId
    requires forall m | m in Mirror(db, ev, r1, w) :: IsPut(m) && Holds(d, m)
    requires db.customers.Keys <= d.customers.Keys && db.subscriptions.Keys <= d.subscriptions.Keys
    ensures forall m | m in Mirror(d, ev, r2, w) :: !m.PutCustomer? && m in Mirror(db, ev, r1, w)
  {
    var ms1 := Mirror(db, ev, r1, w);
    if CustomerNeeded(ev, w) != "" && CustomerNeeded(ev, w) !in db.customers {
      assert PutCustomer(r1.customer.id, r1.customer.contact, r1.customer.email) in ms1;
      assert CustomerNeeded(ev, w) in d.customers;
    }
    if ev.PaymentFailed? {
      var id := InvoiceOf(ev.payment, w).subscriptionId;
      if id != "" && id !in db.subscriptions {
        assert PutSubscriptionOf(r1.subscription) in ms1;
        assert id in d.subscriptions;
      }
    }
  }

  // ---------------------------------------------------------------- deliveries

  /** The second delivery recovers nobody: whom it asks for is recovered already. */
  lemma PaidAreRecovered(db: Db, once: Db, ev: Event, r1: Replies, r2: Replies, credit: Credit, w: World, i: nat)
    requires Truthful(db, ev, r1, w) && Truthful(once, ev, r2, w)
    requires once.cases.Keys == db.cases.Keys
    requires forall j | j in db.cases ::
             once.cases[j] == if j in Paid(db, ev, r1) then RecoveredRow(db.cases[j], credit) else db.cases[j]
    requires i in Paid(once, ev, r2)
    ensures i in once.cases && once.cases[i].status.Recovered?
  {
  }

  lemma RecoveringNobody(once: Db, mirror: seq<Move>, ids: seq<nat>, credit: Credit, w: World)
    requires Run(once, mirror, w) == once
    requires forall i | i in ids :: i in once.cases && once.cases[i].status.Recovered?
    ensures SameTables(once, Run(once, mirror + RecoverAll(ids, credit), w))
  {
    RunsCompose(once, mirror, RecoverAll(ids, credit), w);
    RecoverAllDoes(once, ids, credit, w);
  }

  /** A payment event, handled once. */
  lemma PaymentOnce(db: Db, ev: Event, r: Replies, now: int, d: Db, r2: Replies, w: World)
    requires ev.PaymentArrived? || ev.Charged? || ev.LinkPaid? || ev.OrderPaid?
    requires Truthful(db, ev, r, w) && d == Handle(db, ev, r, now, w)
    ensures d.cases.Keys == db.cases.Keys
    ensures forall i | i in db.cases ::
            d.cases[i] == if i !in Paid(db, ev, r) then db.cases[i]
                          else RecoveredRow(db.cases[i], CreditOf(ev.payment, now))
    ensures Run(d, Mirror(d, ev, r2, w), w) == d
  {
    var c := CreditOf(ev.payment, now);
    var m := Mirror(db, ev, r, w);
    assert Moves(db, ev, r, now, w) == m + RecoverAll(Paid(db, ev, r), c);
    RunsCompose(db, m, RecoverAll(Paid(db, ev, r), c), w);
    MirrorsOnce(db, ev, r, d, r2, w);
    RecoverAllDoes(Run(db, m, w), Paid(db, ev, r), c, w);
  }

  lemma PaymentTwice(db: Db, ev: Event, r1: Replies, n1: int, r2: Replies, n2: int, w: World)
    requires ev.PaymentArrived? || ev.Charged? || ev.LinkPaid? || ev.OrderPaid?
    requires Truthful(db, ev, r1, w) && Truthful(Handle(db, ev, r1, n1, w), ev, r2, w)
    ensures SameTables(Handle(db, ev, r1, n1, w), Handle(Handle(db, ev, r1, n1, w), ev, r2, n2, w))
  {
    var once := Handle(db, ev, r1, n1, w);
    PaymentOnce(db, ev, r1, n1, once, r2, w);
    forall i | i in Paid(once, ev, r2) ensures i in once.cases && once.cases[i].status.Recovered? {
      PaidAreRecovered(db, once, ev, r1, r2, CreditOf(ev.payment, n1), w, i);
    }
    RecoveringNobody(once, Mirror(once, ev, r2, w), Paid(once, ev, r2), CreditOf(ev.payment, n2), w);
  }

  lemma PendingTwice(db: Db, ev: Event, r1: Replies, n1: int, r2: Replies, n2: int, w: World)
    requires ev.Pending?
    requires Truthful(db, ev, r1, w) && Truthful(Handle(db, ev, r1, n1, w), ev, r2, w)
    ensures SameTables(Handle(db, ev, r1, n1, w), Handle(Handle(db, ev, r1, n1, w), ev, r2, n2, w))
  {
    var m1 := Mirror(db, ev, r1, w);
    var once := Handle(db, ev, r1, n1, w);
    MirrorsOnce(db, ev, r1, once, r2, w);
    RunsCompose(db, m1, AnnotateAll(r1.found, Note.SubscriptionPending), w);
    AnnotateAllDoes(Run(db, m1, w), r1.found, Note.SubscriptionPending, w);
    RunsCompose(once, Mirror(once, ev, r2, w), AnnotateAll(r2.found, Note.SubscriptionPending), w);
    AnnotateAllDoes(once, r2.found, Note.SubscriptionPending, w);
  }

  /** A halt, handled once. */
  lemma HaltedOnce(db: Db, ev: Event, r: Replies, now: int, d: Db, r2: Replies, w: World)
    requires ev.Halted? && Truthful(db, ev, r, w) && d == Handle(db, ev, r, now, w)
    ensures d.cases.Keys == db.cases.Keys
    ensures forall i | i in db.cases ::
            d.cases[i] == if i in r.found then db.cases[i].(haltedAt := Some(now)) else db.cases[i]
    ensures Run(d, Mirror(d, ev, r2, w), w) == d
  {
    var m := Mirror(db, ev, r, w);
    MirrorsOnce(db, ev, r, d, r2, w);
    RunsCompose(db, m, HaltAll(r.found, now), w);
    HaltAllDoes(Run(db, m, w), r.found, now, w);
  }

  lemma HaltedTwice(db: Db, ev: Event, r1: Replies, n1: int, r2: Replies, n2: int, w: World)
    requires ev.Halted?
    requires Truthful(db, ev, r1, w) && Truthful(Handle(db, ev, r1, n1, w), ev, r2, w)
    ensures SameTables(Handle(db, ev, r1, n1, w), Handle(Handle(db, ev, r1, n1, w), ev, r2, n2, w))
  {
    var once := Handle(db, ev, r1, n1, w);
    HaltedOnce(db, ev, r1, n1, once, r2, w);
    forall i | i in r2.found ensures i in once.cases && once.cases[i].haltedAt.Some? {
      assert Wanted(ev, once.cases[i], w);
      assert Wanted(ev, db.cases[i], w);
    }
    HaltingAgain(once, Mirror(once, ev, r2, w), r2.found, n2, w);
  }

  lemma HaltingAgain(once: Db, mirror: seq<Move>, ids: seq<nat>, at: int, w: World)
    requires Run(once, mirror, w) == once
    requires forall i | i in ids :: i in once.cases && once.cases[i].haltedAt.Some?
    ensures SameTables(once, Run(once, mirror + HaltAll(ids, at), w))
  {
    RunsCompose(once, mirror, HaltAll(ids, at), w);
    HaltAllDoes(once, ids, at, w);
  }

  lemma RecordedTwice(db: Db, ev: Event, r1: Replies, n1: int, r2: Replies, n2: int, w: World)
    requires ev.PaymentAuthorized? || ev.SubscriptionAuthenticated?
    requires Truthful(db, ev, r1, w) && Truthful(Handle(db, ev, r1, n1, w), ev, r2, w)
    ensures SameTables(Handle(db, ev, r1, n1, w), Handle(Handle(db, ev, r1, n1, w), ev, r2, n2, w))
  {
    var m1 := Mirror(db, ev, r1, w);
    var once := Handle(db, ev, r1, n1, w);
    assert Moves(db, ev, r1, n1, w) == m1;
    assert Moves(once, ev, r2, n2, w) == Mirror(once, ev, r2, w);
    MirrorsOnce(db, ev, r1, once, r2, w);
  }

  /** After one delivery of a failed payment there is nothing left to open: either
      a case for this payment exists, or there was none to be opened. */
  lemma FailureTwice(db: Db, ev: Event, r1: Replies, n1: int, r2: Replies, n2: int, w: World)
    requires ev.PaymentFailed?
    requires Truthful(db, ev, r1, w) && Truthful(Handle(db, ev, r1, n1, w), ev, r2, w)
    ensures SameTables(Handle(db, ev, r1, n1, w), Handle(Handle(db, ev, r1, n1, w), ev, r2, n2, w))
  {
    var p := ev.payment;
    var m1, o1 := Mirror(db, ev, r1, w), OnCases(db, ev, r1, n1, w);
    var d := Run(db, m1, w);
    var once := Handle(db, ev, r1, n1, w);
    var m2, o2 := Mirror(once, ev, r2, w), OnCases(once, ev, r2, n2, w);
    RunsCompose(db, m1, o1, w);
    RunsCompose(once, m2, o2, w);
    MirrorsOnce(db, ev, r1, once, r2, w);
    OpeningsSettle(db, d, ev, r1, n1, w);
    SettledOpensNothing(once, ev, r2, n2, w);
  }

  /** The state in which a failed payment opens no case. */
  predicate Settled(db: Db, ev: Event, w: World)
    requires ev.PaymentFailed?
  {
    var p := ev.payment;
    if InvoiceOf(p, w).subscriptionId == "" then
      PaymentKnown(db, p.id) || forall k | k in db.customers :: k != "" ==> !Matches(db.customers[k], p)
    else
      PaymentKnown(db, p.id) || InvoiceChased(db, p.invoiceId)
  }

  /** At most one case is opened, or one failure noted on a case at hand. */
  lemma OneThingToDo(db: Db, ev: Event, r: Replies, now: int, w: World)
    requires ev.PaymentFailed? && Truthful(db, ev, r, w)
    ensures var ms := OnCases(db, ev, r, now, w);
            || (ms == [] && Settled(db, ev, w))
            || (r.existing.Some? && Settled(db, ev, w)
                && ms == AnnotateAll([r.existing.value], RepeatFailure(ev.payment.id)))
            || (|ms| == 1 && ms[0].OpenCase? && !Settled(db, ev, w) && ms[0].caseId == r.newId
                && ms[0].row.paymentId == ev.payment.id
                && Legal(db, ms[0], w))
  {
    var p := ev.payment;
    if r.existing.Some? { assert ChasesInvoice(db.cases[r.existing.value], p.invoiceId); }
    if r.matched != "" { assert Matches(db.customers[r.matched], p); }
  }

  lemma OpenedIsKnown(d: Db, m: Move, w: World)
    requires m.OpenCase? && Legal(d, m, w)
    ensures var once := Apply(d, m, w);
            && PaymentKnown(once, m.row.paymentId)
            && once.customers == d.customers && once.payments == d.payments && once.subscriptions == d.subscriptions
  {
    assert Apply(d, m, w).cases[m.caseId].paymentId == m.row.paymentId;
  }

  lemma OpeningsSettle(db: Db, d: Db, ev: Event, r: Replies, now: int, w: World)
    requires ev.PaymentFailed? && Truthful(db, ev, r, w)
    requires d == db.(customers := d.customers, payments := d.payments, subscriptions := d.subscriptions)
    requires InvoiceOf(ev.payment, w).subscriptionId == "" ==> d.customers == db.customers
    ensures var once := Run(d, OnCases(db, ev, r, now, w), w);
            && Settled(once, ev, w)
            && once.customers == d.customers && once.payments == d.payments && once.subscriptions == d.subscriptions
  {
    var ms := OnCases(db, ev, r, now, w);
    OneThingToDo(db, ev, r, now, w);
    assert Settled(d, ev, w) == Settled(db, ev, w);
    if ms != [] {
      if ms[0].OpenCase? {
        RunThree(d, ms, w);
        OpenedIsKnown(d, ms[0], w);
      } else {
        AnnotateAllDoes(d, [r.existing.value], RepeatFailure(ev.payment.id), w);
      }
    }
  }

  lemma SettledOpensNothing(db: Db, ev: Event, r: Replies, now: int, w: World)
    requires ev.PaymentFailed? && Truthful(db, ev, r, w) && Settled(db, ev, w)
    ensures SameTables(db, Run(db, OnCases(db, ev, r, now, w), w))
  {
    OneThingToDo(db, ev, r, now, w);
    if OnCases(db, ev, r, now, w) != [] {
      AnnotateAllDoes(db, [r.existing.value], RepeatFailure(ev.payment.id), w);
    }
  }

  /** Redelivery is harmless: for every event, every database and whatever the two
      deliveries find, the second leaves the tables the first left, up to the
      instant of a halt and extra audit rows. */
  lemma RedeliveryIsHarmless(db: Db, ev: Event, r1: Replies, n1: int, r2: Replies, n2: int, w: World)
    requires Truthful(db, ev, r1, w) && Truthful(Handle(db, ev, r1, n1, w), ev, r2, w)
    ensures SameTables(Handle(db, ev, r1, n1, w), Handle(Handle(db, ev, r1, n1, w), ev, r2, n2, w))
  {
    match ev {
      case PaymentFailed(_) => FailureTwice(db, ev, r1, n1, r2, n2, w);
      case PaymentArrived(_) => PaymentTwice(db, ev, r1, n1, r2, n2, w);
      case Charged(_, _) => PaymentTwice(db, ev, r1, n1, r2, n2, w);
      case LinkPaid(_, _, _) => PaymentTwice(db, ev, r1, n1, r2, n2, w);
      case OrderPaid(_, _) => PaymentTwice(db, ev, r1, n1, r2, n2, w);
      case Pending(_) => PendingTwice(db, ev, r1, n1, r2, n2, w);
      case Halted(_) => HaltedTwice(db, ev, r1, n1, r2, n2, w);
      case _ => RecordedTwice(db, ev, r1, n1, r2, n2, w);
    }
  }

  lemma ReferenceNamesItsCase(i: nat, attemptCount: int, namespace: string, note: NoteField)
    requires 0 < i < Decimals.Pow10(31)
    ensures PaidCase(References.ReferenceFor(i, attemptCount, namespace), note) == Some(i as int)
  {
    References.CaseIdReadsBack(i, attemptCount, namespace);
  }

  lemma NamedLinkCreditsOneCase(db: Db, i: nat, reference: string, note: NoteField, p: PaymentEntity, r: Replies,
                                now: int, w: World)
    requires i in db.cases && PaidCase(reference, note) == Some(i as int)
    requires Truthful(db, LinkPaid(reference, note, p), r, w)
    ensures var d := Handle(db, LinkPaid(reference, note, p), r, now, w);
            && d.cases.Keys == db.cases.Keys
            && (forall j | j in db.cases ::
                  d.cases[j] == if j == i then RecoveredRow(db.cases[i], CreditOf(p, now)) else db.cases[j])
  {
    var ev := LinkPaid(reference, note, p);
    var d := Handle(db, ev, r, now, w);
    assert Paid(db, ev, r) == [i];
    PaymentOnce(db, ev, r, now, d, r, w);
  }

  /** Paying the link made for a case credits that case and no other, whatever
      attempt and namespace the reference was issued under and whatever the note
      says: the reference survives its cut. */
  lemma PaidLinkCreditsItsCase(db: Db, i: nat, attemptCount: int, namespace: string, note: NoteField, p: PaymentEntity,
                               r: Replies, now: int, w: World)
    requires i in db.cases && 0 < i < Decimals.Pow10(31)
    requires Truthful(db, LinkPaid(References.ReferenceFor(i, attemptCount, namespace), note, p), r, w)
    ensures var d := Handle(db, LinkPaid(References.ReferenceFor(i, attemptCount, namespace), note, p), r, now, w);
            && d.cases.Keys == db.cases.Keys
            && d.cases[i].status.Recovered?
            && (forall j | j in db.cases ::
                  d.cases[j] == if j == i then RecoveredRow(db.cases[i], CreditOf(p, now)) else db.cases[j])
  {
    ReferenceNamesItsCase(i, attemptCount, namespace, note);
    NamedLinkCreditsOneCase(db, i, References.ReferenceFor(i, attemptCount, namespace), note, p, r, now, w);
  }

  /** A successful subscription charge credits its whole amount to every active case
      of the subscription: what is recovered may exceed what was captured. */
  lemma ChargeCreditsEveryActiveCase(db: Db, s: SubscriptionEntity, p: PaymentEntity, r: Replies, now: int, w: World,
                                     i: nat)
    requires Truthful(db, Event.Charged(s, p), r, w) && s.id != ""
    requires i in db.cases && db.cases[i].subscriptionId == s.id
    ensures i in Handle(db, Event.Charged(s, p), r, now, w).cases
    ensures Handle(db, Event.Charged(s, p), r, now, w).cases[i] ==
            if db.cases[i].status.Active() then
              db.cases[i].(status := Recovered, credit := Some(Credit(p.id, p.amount, now)))
            else db.cases[i]
  {
    assert i in r.found <==> Wanted(Event.Charged(s, p), db.cases[i], w);
    PaymentOnce(db, Event.Charged(s, p), r, now, Handle(db, Event.Charged(s, p), r, now, w), r, w);
  }
}

/** app/webhooks/handlers.py: what each Razorpay event makes the service do, as a
    sequence of moves, and what delivering an event twice amounts to. */
module Webhooks {
  import opened Domain
  import opened Lifecycle
  import References

  /** `notes.recovery_case_id` as it arrives: absent, not a number, or a number. */
  datatype NoteField = NoNote | Unreadable | CaseNote(id: int)

  datatype PaymentEntity = PaymentEntity(
    id: string, invoiceId: string, orderId: string, amount: int,
    contact: string, email: string, note: NoteField, cause: Cause,
    mirror: string                  // the columns that are only mirrored
  )

  datatype SubscriptionEntity = SubscriptionEntity(id: string, customerId: string, mirror: string)

  datatype CustomerEntity = CustomerEntity(id: string, contact: string, email: string)

  datatype Event =
    | PaymentFailed(payment: PaymentEntity)
    | PaymentAuthorized(payment: PaymentEntity)
    | PaymentArrived(payment: PaymentEntity)             // payment.captured
    | SubscriptionAuthenticated(subscription: SubscriptionEntity)
    | Pending(subscription: SubscriptionEntity)
    | Halted(subscription: SubscriptionEntity)
    | Charged(subscription: SubscriptionEntity, payment: PaymentEntity)
    | LinkPaid(reference: string, note: NoteField, payment: PaymentEntity)
    | OrderPaid(orderId: string, payment: PaymentEntity)

  /** What the handler's queries and fetches answer. */
  datatype Replies = Replies(
    customer: CustomerEntity,        // fetched when the customer is unknown
    subscription: SubscriptionEntity, // fetched when the subscription is unknown
    matched: string,                 // a customer with the payer's phone or email, "" if none
    existing: Option<nat>,           // the oldest active case chasing the invoice
    found: seq<nat>,                 // the active cases of the subscription or order
    newId: nat                       // the id a new case would get
  )

  function InvoiceOf(p: PaymentEntity, w: World): Invoice {
    if p.invoiceId != "" then w.resolve(p.invoiceId) else Invoice("", "")
  }

  function CustomerNeeded(ev: Event, w: World): string {
    match ev
    case PaymentFailed(p) => if InvoiceOf(p, w).subscriptionId != "" then InvoiceOf(p, w).customerId else ""
    case SubscriptionAuthenticated(s) => s.customerId
    case _ => ""
  }

  predicate Matches(cu: Customer, p: PaymentEntity) {
    (p.contact != "" && cu.phone == p.contact) || (p.email != "" && cu.email == p.email)
  }

  predicate Wanted(ev: Event, c: Case, w: World) {
    c.status.Active() &&
    match ev
    case PaymentArrived(p) => InvoiceOf(p, w).subscriptionId != "" && c.subscriptionId == InvoiceOf(p, w).subscriptionId
    case Pending(s) => s.id != "" && c.subscriptionId == s.id
    case Halted(s) => s.id != "" && c.subscriptionId == s.id
    case Charged(s, _) => s.id != "" && c.subscriptionId == s.id
    case OrderPaid(orderId, _) => orderId != "" && c.orderId == orderId
    case _ => false
  }

  /** The replies are answers to the handler's questions about this database. */
  predicate Truthful(db: Db, ev: Event, r: Replies, w: World) {
    && (CustomerNeeded(ev, w) != "" ==> r.customer.id == CustomerNeeded(ev, w))
    && Distinct(r.found)
    && (forall i | i in db.cases :: i in r.found <==> Wanted(ev, db.cases[i], w))
    && (forall i | i in r.found :: i in db.cases)
    && r.newId !in db.cases
    && (ev.PaymentFailed? ==>
          && (InvoiceOf(ev.payment, w).subscriptionId != "" ==>
              r.subscription.id == InvoiceOf(ev.payment, w).subscriptionId)
          && (if r.matched == "" then forall k | k in db.customers :: k != "" ==> !Matches(db.customers[k], ev.payment)
              else r.matched in db.customers && Matches(db.customers[r.matched], ev.payment))
          && (if r.existing.None? then !InvoiceChased(db, ev.payment.invoiceId)
              else r.existing.value in db.cases && ChasesInvoice(db.cases[r.existing.value], ev.payment.invoiceId)))
  }

  // -------------------------------------------------------------------- moves

  function PutPaymentOf(p: PaymentEntity, subscriptionId: string, customerId: string): Move {
    PutPayment(p.id, Payment(p.invoiceId, p.orderId, subscriptionId, customerId, p.amount, p.mirror))
  }

  function PutSubscriptionOf(s: SubscriptionEntity): Move {
    PutSubscription(s.id, Subscription(s.customerId, s.mirror))
  }

  const MAX_ATTEMPTS: nat := 3       // the column's default

  function NewCase(p: PaymentEntity, subscriptionId: string, customerId: string, source: Source,
                   eligibleAt: Option<int>, now: int): Case {
    Case(p.id, p.invoiceId, subscriptionId, customerId, p.orderId, p.amount, p.cause, source, Some(now), MAX_ATTEMPTS,
         Open, 0, 0, None, eligibleAt, None, None, None, None)
  }

  function CreditOf(p: PaymentEntity, now: int): Credit { Credit(p.id, p.amount, now) }

  /** A failed charge of a subscription: another failure of an invoice already
      chased is only noted, a repeated delivery is nothing, anything else is a new case. */
  function ChargeFailed(db: Db, p: PaymentEntity, inv: Invoice, r: Replies, now: int): seq<Move>
    requires r.existing.Some? ==> r.existing.value in db.cases
  {
    if r.existing.Some? then
      if db.cases[r.existing.value].paymentId == p.id then []
      else [Annotate(r.existing.value, RepeatFailure(p.id))]
    else if PaymentKnown(db, p.id) then []
    else [OpenCase(r.newId, NewCase(p, inv.subscriptionId, inv.customerId, Source.Razorpay, None, now), CaseOpened)]
  }

  /** A failed one-off checkout: worked only for a customer already known, and
      parked for the grace a retry is given. */
  function CheckoutFailed(db: Db, p: PaymentEntity, r: Replies, now: int, st: Settings): seq<Move> {
    if r.matched == "" || PaymentKnown(db, p.id) then []
    else [OpenCase(r.newId, NewCase(p, "", r.matched, Checkout, Some(now + st.checkoutGraceMinutes * 60), now),
                   Note.CheckoutAbandoned)]
  }

  function EnsureCustomer(db: Db, id: string, r: Replies): seq<Move> {
    if id == "" || id in db.customers then [] else [PutCustomer(r.customer.id, r.customer.contact, r.customer.email)]
  }

  function EnsureSubscription(db: Db, id: string, r: Replies): seq<Move> {
    if id in db.subscriptions then [] else [PutSubscriptionOf(r.subscription)]
  }

  function OneCase(db: Db, id: Option<int>): seq<nat> {
    if id.Some? && id.value >= 0 && id.value in db.cases then [id.value] else []
  }

  function NotedCase(n: NoteField): Option<int> { if n.CaseNote? then Some(n.id) else None }

  /** The link's own reference first (0 is not an id), then its note. */
  function PaidCase(reference: string, note: NoteField): Option<int> {
    var id := References.CaseIdFrom(reference);
    if id.Some? && id.value != 0 then id else NotedCase(note)
  }

  function RecoverAll(ids: seq<nat>, credit: Credit): seq<Move> {
    seq(|ids|, k requires 0 <= k < |ids| => Recover(ids[k], credit))
  }

  function AnnotateAll(ids: seq<nat>, note: Note): seq<Move> {
    seq(|ids|, k requires 0 <= k < |ids| => Annotate(ids[k], note))
  }

  function HaltAll(ids: seq<nat>, at: int): seq<Move> {
    seq(|ids|, k requires 0 <= k < |ids| => Halt(ids[k], at))
  }

  /** The rows an event mirrors, whatever it means for a case. */
  function Mirror(db: Db, ev: Event, r: Replies, w: World): seq<Move> {
    match ev
    case PaymentFailed(p) =>
      var inv := InvoiceOf(p, w);
      [PutPaymentOf(p, inv.subscriptionId, inv.customerId)] +
      if inv.subscriptionId == "" then []
      else EnsureCustomer(db, inv.customerId, r) + EnsureSubscription(db, inv.subscriptionId, r)
    case PaymentAuthorized(p) => [PutPaymentOf(p, "", "")]
    case PaymentArrived(p) => [PutPaymentOf(p, InvoiceOf(p, w).subscriptionId, InvoiceOf(p, w).customerId)]
    case SubscriptionAuthenticated(s) => [PutSubscriptionOf(s)] + EnsureCustomer(db, s.customerId, r)
    case Pending(s) => [PutSubscriptionOf(s)]
    case Halted(s) => [PutSubscriptionOf(s)]
    case Charged(s, p) => [PutSubscriptionOf(s), PutPaymentOf(p, s.id, s.customerId)]
    case LinkPaid(_, _, p) => [PutPaymentOf(p, "", "")]
    case OrderPaid(_, p) => [PutPaymentOf(p, "", "")]
  }

  /** The cases an event recovers. */
  function Paid(db: Db, ev: Event, r: Replies): seq<nat> {
    match ev
    case PaymentArrived(p) => if p.note.NoNote? then r.found else OneCase(db, NotedCase(p.note))
    case Charged(_, _) => r.found
    case LinkPaid(reference, note, _) => OneCase(db, PaidCase(reference, note))
    case OrderPaid(_, _) => r.found
    case _ => []
  }

  function OnCases(db: Db, ev: Event, r: Replies, now: int, w: World): seq<Move>
    requires Truthful(db, ev, r, w)
  {
    match ev
    case PaymentFailed(p) =>
      var inv := InvoiceOf(p, w);
      if inv.subscriptionId == "" then CheckoutFailed(db, p, r, now, w.st) else ChargeFailed(db, p, inv, r, now)
    case Pending(_) => AnnotateAll(r.found, Note.SubscriptionPending)
    case Halted(_) => HaltAll(r.found, now)
    case PaymentArrived(p) => RecoverAll(Paid(db, ev, r), CreditOf(p, now))
    case Charged(_, p) => RecoverAll(Paid(db, ev, r), CreditOf(p, now))
    case LinkPaid(_, _, p) => RecoverAll(Paid(db, ev, r), CreditOf(p, now))
    case OrderPaid(_, p) => RecoverAll(Paid(db, ev, r), CreditOf(p, now))
    case _ => []
  }

  function Moves(db: Db, ev: Event, r: Replies, now: int, w: World): seq<Move>
    requires Truthful(db, ev, r, w)
  {
    Mirror(db, ev, r, w) + OnCases(db, ev, r, now, w)
  }

  function Handle(db: Db, ev: Event, r: Replies, now: int, w: World): Db
    requires Truthful(db, ev, r, w)
  {
    Run(db, Moves(db, ev, r, now, w), w)
  }
}

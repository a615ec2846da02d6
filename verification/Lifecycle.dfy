/** The database of the recovery service and every move the service makes on it.

    A move is one elementary change: a turn of the work loop on one case, one row
    opened, credited or annotated by a webhook, a call's conclusion, a machine
    verdict, a link sent in mid-call. A tick, a webhook delivery and a call are
    sequences of moves (modules Ticks, Webhooks and Service); what is proved of every
    sequence of moves is therefore proved of every run of the service. */
module Lifecycle {
  import opened Domain
  import opened CaseWork

  // ------------------------------------------------------------------- tables

  datatype Payment = Payment(
    invoiceId: string, orderId: string, subscriptionId: string, customerId: string, amount: int,
    mirror: string                  // the remaining mirrored columns
  )

  datatype Subscription = Subscription(customerId: string, mirror: string)

  /** What really happened to a case, in order; the specification's memory. */
  datatype Entry =
    | Attempt(caseId: nat, customerId: string, kind: Kind, at: int, delivered: bool)
    | NewLink(caseId: nat)
    | Verdict(caseId: nat, refunded: bool)

  datatype Db = Db(
    cases: map<nat, Case>,
    customers: map<string, Customer>,
    payments: map<string, Payment>,
    subscriptions: map<string, Subscription>,
    calls: map<string, Call>,
    audit: seq<AuditRow>,
    log: seq<Entry>
  )

  const EMPTY: Db := Db(map[], map[], map[], map[], map[], [], [])

  /** The settings, and the invoice service: which subscription and customer an
      invoice belongs to ("" when none). */
  datatype Invoice = Invoice(subscriptionId: string, customerId: string)
  datatype World = World(st: Settings, resolve: string -> Invoice)

  function CustomerOf(customers: map<string, Customer>, c: Case): Option<Customer> {
    if c.customerId != "" && c.customerId in customers then Some(customers[c.customerId]) else None
  }

  // ----------------------------------------------------- what a call concludes

  datatype Outcome = Outcome(status: Option<Status>, sendLink: bool, suppress: bool, promises: bool)

  /** `app.voice.intents.OUTCOMES`. */
  function OutcomeFor(intent: Intent): Outcome {
    match intent
    case RetryNow => Outcome(None, true, false, true)
    case RetryLater => Outcome(None, false, false, false)
    case IntentDeclined => Outcome(Some(Declined), false, true, false)
    case WrongNumber => Outcome(Some(Stopped), false, true, false)
    case Dispute => Outcome(Some(Stopped), false, true, false)
    case NoAnswer => Outcome(None, false, false, false)
    case Unclear => Outcome(None, false, false, false)
  }

  /** The case after `apply_call_result`, before any link. */
  function Concluded(c: Case, intent: Intent, now: int, st: Settings): Case {
    var out := OutcomeFor(intent);
    var c1 := if out.promises then c.(promise := Some(Promise(now, now + st.promiseWindowHours * HOUR))) else c;
    var c2 := if out.status.Some? then c1.(status := out.status.value) else c1;
    if out.suppress then c2.(attemptCount := c2.maxAttempts) else c2
  }

  function Suppressed(cu: Customer, intent: Intent): Customer {
    if !OutcomeFor(intent).suppress then cu
    else if intent.WrongNumber? then cu.(phoneIsWrong := true)
    else cu.(doNotContact := true)
  }

  function ConclusionNotes(intent: Intent, now: int, st: Settings): seq<Note> {
    (if OutcomeFor(intent).promises then [PromiseMade(now + st.promiseWindowHours * HOUR)] else [])
    + [CallConcluded(intent)]
    + (if OutcomeFor(intent).status.Some? then [StoppedByCall(intent)] else [])
  }

  // -------------------------------------------------------------------- moves

  datatype Move =
    | PutPayment(id: string, payment: Payment)
    | PutSubscription(id: string, subscription: Subscription)
    | PutCustomer(id: string, phone: string, email: string)
    | OpenCase(caseId: nat, row: Case, note: Note)
    | Recover(caseId: nat, credit: Credit)
    | Halt(caseId: nat, at: int)
    | Annotate(caseId: nat, note: Note)
    | Turn(caseId: nat, answers: Answers, now: int)
    | OpenCall(sid: string, caseId: nat)
    | Conclude(sid: string, caseId: nat, intent: Intent, status: CallStatus, reply: Option<LinkAnswer>, now: int)
    | JudgeMachine(sid: string, machine: bool)
    | LinkInCall(caseId: nat, link: LinkAnswer)

  function Rows(i: nat, notes: seq<Note>): seq<AuditRow> {
    seq(|notes|, k requires 0 <= k < |notes| => AuditRow(i, notes[k]))
  }

  /** What a move does to the one case it touches: the new row, the audit notes
      and the entries of the log. */
  datatype Change = NoChange | Change(caseId: nat, row: Case, notes: seq<Note>, entries: seq<Entry>)

  function TurnEntries(i: nat, customerId: string, w: Worked, now: int): seq<Entry> {
    if w.effect.Attempted() then
      [Attempt(i, customerId, w.effect.kind, now, w.effect.Delivered?)] + (if w.linkMade then [NewLink(i)] else [])
    else []
  }

  function TurnChange(db: Db, i: nat, o: Answers, now: int, st: Settings): Change
    requires i in db.cases
  {
    var c := db.cases[i];
    var w := Work(c, CustomerOf(db.customers, c), o, now, st);
    Change(i, w.row, w.notes, TurnEntries(i, c.customerId, w, now))
  }

  /** `mark_recovered` with the audit row beside it. */
  function RecoverChange(c: Case, i: nat, credit: Credit): Change {
    if c.status.Recovered? then NoChange
    else Change(i, c.(status := Recovered, credit := Some(credit)),
                [PaymentCaptured(credit.paymentId, credit.amount)], [])
  }

  function LinkChange(c: Case, i: nat, answer: LinkAnswer): Change {
    var l := RecoveryLink(c, answer);
    Change(i, l.row, if l.note.Some? then [l.note.value] else [], if l.made then [NewLink(i)] else [])
  }

  function ConcludeChange(db: Db, i: nat, intent: Intent, reply: Option<LinkAnswer>, now: int, st: Settings): Change
    requires i in db.cases
  {
    var c := Concluded(db.cases[i], intent, now, st);
    var notes := ConclusionNotes(intent, now, st);
    if OutcomeFor(intent).sendLink && CustomerOf(db.customers, c).Some? && reply.Some? then
      var l := LinkChange(c, i, reply.value);
      Change(i, l.row, notes + l.notes, l.entries)
    else Change(i, c, notes, [])
  }

  /** A machine verdict gives an attempt back, down to zero and no further. */
  function VerdictChange(db: Db, sid: string, machine: bool): Change
    requires sid in db.calls && db.calls[sid].caseId in db.cases
  {
    var i := db.calls[sid].caseId;
    var c := db.cases[i];
    if machine then
      var left := Max((if c.attemptCount == 0 then 1 else c.attemptCount) - 1, 0);
      Change(i, c.(attemptCount := left), [MachineVerdict(true)], [Verdict(i, left < c.attemptCount)])
    else Change(i, c, [MachineVerdict(false)], [])
  }

  function ChangeOf(db: Db, m: Move, w: World): Change
    requires Legal(db, m, w)
  {
    match m
    case PutPayment(_, _) => NoChange
    case PutSubscription(_, _) => NoChange
    case PutCustomer(_, _, _) => NoChange
    case OpenCase(i, row, note) => Change(i, row, [note], [])
    case Recover(i, credit) => RecoverChange(db.cases[i], i, credit)
    case Halt(i, at) => Change(i, db.cases[i].(haltedAt := Some(at)), [SubscriptionHalted], [])
    case Annotate(i, note) => Change(i, db.cases[i], [note], [])
    case Turn(i, o, now) => TurnChange(db, i, o, now, w.st)
    case OpenCall(_, _) => NoChange
    case Conclude(_, i, intent, _, reply, now) => ConcludeChange(db, i, intent, reply, now, w.st)
    case JudgeMachine(sid, machine) => VerdictChange(db, sid, machine)
    case LinkInCall(i, answer) => LinkChange(db.cases[i], i, answer)
  }

  /** Refreshing a customer touches the contact columns alone. */
  function Refreshed(customers: map<string, Customer>, id: string, phone: string, email: string)
    : map<string, Customer>
  {
    if id in customers then customers[id := customers[id].(phone := phone, email := email)]
    else customers[id := Customer(phone, email, false, false, None)]
  }

  function CustomersAfter(db: Db, m: Move, w: World): map<string, Customer>
    requires Legal(db, m, w)
  {
    match m
    case PutCustomer(id, phone, email) => Refreshed(db.customers, id, phone, email)
    case Turn(i, o, now) =>
      var c := db.cases[i];
      var cu := Work(c, CustomerOf(db.customers, c), o, now, w.st).customer;
      if cu.Some? then db.customers[c.customerId := cu.value] else db.customers
    case Conclude(_, i, intent, _, _, _) =>
      var c := db.cases[i];
      var cu := CustomerOf(db.customers, c);
      if cu.Some? then db.customers[c.customerId := Suppressed(cu.value, intent)] else db.customers
    case _ => db.customers
  }

  function CallsAfter(db: Db, m: Move, w: World): map<string, Call>
    requires Legal(db, m, w)
  {
    match m
    case OpenCall(sid, i) => db.calls[sid := Call(i, Initiated, None)]
    case Conclude(sid, _, intent, status, _, _) => db.calls[sid := Call(db.calls[sid].caseId, status, Some(intent))]
    case JudgeMachine(sid, machine) =>
      if machine then db.calls[sid := Call(db.calls[sid].caseId, CallNoAnswer, None)] else db.calls
    case _ => db.calls
  }

  /** A freshly opened case. */
  predicate Fresh(c: Case) {
    && c.status == Open && c.attemptCount == 0 && c.deliveryFailures == 0
    && c.lastAttemptAt == None && c.haltedAt == None && c.link == None && c.promise == None && c.credit == None
    && c.createdAt.Some?
  }

  predicate PaymentKnown(db: Db, paymentId: string) {
    exists i | i in db.cases :: db.cases[i].paymentId == paymentId
  }

  predicate ChasesInvoice(c: Case, invoiceId: string) {
    c.invoiceId == invoiceId && c.status.Active()
  }

  predicate InvoiceChased(db: Db, invoiceId: string) {
    exists i | i in db.cases :: ChasesInvoice(db.cases[i], invoiceId)
  }

  predicate OfSubscription(invoiceId: string, w: World) {
    invoiceId != "" && w.resolve(invoiceId).subscriptionId != ""
  }

  /** What a webhook notes on a case when it does nothing more to it. */
  predicate PlainNote(note: Note) {
    note.CaseOpened? || note.CheckoutAbandoned? || note.RepeatFailure? || note.SubscriptionPending?
    || note.SubscriptionHalted?
  }

  /** The circumstances in which the service makes a move. */
  predicate Legal(db: Db, m: Move, w: World) {
    match m
    case PutPayment(_, _) => true
    case PutSubscription(_, _) => true
    case PutCustomer(_, _, _) => true
    case OpenCase(i, row, note) =>
      && i !in db.cases && Fresh(row) && !PaymentKnown(db, row.paymentId) && PlainNote(note)
      && (OfSubscription(row.invoiceId, w) ==> !InvoiceChased(db, row.invoiceId))
    case Recover(i, _) => i in db.cases
    case Halt(i, _) => i in db.cases
    case Annotate(i, note) => i in db.cases && PlainNote(note)
    case Turn(i, _, now) => i in db.cases && Claimable(db.cases[i], now)
    case OpenCall(sid, i) => i in db.cases && sid !in db.calls
    case Conclude(sid, i, _, _, _, _) => sid in db.calls && i in db.cases
    case JudgeMachine(sid, _) => sid in db.calls && db.calls[sid].caseId in db.cases
    case LinkInCall(i, _) => i in db.cases
  }

  /** One move. A move whose circumstances are not met does not happen. */
  function Apply(db: Db, m: Move, w: World): Db {
    if !Legal(db, m, w) then db
    else
      var ch := ChangeOf(db, m, w);
      Db(if ch.Change? then db.cases[ch.caseId := ch.row] else db.cases,
         CustomersAfter(db, m, w),
         if m.PutPayment? then db.payments[m.id := m.payment] else db.payments,
         if m.PutSubscription? then db.subscriptions[m.id := m.subscription] else db.subscriptions,
         CallsAfter(db, m, w),
         if ch.Change? then db.audit + Rows(ch.caseId, ch.notes) else db.audit,
         if ch.Change? then db.log + ch.entries else db.log)
  }

  function Run(db: Db, ms: seq<Move>, w: World): Db
    decreases |ms|
  {
    if ms == [] then db
    else Apply(Run(db, ms[..|ms| - 1], w), ms[|ms| - 1], w)
  }

  lemma {:induction false} RunsCompose(db: Db, a: seq<Move>, b: seq<Move>, w: World)
    ensures Run(db, a + b, w) == Run(Run(db, a, w), b, w)
    decreases |b|
  {
    if b == [] {
      assert a + b == a;
    } else {
      var b' := b[..|b| - 1];
      RunsCompose(db, a, b', w);
      assert (a + b)[..|a + b| - 1] == a + b';
      assert (a + b)[|a + b| - 1] == b[|b| - 1];
    }
  }

  lemma RunOneMore(db: Db, ms: seq<Move>, m: Move, w: World)
    ensures Run(db, ms + [m], w) == Apply(Run(db, ms, w), m, w)
  {
    assert (ms + [m])[..|ms + [m]| - 1] == ms;
  }

  // ------------------------------------------------------ what any move may do

  /** The debt a case chases stays the same, a closed case stays closed, only a
      recovery makes a case RECOVERED, only a turn moves the clock of attempts,
      a stored link is kept. */
  predicate CaseMay(a: Case, b: Case, m: Move) {
    && SameDebt(a, b)
    && (a.status.Closed() ==> b.status.Closed())
    && (b.status.Recovered? && !a.status.Recovered? ==> m.Recover?)
    && (!m.Turn? ==>
          && b.lastAttemptAt == a.lastAttemptAt
          && b.deliveryFailures == a.deliveryFailures
          && b.nextEligibleAt == a.nextEligibleAt)
    && (a.HasLink() ==> b.link == a.link)
    && (!m.Recover? ==> b.credit == a.credit)
    && (a.haltedAt.Some? ==> b.haltedAt.Some?)
  }

  lemma EveryTurnMay(db: Db, m: Move, w: World)
    requires Legal(db, m, w) && m.Turn?
    ensures CaseMay(db.cases[m.caseId], TurnChange(db, m.caseId, m.answers, m.now, w.st).row, m)
  {
    var c := db.cases[m.caseId];
    EveryTurnKeeps(c, CustomerOf(db.customers, c), m.answers, m.now, w.st);
  }

  lemma ConcludingMay(c: Case, m: Move, st: Settings)
    requires m.Conclude?
    ensures CaseMay(c, Concluded(c, m.intent, m.now, st), m)
  {
  }

  lemma LinkingMay(a: Case, c: Case, i: nat, answer: LinkAnswer, m: Move)
    requires !m.Turn? && !m.Recover? && CaseMay(a, c, m)
    ensures CaseMay(a, LinkChange(c, i, answer).row, m)
  {
  }

  lemma EveryConclusionMay(db: Db, m: Move, w: World)
    requires Legal(db, m, w) && m.Conclude?
    ensures CaseMay(db.cases[m.caseId], ConcludeChange(db, m.caseId, m.intent, m.reply, m.now, w.st).row, m)
  {
    var a := db.cases[m.caseId];
    var c := Concluded(a, m.intent, m.now, w.st);
    ConcludingMay(a, m, w.st);
    if m.reply.Some? { LinkingMay(a, c, m.caseId, m.reply.value, m); }
  }

  lemma EveryChange(db: Db, m: Move, w: World)
    requires Legal(db, m, w)
    ensures var ch := ChangeOf(db, m, w);
            ch.Change? && ch.caseId in db.cases ==> CaseMay(db.cases[ch.caseId], ch.row, m)
  {
    if m.Turn? {
      EveryTurnMay(db, m, w);
    } else if m.Conclude? {
      EveryConclusionMay(db, m, w);
    }
  }

  /** What a move adds to the log and the trail is about the case it touches; only a
      turn attempts or gives up. */
  lemma EveryEntry(db: Db, m: Move, w: World)
    requires Legal(db, m, w) && ChangeOf(db, m, w).Change?
    ensures var ch := ChangeOf(db, m, w);
            && (forall k | 0 <= k < |ch.entries| :: ch.entries[k].caseId == ch.caseId)
            && (!m.Turn? ==> |ch.entries| <= 1 && forall k | 0 <= k < |ch.entries| :: !ch.entries[k].Attempt?)
            && (!m.Turn? && !m.JudgeMachine? ==> forall k | 0 <= k < |ch.entries| :: ch.entries[k].NewLink?)
            && (!m.Turn? ==> forall k | 0 <= k < |ch.notes| :: !ch.notes[k].StoppedByPolicy?)
  {
  }

  /** One move touches one case, and does no more to it than it may. */
  lemma EveryMove(db: Db, m: Move, w: World, i: nat)
    requires i in db.cases
    ensures i in Apply(db, m, w).cases
    ensures Apply(db, m, w).cases[i] == db.cases[i] || CaseMay(db.cases[i], Apply(db, m, w).cases[i], m)
    ensures Apply(db, m, w).cases[i] != db.cases[i] ==>
              Legal(db, m, w) && ChangeOf(db, m, w).Change? && ChangeOf(db, m, w).caseId == i
  {
    if Legal(db, m, w) { EveryChange(db, m, w); }
  }

  /** Closed stays closed, and a debt stays the same debt, over every run; and only
      a recovery makes a case RECOVERED. */
  lemma {:induction false} ClosedStaysClosed(db: Db, ms: seq<Move>, w: World, i: nat)
    requires i in db.cases
    ensures i in Run(db, ms, w).cases
    ensures SameDebt(db.cases[i], Run(db, ms, w).cases[i])
    ensures db.cases[i].status.Closed() ==> Run(db, ms, w).cases[i].status.Closed()
    ensures Run(db, ms, w).cases[i].status.Recovered? && !db.cases[i].status.Recovered?
            ==> exists k :: 0 <= k < |ms| && ms[k].Recover? && ms[k].caseId == i
    decreases |ms|
  {
    if ms != [] {
      var before, m := ms[..|ms| - 1], ms[|ms| - 1];
      var mid := Run(db, before, w);
      ClosedStaysClosed(db, before, w, i);
      EveryMove(mid, m, w, i);
      if Run(db, ms, w).cases[i].status.Recovered? && !db.cases[i].status.Recovered? {
        if mid.cases[i].status.Recovered? {
          var k :| 0 <= k < |before| && before[k].Recover? && before[k].caseId == i;
          assert ms[k] == before[k];
        } else {
          assert m.Recover? && m.caseId == i;
        }
      }
    }
  }

  /** A turn is taken on a claimed case only, so a closed case is never attempted
      again, whatever follows. */
  lemma {:induction false} ClosedIsNeverAttempted(db: Db, ms: seq<Move>, w: World, i: nat)
    requires i in db.cases && db.cases[i].status.Closed()
    ensures var log := Run(db, ms, w).log;
            && db.log <= log
            && forall k :: |db.log| <= k < |log| && log[k].Attempt? ==> log[k].caseId != i
    decreases |ms|
  {
    if ms != [] {
      var before, m := ms[..|ms| - 1], ms[|ms| - 1];
      var mid := Run(db, before, w);
      ClosedIsNeverAttempted(db, before, w, i);
      ClosedStaysClosed(db, before, w, i);
      assert Legal(mid, m, w) && m.Turn? ==> m.caseId != i;
    }
  }
}

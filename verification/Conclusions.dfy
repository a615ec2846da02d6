/** What a call does to the tables, intent by intent: its conclusion, a machine verdict on
    it, a link sent while it lasts. Told from the tables before and after the move. */
module Conclusions {
  import opened Domain
  import opened CaseWork
  import opened Lifecycle
  import Flow
  import Graph
  import Reruns
  import Walker

  /** The customer said no, disputes the charge, or is somebody else. */
  predicate Refuses(intent: Intent) { intent == IntentDeclined || intent == Dispute || intent == WrongNumber }

  /** Only a promise to pay now asks for a link, and only with somebody to send it to and
      a client to make it. */
  predicate AsksForALink(intent: Intent, person: Option<Customer>, reply: Option<LinkAnswer>) {
    intent == RetryNow && person.Some? && reply.Some?
  }

  predicate LinkStored(c: Case) { c.link.Some? && c.link.value.id != "" && c.link.value.url != "" }

  /** A link is made if one is asked for, none is stored yet, and Razorpay makes it. */
  predicate MakesALink(c: Case, intent: Intent, person: Option<Customer>, reply: Option<LinkAnswer>) {
    AsksForALink(intent, person, reply) && !LinkStored(c) && reply.value.LinkMade?
  }

  /** The case row: the promise is RETRY_NOW's alone, the refusals close the case and
      spend its budget, and nothing else moves but a link that is made. */
  predicate CaseConcluded(a: Case, b: Case, person: Option<Customer>, intent: Intent, reply: Option<LinkAnswer>,
                          now: int, st: Settings) {
    && b.promise == (if intent == RetryNow then Some(Promise(now, now + st.promiseWindowHours * HOUR)) else a.promise)
    && b.status == (if intent == IntentDeclined then Declined
                    else if intent == WrongNumber || intent == Dispute then Stopped
                    else a.status)
    && b.attemptCount == (if Refuses(intent) then a.maxAttempts else a.attemptCount)
    && b.link == (if MakesALink(a, intent, person, reply) then Some(reply.value.link) else a.link)
    && b == a.(promise := b.promise, status := b.status, attemptCount := b.attemptCount, link := b.link)
  }

  /** The person: a refusal or a dispute bars them, a wrong number only the number. */
  predicate PersonConcluded(a: Customer, b: Customer, intent: Intent) {
    && b.doNotContact == (a.doNotContact || intent == IntentDeclined || intent == Dispute)
    && b.phoneIsWrong == (a.phoneIsWrong || intent == WrongNumber)
    && b == a.(doNotContact := b.doNotContact, phoneIsWrong := b.phoneIsWrong)
  }

  /** The trail: a promise, the conclusion, the stop it leads to, the link, in this order. */
  function NotesOf(c: Case, person: Option<Customer>, intent: Intent, reply: Option<LinkAnswer>, now: int, st: Settings)
    : seq<Note>
  {
    match intent
    case RetryNow =>
      [PromiseMade(now + st.promiseWindowHours * HOUR), CallConcluded(RetryNow)]
      + if MakesALink(c, intent, person, reply) then [LinkCreated]
        else if AsksForALink(intent, person, reply) && LinkStored(c) then [LinkResent]
        else []
    case IntentDeclined => [CallConcluded(IntentDeclined), StoppedByCall(IntentDeclined)]
    case WrongNumber => [CallConcluded(WrongNumber), StoppedByCall(WrongNumber)]
    case Dispute => [CallConcluded(Dispute), StoppedByCall(Dispute)]
    case RetryLater => [CallConcluded(RetryLater)]
    case NoAnswer => [CallConcluded(NoAnswer)]
    case Unclear => [CallConcluded(Unclear)]
  }

  /** All the tables, before and after the conclusion of call `sid` on case `i`. */
  predicate Concludes(db: Db, d: Db, sid: string, i: nat, intent: Intent, status: CallStatus,
                      reply: Option<LinkAnswer>, now: int, st: Settings)
    requires sid in db.calls && i in db.cases
  {
    var c := db.cases[i];
    var person := CustomerOf(db.customers, c);
    && i in d.cases && CaseConcluded(c, d.cases[i], person, intent, reply, now, st)
    && d.cases == db.cases[i := d.cases[i]]
    && (person.None? ==> d.customers == db.customers)
    && (person.Some? ==>
          && c.customerId in d.customers && PersonConcluded(person.value, d.customers[c.customerId], intent)
          && d.customers == db.customers[c.customerId := d.customers[c.customerId]])
    && d.calls == db.calls[sid := Call(db.calls[sid].caseId, status, Some(intent))]
    && d.payments == db.payments && d.subscriptions == db.subscriptions
    && d.audit == db.audit + Rows(i, NotesOf(c, person, intent, reply, now, st))
    && d.log == db.log + if MakesALink(c, intent, person, reply) then [NewLink(i)] else []
  }

  lemma CaseIsConcluded(db: Db, i: nat, intent: Intent, reply: Option<LinkAnswer>, now: int, st: Settings)
    requires i in db.cases
    ensures var c := db.cases[i];
            var person := CustomerOf(db.customers, c);
            var ch := ConcludeChange(db, i, intent, reply, now, st);
            && CaseConcluded(c, ch.row, person, intent, reply, now, st)
            && ch.notes == NotesOf(c, person, intent, reply, now, st)
            && ch.entries == if MakesALink(c, intent, person, reply) then [NewLink(i)] else []
  {
  }

  lemma PersonIsConcluded(cu: Customer, intent: Intent)
    ensures PersonConcluded(cu, Suppressed(cu, intent), intent)
  {
  }

  /** Intent decides: what a conclusion does to every table, for all seven intents. */
  lemma IntentDecides(db: Db, m: Move, w: World)
    requires m.Conclude? && Legal(db, m, w)
    ensures Concludes(db, Apply(db, m, w), m.sid, m.caseId, m.intent, m.status, m.reply, m.now, w.st)
  {
    var c := db.cases[m.caseId];
    CaseIsConcluded(db, m.caseId, m.intent, m.reply, m.now, w.st);
    if CustomerOf(db.customers, c).Some? { PersonIsConcluded(db.customers[c.customerId], m.intent); }
    assert db.log + [] == db.log;
  }

  lemma OnlyRetryNowPromises(db: Db, m: Move, w: World)
    requires m.Conclude? && Legal(db, m, w)
    ensures m.caseId in Apply(db, m, w).cases
    ensures Apply(db, m, w).cases[m.caseId].promise ==
            if m.intent == RetryNow then Some(Promise(m.now, m.now + w.st.promiseWindowHours * HOUR))
            else db.cases[m.caseId].promise
  {
    IntentDecides(db, m, w);
  }

  /** Asked to call later, no answer, nothing clear: no case and no person is touched. */
  lemma QuietIntentsTouchNobody(db: Db, m: Move, w: World)
    requires m.Conclude? && Legal(db, m, w) && m.intent in {RetryLater, NoAnswer, Unclear}
    ensures Apply(db, m, w).cases == db.cases && Apply(db, m, w).customers == db.customers
    ensures Apply(db, m, w).log == db.log
  {
    IntentDecides(db, m, w);
  }

  // ------------------------------------------------- a conversation and its end

  /** What is recorded of a conversation. */
  function Recorded(nodes: seq<Graph.Node>, labels: seq<Walker.Said>, ttsFailures: seq<string>): Reruns.CallResult
    requires Graph.WellFormed(nodes)
  {
    Reruns.ResultOf(Walker.Walk(Graph.ById(nodes), Walker.Begin(nodes), labels), ttsFailures)
  }

  /** A conversation that ended on the way, or was not heard, touches no case and no
      person. */
  lemma UnfinishedCallsTouchNobody(nodes: seq<Graph.Node>, labels: seq<Walker.Said>, ttsFailures: seq<string>,
                                   db: Db, m: Move, w: World)
    requires Graph.WellFormed(nodes) && m.Conclude? && Legal(db, m, w)
    requires m.intent == Recorded(nodes, labels, ttsFailures).intent
    requires ttsFailures != [] || !Walker.Walk(Graph.ById(nodes), Walker.Begin(nodes), labels).node.Terminal()
    ensures Apply(db, m, w).cases == db.cases && Apply(db, m, w).customers == db.customers
  {
    QuietIntentsTouchNobody(db, m, w);
  }

  lemma OnlyPayNowSaysNow(node: Graph.Node)
    requires node in Flow.DUNNING_FLOW
    ensures node.Terminal() && node.intent == Some(RetryNow) <==> node == Flow.PAY_NOW
  {
  }

  /** On the shipped flow (well formed, by Flow.DunningIsWellFormed), whatever the model
      chooses: a call stamps a promise exactly if it was heard and ended at `pay_now`. */
  lemma OnlyPayNowPromises(flow: seq<Graph.Node>, labels: seq<Walker.Said>, ttsFailures: seq<string>,
                           db: Db, m: Move, w: World)
    requires flow == Flow.DUNNING_FLOW && Graph.WellFormed(flow)
    requires m.Conclude? && Legal(db, m, w) && m.intent == Recorded(flow, labels, ttsFailures).intent
    ensures var heard := ttsFailures == [];
            Apply(db, m, w).cases[m.caseId].promise ==
              if heard && Walker.Walk(Graph.ById(flow), Walker.Begin(flow), labels).node == Flow.PAY_NOW
              then Some(Promise(m.now, m.now + w.st.promiseWindowHours * HOUR)) else db.cases[m.caseId].promise
  {
    HeardAtPayNow(flow, labels, ttsFailures);
    OnlyRetryNowPromises(db, m, w);
  }

  lemma HeardAtPayNow(flow: seq<Graph.Node>, labels: seq<Walker.Said>, ttsFailures: seq<string>)
    requires flow == Flow.DUNNING_FLOW && Graph.WellFormed(flow)
    ensures Recorded(flow, labels, ttsFailures).intent == RetryNow <==>
              ttsFailures == [] && Walker.Walk(Graph.ById(flow), Walker.Begin(flow), labels).node == Flow.PAY_NOW
  {
    Walker.LogIsACompleteRecord(flow, labels);
    OnlyPayNowSaysNow(Walker.Walk(Graph.ById(flow), Walker.Begin(flow), labels).node);
  }

  // ------------------------------------------------------ verdicts, mid-call links

  /** A machine gives an attempt back if one was spent, and unanswers the call; a person is
      only noted. */
  lemma VerdictMeans(db: Db, m: Move, w: World)
    requires m.JudgeMachine? && Legal(db, m, w)
    ensures var i, d := db.calls[m.sid].caseId, Apply(db, m, w);
            var c := db.cases[i];
            && d.audit == db.audit + [AuditRow(i, MachineVerdict(m.machine))]
            && (!m.machine ==> d == db.(audit := d.audit))
            && (m.machine ==>
                  var gives := c.attemptCount > 0;
                  && d.cases == db.cases[i := c.(attemptCount := if gives then c.attemptCount - 1 else 0)]
                  && d.calls == db.calls[m.sid := Call(i, CallNoAnswer, None)]
                  && d.log == db.log + [Verdict(i, gives)]
                  && d.customers == db.customers && d.payments == db.payments && d.subscriptions == db.subscriptions)
  {
    var i := db.calls[m.sid].caseId;
    assert Rows(i, [MachineVerdict(m.machine)]) == [AuditRow(i, MachineVerdict(m.machine))];
    assert db.log + [] == db.log;
  }

  /** A link in mid-call is resent if there is one, else stored if Razorpay makes it, else
      nothing happens; it costs no attempt and says nothing to the policy's clocks. */
  lemma LinkInCallMeans(db: Db, m: Move, w: World)
    requires m.LinkInCall? && Legal(db, m, w)
    ensures var i, d := m.caseId, Apply(db, m, w);
            var c := db.cases[i];
            && (LinkStored(c) ==> d == db.(audit := db.audit + [AuditRow(i, LinkResent)]))
            && (!LinkStored(c) && m.link.LinkMade? ==>
                  d == db.(cases := db.cases[i := c.(link := Some(m.link.link))],
                           audit := db.audit + [AuditRow(i, LinkCreated)], log := db.log + [NewLink(i)]))
            && (!LinkStored(c) && !m.link.LinkMade? ==> d == db)
  {
    var i := m.caseId;
    assert Rows(i, [LinkResent]) == [AuditRow(i, LinkResent)] && Rows(i, [LinkCreated]) == [AuditRow(i, LinkCreated)];
    assert Rows(i, []) == [] && db.audit + [] == db.audit && db.log + [] == db.log;
  }
}

/** The whole service, one atomic step after the other: ticks, webhook deliveries, calls
    and what is concluded from them, in any order. Each step is a run of legal moves,
    so what is proved of every run of moves holds of the service. */
module Service {
  import opened CaseWork
  import opened Domain
  import opened Lifecycle
  import Charges
  import Ledger
  import Money
  import Persons
  import Redelivery
  import Ticks
  import Trail
  import Webhooks

  datatype Act =
    | Tick(order: seq<nat>, locked: set<nat>, limit: nat, oracle: nat -> Answers, now: int)
    | Deliver(event: Webhooks.Event, replies: Webhooks.Replies, now: int)
    | PlaceCall(sid: string, caseId: nat)
    | EndCall(sid: string, caseId: nat, intent: Intent, status: CallStatus, reply: Option<LinkAnswer>, now: int)
    | HearMachine(sid: string, machine: bool)
    | SendLinkInCall(caseId: nat, answer: LinkAnswer)

  /** What can happen in this database: queries answer about it, and calls are known. */
  predicate Possible(db: Db, act: Act, w: World) {
    match act
    case Tick(order, _, _, _, _) => Distinct(order)
    case Deliver(event, replies, _) => Webhooks.Truthful(db, event, replies, w)
    case PlaceCall(sid, i) => Legal(db, OpenCall(sid, i), w)
    case EndCall(sid, i, intent, status, reply, now) => Legal(db, Conclude(sid, i, intent, status, reply, now), w)
    case HearMachine(sid, machine) => Legal(db, JudgeMachine(sid, machine), w)
    case SendLinkInCall(i, answer) => Legal(db, LinkInCall(i, answer), w)
  }

  function MovesOf(db: Db, act: Act, w: World): seq<Move>
    requires Possible(db, act, w)
  {
    match act
    case Tick(order, locked, limit, oracle, now) =>
      Ticks.Turns(Ticks.Claimed(db.cases, order, locked, limit, now), oracle, now)
    case Deliver(event, replies, now) => Webhooks.Moves(db, event, replies, now, w)
    case PlaceCall(sid, i) => [OpenCall(sid, i)]
    case EndCall(sid, i, intent, status, reply, now) => [Conclude(sid, i, intent, status, reply, now)]
    case HearMachine(sid, machine) => [JudgeMachine(sid, machine)]
    case SendLinkInCall(i, answer) => [LinkInCall(i, answer)]
  }

  /** Impossible acts do not happen. */
  function Serve(db: Db, acts: seq<Act>, w: World): Db
    decreases |acts|
  {
    if acts == [] then db
    else
      var mid, act := Serve(db, acts[..|acts| - 1], w), acts[|acts| - 1];
      if Possible(mid, act, w) then Run(mid, MovesOf(mid, act, w), w) else mid
  }

  // ------------------------------------------------------------ acts are legal runs

  lemma MirrorsComeFirst(db: Db, ev: Webhooks.Event, r: Webhooks.Replies, now: int, w: World)
    requires Webhooks.Truthful(db, ev, r, w)
    ensures Run(db, Webhooks.Mirror(db, ev, r, w), w).cases == db.cases
    ensures forall m | m in Webhooks.Mirror(db, ev, r, w) :: Redelivery.IsPut(m)
  {
    Redelivery.MirrorIsPuts(db, ev, r, w);
    Redelivery.PutsDo(db, Webhooks.Mirror(db, ev, r, w), w);
  }

  /** What a handler does on the cases: cases at hand, or one new case. */
  lemma WorkIsOnKnownCases(db: Db, ev: Webhooks.Event, r: Webhooks.Replies, now: int, w: World)
    requires Webhooks.Truthful(db, ev, r, w)
    ensures var ms := Webhooks.OnCases(db, ev, r, now, w);
            || (|ms| == 1 && ms[0].OpenCase? && Legal(db, ms[0], w))
            || (forall m | m in ms ::
                  (m.Recover? || m.Halt? || (m.Annotate? && PlainNote(m.note))) && m.caseId in db.cases)
  {
    if ev.PaymentFailed? { Redelivery.OneThingToDo(db, ev, r, now, w); }
  }

  /** No handler relies on a move being refused. */
  lemma HandlerMovesAreLegal(db: Db, ev: Webhooks.Event, r: Webhooks.Replies, now: int, w: World, k: nat)
    requires Webhooks.Truthful(db, ev, r, w) && k < |Webhooks.Moves(db, ev, r, now, w)|
    ensures var ms := Webhooks.Moves(db, ev, r, now, w);
            Legal(Run(db, ms[..k], w), ms[k], w)
  {
    var mirror, work := Webhooks.Mirror(db, ev, r, w), Webhooks.OnCases(db, ev, r, now, w);
    var ms := mirror + work;
    MirrorsComeFirst(db, ev, r, now, w);
    WorkIsOnKnownCases(db, ev, r, now, w);
    if k < |mirror| {
      assert ms[k] in mirror;
    } else {
      var m := work[k - |mirror|];
      assert ms[k] == m && m in work;
      if m.OpenCase? {
        assert ms[..k] == mirror;
        OpeningStaysLegal(db, Run(db, mirror, w), m, w);
      } else {
        ClosedStaysClosed(db, ms[..k], w, m.caseId);
      }
    }
  }

  lemma OpeningStaysLegal(db: Db, d: Db, m: Move, w: World)
    requires m.OpenCase? && Legal(db, m, w) && d.cases == db.cases
    ensures Legal(d, m, w)
  {
  }

  lemma EveryMoveIsLegal(db: Db, act: Act, w: World, k: nat)
    requires Possible(db, act, w) && k < |MovesOf(db, act, w)|
    ensures var ms := MovesOf(db, act, w);
            Legal(Run(db, ms[..k], w), ms[k], w)
  {
    var ms := MovesOf(db, act, w);
    match act {
      case Tick(order, locked, limit, oracle, now) =>
        var ids := Ticks.Claimed(db.cases, order, locked, limit, now);
        Ticks.ClaimedIsTheFront(db.cases, order, locked, limit, now);
        assert ms[..k] == Ticks.Turns(ids[..k], oracle, now);
        Ticks.EveryTurnIsLegal(db, ids, oracle, now, w, k);
      case Deliver(event, replies, now) => HandlerMovesAreLegal(db, event, replies, now, w, k);
      case _ => assert ms[..0] == [];
    }
  }

  /** The moves of a whole service run. */
  function Script(db: Db, acts: seq<Act>, w: World): seq<Move>
    decreases |acts|
  {
    if acts == [] then []
    else
      var mid, act := Serve(db, acts[..|acts| - 1], w), acts[|acts| - 1];
      Script(db, acts[..|acts| - 1], w) + if Possible(mid, act, w) then MovesOf(mid, act, w) else []
  }

  lemma {:induction false} ServingIsRunning(db: Db, acts: seq<Act>, w: World)
    ensures Serve(db, acts, w) == Run(db, Script(db, acts, w), w)
    decreases |acts|
  {
    if acts != [] {
      var before, act := acts[..|acts| - 1], acts[|acts| - 1];
      var mid := Serve(db, before, w);
      ServingIsRunning(db, before, w);
      if Possible(mid, act, w) { RunsCompose(db, Script(db, before, w), MovesOf(mid, act, w), w); }
      else { assert Script(db, before, w) + [] == Script(db, before, w); }
    }
  }

  /** What the service keeps, whatever it is given to do: one case per payment and one
      active case per invoice, balanced books, spaced contacts, and a trail that
      tells what happened. */
  lemma TheServiceKeepsItsPromises(acts: seq<Act>, w: World)
    ensures var db := Serve(EMPTY, acts, w);
            && Money.PaymentIdsUnique(db) && Money.OneActiveCasePerInvoice(db, w)
            && Ledger.Books(db, w.st) && (forall i | i in db.cases :: Ledger.WithinBounds(db, w.st, i))
            && Persons.CasesSpaced(db, w.st) && Persons.PersonsSpaced(db, w.st)
            && (forall i, law :: Trail.TrueTrail(db, i, law))
  {
    var ms := Script(EMPTY, acts, w);
    ServingIsRunning(EMPTY, acts, w);
    Money.OneDebtOneCase(ms, w);
    Ledger.BooksBalance(EMPTY, ms, w);
    Persons.GapsHoldFromTheStart(ms, w);
    forall i | i in Run(EMPTY, ms, w).cases ensures Ledger.WithinBounds(Run(EMPTY, ms, w), w.st, i) {
      Ledger.BoundedWorkflow(ms, w, i);
    }
    forall i, law ensures Trail.TrueTrail(Run(EMPTY, ms, w), i, law) {
      Trail.TheTrailTellsTheTruth(ms, w, i, law);
    }
  }

  /** From any state on: who is barred stays barred and untouched, what is closed stays
      closed and untouched. */
  lemma TheServiceForgetsNothing(db: Db, acts: seq<Act>, w: World, k: string, i: nat)
    ensures var d := Serve(db, acts, w);
            && (Persons.Flagged(db, k) ==> Persons.Flagged(d, k) && Persons.Untouched(d.log, |db.log|, k))
            && (Persons.WrongPhone(db, k) ==> Persons.WrongPhone(d, k) && Persons.OnlyLinksReach(d.log, |db.log|, k))
            && (i in db.cases && db.cases[i].status.Closed() ==>
                  && i in d.cases && d.cases[i].status.Closed()
                  && forall p :: |db.log| <= p < |d.log| && d.log[p].Attempt? ==> d.log[p].caseId != i)
  {
    var ms := Script(db, acts, w);
    ServingIsRunning(db, acts, w);
    if k in db.customers { Persons.SuppressionFollowsThePerson(db, ms, w, k); }
    if i in db.cases {
      ClosedStaysClosed(db, ms, w, i);
      if db.cases[i].status.Closed() { ClosedIsNeverAttempted(db, ms, w, i); }
    }
  }

  // ----------------------------------------------------------- the conditional laws

  /** Razorpay's links carry an id and a URL. */
  ghost predicate TruthyAct(act: Act) {
    match act
    case Tick(_, _, _, oracle, _) => forall i :: Ledger.TruthyLink(oracle(i).link)
    case EndCall(_, _, _, _, reply, _) => reply.Some? ==> Ledger.TruthyLink(reply.value)
    case SendLinkInCall(_, answer) => Ledger.TruthyLink(answer)
    case _ => true
  }

  lemma TruthyActsMakeTruthyMoves(db: Db, act: Act, w: World)
    requires Possible(db, act, w) && TruthyAct(act)
    ensures forall m | m in MovesOf(db, act, w) :: Ledger.TruthyLinks(m)
  {
    if act.Deliver? {
      MirrorsComeFirst(db, act.event, act.replies, act.now, w);
      WorkIsOnKnownCases(db, act.event, act.replies, act.now, w);
    }
  }

  lemma {:induction false} TruthyScript(db: Db, acts: seq<Act>, w: World)
    requires forall k | 0 <= k < |acts| :: TruthyAct(acts[k])
    ensures forall m | m in Script(db, acts, w) :: Ledger.TruthyLinks(m)
    decreases |acts|
  {
    if acts != [] {
      var before, act := acts[..|acts| - 1], acts[|acts| - 1];
      var mid := Serve(db, before, w);
      TruthyScript(db, before, w);
      if Possible(mid, act, w) { TruthyActsMakeTruthyMoves(mid, act, w); }
    }
  }

  /** At most one link is made per case, whatever the service is given to do. */
  lemma OneLinkPerServedCase(acts: seq<Act>, w: World, i: nat)
    requires forall k | 0 <= k < |acts| :: TruthyAct(acts[k])
    requires i in Serve(EMPTY, acts, w).cases
    ensures Ledger.Linked(Serve(EMPTY, acts, w).cases[i], Serve(EMPTY, acts, w).log, i)
  {
    var ms := Script(EMPTY, acts, w);
    ServingIsRunning(EMPTY, acts, w);
    TruthyScript(EMPTY, acts, w);
    assert forall k | 0 <= k < |ms| :: ms[k] in ms;
    Ledger.OneLinkPerCase(ms, w, i);
  }

  /** A case is charged twice exactly where mandates are retried, the money was missing,
      and something is delivered after everything was refunded; and a case whose charges
      all fail sees nothing but those. */
  lemma ChargesOfServedCases(acts: seq<Act>, w: World, i: nat)
    requires i in Serve(EMPTY, acts, w).cases
    ensures var db := Serve(EMPTY, acts, w);
            var charged := Ledger.Count(db.log, i, Ledger.DeliveriesBy(Charging));
            var retried := w.st.mandateRetryEnabled && db.cases[i].cause.CustomerFunds?;
            && (charged >= 2 <==> retried && exists k: nat :: Charges.Redelivered(Script(EMPTY, acts, w), w, i, k))
            && (retried && charged == 0 ==> Charges.OnlyRefusals(db.cases[i], db, i, w.st))
  {
    var ms := Script(EMPTY, acts, w);
    var log := Run(EMPTY, ms, w).log;
    ServingIsRunning(EMPTY, acts, w);
    if w.st.mandateRetryEnabled && Run(EMPTY, ms, w).cases[i].cause.CustomerFunds? {
      Charges.ChargedTwiceExactlyIfRedelivered(ms, w, i);
      if Ledger.Count(log, i, Ledger.DeliveriesBy(Charging)) == 0 { Charges.RefusedChargesRunOut(ms, w, i); }
    } else {
      Charges.NobodyElseIsCharged(ms, w, i);
      Charges.DeliveredChargesAreAttempts(log, i);
    }
  }

  /** The act does not conclude a RECOVERED case with an intent that carries a status. */
  predicate RespectfulAct(db: Db, act: Act, w: World) {
    act.EndCall? && Possible(db, act, w) && OutcomeFor(act.intent).status.Some? ==>
      !db.cases[act.caseId].status.Recovered?
  }

  lemma RespectfulActsMakeRespectfulRuns(db: Db, act: Act, w: World)
    requires Possible(db, act, w) && RespectfulAct(db, act, w)
    ensures Money.RespectfulRun(db, MovesOf(db, act, w), w)
  {
    var ms := MovesOf(db, act, w);
    if act.EndCall? {
      assert ms[..0] == [];
    } else {
      if act.Deliver? {
        MirrorsComeFirst(db, act.event, act.replies, act.now, w);
        WorkIsOnKnownCases(db, act.event, act.replies, act.now, w);
      }
      NoConclusion(db, act, w);
    }
  }

  lemma NoConclusion(db: Db, act: Act, w: World)
    requires Possible(db, act, w) && !act.EndCall?
    ensures forall k | 0 <= k < |MovesOf(db, act, w)| :: !MovesOf(db, act, w)[k].Conclude?
  {
    if act.Deliver? {
      var mirror := Webhooks.Mirror(db, act.event, act.replies, w);
      var work := Webhooks.OnCases(db, act.event, act.replies, act.now, w);
      MirrorsComeFirst(db, act.event, act.replies, act.now, w);
      WorkIsOnKnownCases(db, act.event, act.replies, act.now, w);
      var ms: seq<Move> := mirror + work;
      forall k | 0 <= k < |ms| ensures !ms[k].Conclude? {
        assert ms[k] in mirror || ms[k] in work;
      }
    }
  }

  /** Over every service run that does not overwrite RECOVERED, a credit, the status and
      one PAYMENT_CAPTURED row go together. */
  lemma {:induction false} CreditsOfServedCases(acts: seq<Act>, w: World)
    requires forall k | 0 <= k < |acts| :: RespectfulAct(Serve(EMPTY, acts[..k], w), acts[k], w)
    ensures Money.CreditsMatch(Serve(EMPTY, acts, w))
    decreases |acts|
  {
    if acts != [] {
      var before, act := acts[..|acts| - 1], acts[|acts| - 1];
      var mid := Serve(EMPTY, before, w);
      forall k | 0 <= k < |before| ensures RespectfulAct(Serve(EMPTY, before[..k], w), before[k], w) {
        assert before[..k] == acts[..k] && before[k] == acts[k];
      }
      CreditsOfServedCases(before, w);
      if Possible(mid, act, w) {
        RespectfulActsMakeRespectfulRuns(mid, act, w);
        Money.RespectfulRunsKeepCredits(mid, MovesOf(mid, act, w), w);
      }
    }
  }

  /** And from a RECOVERED case on, no such run changes the credit. */
  lemma {:induction false} CreditsOfServedCasesStay(db: Db, acts: seq<Act>, w: World, i: nat)
    requires i in db.cases && db.cases[i].status.Recovered?
    requires forall k | 0 <= k < |acts| :: RespectfulAct(Serve(db, acts[..k], w), acts[k], w)
    ensures var d := Serve(db, acts, w);
            i in d.cases && d.cases[i].status.Recovered? && d.cases[i].credit == db.cases[i].credit
    decreases |acts|
  {
    if acts != [] {
      var before, act := acts[..|acts| - 1], acts[|acts| - 1];
      var mid := Serve(db, before, w);
      forall k | 0 <= k < |before| ensures RespectfulAct(Serve(db, before[..k], w), before[k], w) {
        assert before[..k] == acts[..k] && before[k] == acts[k];
      }
      CreditsOfServedCasesStay(db, before, w, i);
      if Possible(mid, act, w) {
        RespectfulActsMakeRespectfulRuns(mid, act, w);
        Money.CreditIsWrittenOnce(mid, MovesOf(mid, act, w), w, i);
      }
    }
  }
}

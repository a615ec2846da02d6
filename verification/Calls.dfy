/** app/voice/outcomes.py, app/voice/amd.py and the link sent in mid-call, on the row
    objects: each is the lifecycle's move of the same name. */
module Calls {
  import opened Domain
  import opened CaseWork
  import opened Lifecycle
  import opened Session
  import Conclusions
  import Orchestrator

  function SuppressedOf(cu: Option<Customer>, intent: Intent): Option<Customer> {
    if cu.Some? then Some(Suppressed(cu.value, intent)) else None
  }

  /** The case and the customer after the intent has been applied, and the trail. */
  method MoveByIntent(s: Tables, c: CaseRecord, cu: CustomerRecord?, intent: Intent, now: int, st: Settings)
    modifies s`audit, c, if cu == null then {} else {cu}
    ensures c.Row() == Concluded(old(c.Row()), intent, now, st)
    ensures RowOf(cu) == SuppressedOf(old(RowOf(cu)), intent)
    ensures s.audit == old(s.audit) + Rows(c.id, ConclusionNotes(intent, now, st))
  {
    var out := OutcomeFor(intent);
    if out.promises {
      c.promise := Some(Promise(now, now + st.promiseWindowHours * HOUR));
      s.LogAction(c, PromiseMade(now + st.promiseWindowHours * HOUR));
    }
    if out.status.Some? { c.status := out.status.value; }
    if out.suppress {
      c.attemptCount := c.maxAttempts;
      if cu != null {
        if intent.WrongNumber? { cu.phoneIsWrong := true; }
        else { cu.doNotContact := true; }
      }
    }
    s.LogAction(c, CallConcluded(intent));
    if out.status.Some? { s.LogAction(c, StoppedByCall(intent)); }
  }

  /** The row objects after a conclusion; a link that fails to be made does not undo
      the rest. */
  method ConcludeRows(s: Tables, c: CaseRecord, cu: CustomerRecord?, intent: Intent, reply: Option<LinkAnswer>,
                      now: int, st: Settings)
    modifies s`audit, s`log, c, if cu == null then {} else {cu}
    ensures var ch := ConclusionOf(old(c.Row()), c.id, old(RowOf(cu)).Some?, intent, reply, now, st);
            && c.Row() == ch.row && s.audit == old(s.audit) + Rows(c.id, ch.notes) && s.log == old(s.log) + ch.entries
    ensures RowOf(cu) == SuppressedOf(old(RowOf(cu)), intent)
  {
    MoveByIntent(s, c, cu, intent, now, st);
    ghost var notes := ConclusionNotes(intent, now, st);
    if OutcomeFor(intent).sendLink && cu != null && reply.Some? {
      ghost var l := LinkChange(c.Row(), c.id, reply.value);
      var made, raised := Orchestrator.CreateRecoveryLink(s, c, reply.value);
      RowsAppend(c.id, notes, l.notes);
    }
  }

  /** `apply_call_result`: the intent decides the case's fate. Call and case are handed
      over separately. */
  method ApplyCallResult(s: Tables, sid: string, i: nat, intent: Intent, status: CallStatus, reply: Option<LinkAnswer>,
                         now: int, w: World)
    requires s.Valid() && sid in s.calls && i in s.cases
    modifies s`calls, s`audit, s`log, s.Records()
    ensures s.Valid() && s.cases == old(s.cases) && s.customers == old(s.customers)
    ensures s.Snap() == Apply(old(s.Snap()), Conclude(sid, i, intent, status, reply, now), w)
    ensures Conclusions.Concludes(old(s.Snap()), s.Snap(), sid, i, intent, status, reply, now, w.st)
  {
    ghost var db := s.Snap();
    Conclusions.IntentDecides(db, Conclude(sid, i, intent, status, reply, now), w);
    s.SetCall(sid, Call(s.calls[sid].caseId, status, Some(intent)));
    ConcludeCase(s, i, intent, reply, now, w.st);
    ConcludedIsTheMove(db, sid, i, intent, status, reply, now, w);
  }

  method ConcludeCase(s: Tables, i: nat, intent: Intent, reply: Option<LinkAnswer>, now: int, st: Settings)
    requires s.Valid() && i in s.cases
    modifies s`audit, s`log, s.Records()
    ensures s.Valid() && s.cases == old(s.cases) && s.customers == old(s.customers)
    ensures s.Snap() == ConcludedDb(old(s.Snap()), i, intent, reply, now, st)
  {
    var c := s.cases[i];
    var cu := s.CustomerFor(c);
    ghost var db := s.Snap();
    assert db.cases[i] == c.Row() && CustomerOf(db.customers, c.Row()) == RowOf(cu);
    ConcludeRows(s, c, cu, intent, reply, now, st);
    s.OneCaseMoved(i, cu);
    ConcludedRows(db, i, c.Row(), if cu == null then "" else cu.key, RowOf(cu), s.audit, s.log, intent, reply, now, st);
  }

  lemma ConcludedRows(db: Db, i: nat, row: Case, k: string, cu: Option<Customer>, audit: seq<AuditRow>, log: seq<Entry>,
                      intent: Intent, reply: Option<LinkAnswer>, now: int, st: Settings)
    requires i in db.cases && (cu.Some? ==> k == db.cases[i].customerId)
    requires cu == SuppressedOf(CustomerOf(db.customers, db.cases[i]), intent)
    requires var ch := ConclusionOf(db.cases[i], i, cu.Some?, intent, reply, now, st);
             row == ch.row && audit == db.audit + Rows(i, ch.notes) && log == db.log + ch.entries
    ensures PutRows(db, i, row, k, cu, db.calls, audit, log) == ConcludedDb(db, i, intent, reply, now, st)
  {
  }

  /** What a conclusion does to its case, for a case with or without a customer row. */
  function ConclusionOf(c: Case, i: nat, known: bool, intent: Intent, reply: Option<LinkAnswer>, now: int,
                        st: Settings): Change {
    var c1 := Concluded(c, intent, now, st);
    var notes := ConclusionNotes(intent, now, st);
    if OutcomeFor(intent).sendLink && known && reply.Some? then
      var l := LinkChange(c1, i, reply.value);
      Change(i, l.row, notes + l.notes, l.entries)
    else Change(i, c1, notes, [])
  }

  /** The database after a conclusion, spelt out, but for the call's own row. */
  ghost function ConcludedDb(db: Db, i: nat, intent: Intent, reply: Option<LinkAnswer>, now: int, st: Settings): Db
    requires i in db.cases
  {
    var cu := CustomerOf(db.customers, db.cases[i]);
    var ch := ConclusionOf(db.cases[i], i, cu.Some?, intent, reply, now, st);
    PutRows(db, i, ch.row, db.cases[i].customerId, SuppressedOf(cu, intent), db.calls, db.audit + Rows(i, ch.notes),
            db.log + ch.entries)
  }

  lemma RowsAppend(i: nat, a: seq<Note>, b: seq<Note>)
    ensures Rows(i, a + b) == Rows(i, a) + Rows(i, b)
  {
  }

  lemma ConcludedIsTheMove(db: Db, sid: string, i: nat, intent: Intent, status: CallStatus,
                           reply: Option<LinkAnswer>, now: int, w: World)
    requires sid in db.calls && i in db.cases
    ensures var calls := db.calls[sid := Call(db.calls[sid].caseId, status, Some(intent))];
            Apply(db, Conclude(sid, i, intent, status, reply, now), w) ==
              ConcludedDb(db.(calls := calls), i, intent, reply, now, w.st)
  {
  }

  /** `apply_amd_result`: whether the call should be hung up. An unknown call changes
      nothing. */
  method ApplyAmdResult(s: Tables, sid: string, machine: bool, ghost w: World) returns (hangUp: bool)
    requires s.Valid() && (sid in s.calls ==> s.calls[sid].caseId in s.cases)
    modifies s`calls, s`audit, s`log, s.Records()
    ensures s.Valid() && s.cases == old(s.cases) && s.customers == old(s.customers)
    ensures s.Snap() == Apply(old(s.Snap()), JudgeMachine(sid, machine), w)
    ensures hangUp == (sid in old(s.calls) && machine)
  {
    if sid !in s.calls { return false; }
    VerdictIsTheMove(s.Snap(), sid, machine, w);
    VerdictTables(s, sid, machine);
    return machine;
  }

  method VerdictTables(s: Tables, sid: string, machine: bool)
    requires s.Valid() && sid in s.calls && s.calls[sid].caseId in s.cases
    modifies s`calls, s`audit, s`log, s.Records()
    ensures s.Valid() && s.cases == old(s.cases) && s.customers == old(s.customers)
    ensures s.Snap() == VerdictDb(old(s.Snap()), sid, machine)
  {
    var i := s.calls[sid].caseId;
    var c := s.cases[i];
    s.LogAction(c, MachineVerdict(machine));
    if machine {
      s.calls := s.calls[sid := Call(i, CallNoAnswer, None)];
      ghost var was := c.attemptCount;
      c.attemptCount := Max((if c.attemptCount == 0 then 1 else c.attemptCount) - 1, 0);
      s.log := s.log + [Verdict(i, c.attemptCount < was)];
    }
    s.OneCaseMoved(i, null);
  }

  /** The database after a verdict, spelt out. */
  ghost function VerdictDb(db: Db, sid: string, machine: bool): Db
    requires sid in db.calls && db.calls[sid].caseId in db.cases
  {
    var i := db.calls[sid].caseId;
    var ch := VerdictChange(db, sid, machine);
    PutRows(db, i, ch.row, "", None, if machine then db.calls[sid := Call(i, CallNoAnswer, None)] else db.calls,
            db.audit + [AuditRow(i, MachineVerdict(machine))], db.log + ch.entries)
  }

  lemma VerdictIsTheMove(db: Db, sid: string, machine: bool, w: World)
    requires sid in db.calls && db.calls[sid].caseId in db.cases
    ensures Apply(db, JudgeMachine(sid, machine), w) == VerdictDb(db, sid, machine)
  {
    var i := db.calls[sid].caseId;
    assert Rows(i, [MachineVerdict(machine)]) == [AuditRow(i, MachineVerdict(machine))];
  }

  /** `send_payment_link_now`, the tool the agent calls in mid-call; false without a
      case (0 is none), and when Razorpay's answer raised and nothing was committed. */
  method SendPaymentLinkNow(s: Tables, i: nat, answer: LinkAnswer, ghost w: World) returns (sent: bool)
    requires s.Valid()
    modifies s`audit, s`log, s.Records()
    ensures s.Valid() && s.cases == old(s.cases) && s.customers == old(s.customers)
    ensures s.Snap() == if i == 0 then old(s.Snap()) else Apply(old(s.Snap()), LinkInCall(i, answer), w)
    ensures sent == (i != 0 && i in s.cases && RecoveryLink(old(s.Snap()).cases[i], answer).note.Some?)
  {
    if i == 0 || i !in s.cases { return false; }
    LinkedIsTheMove(s.Snap(), i, answer, w);
    var raised := LinkTables(s, i, answer);
    return !raised;
  }

  method LinkTables(s: Tables, i: nat, answer: LinkAnswer) returns (raised: bool)
    requires s.Valid() && i in s.cases
    modifies s`audit, s`log, s.Records()
    ensures s.Valid() && s.cases == old(s.cases) && s.customers == old(s.customers)
    ensures s.Snap() == LinkedDb(old(s.Snap()), i, answer)
    ensures raised == RecoveryLink(old(s.cases[i].Row()), answer).note.None?
  {
    var c := s.cases[i];
    var made;
    made, raised := Orchestrator.CreateRecoveryLink(s, c, answer);
    s.OneCaseMoved(i, null);
  }

  /** The database after a link in mid-call, spelt out. */
  ghost function LinkedDb(db: Db, i: nat, answer: LinkAnswer): Db
    requires i in db.cases
  {
    var l := RecoveryLink(db.cases[i], answer);
    PutRows(db, i, l.row, "", None, db.calls,
            db.audit + (if l.note.Some? then [AuditRow(i, l.note.value)] else []),
            db.log + (if l.made then [NewLink(i)] else []))
  }

  lemma LinkedIsTheMove(db: Db, i: nat, answer: LinkAnswer, w: World)
    requires i in db.cases
    ensures Apply(db, LinkInCall(i, answer), w) == LinkedDb(db, i, answer)
  {
    var l := RecoveryLink(db.cases[i], answer);
    assert Rows(i, if l.note.Some? then [l.note.value] else [])
           == if l.note.Some? then [AuditRow(i, l.note.value)] else [];
  }
}

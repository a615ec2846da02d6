/** The audit trail against what really happened: every decision that changed a case,
    every charge, call, link and verdict has its row, and no row tells of anything
    else. Over every run. */
module Trail {
  import opened Domain
  import opened CaseWork
  import opened Lifecycle
  import Policy

  /** The laws of the trail: what its rows must add up to. */
  datatype Law = Decisions | Charges | ChargesTaken | CallsTried | CallsPlaced | LinksMade | MachineVerdicts

  /** What a row counts for. A decision that stopped the case has a row of its own. */
  function Told(n: Note, law: Law): int {
    match law
    case Decisions => if n.PolicyDecision? then 1 else if n.StoppedByPolicy? then -1 else 0
    case Charges => if n.MandateRetried? then 1 else 0
    case ChargesTaken => if n.MandateRetried? && n.outcome.Charged? then 1 else 0
    case CallsTried => if n.CallPlaced? || n.CallRaised? then 1 else 0
    case CallsPlaced => if n.CallPlaced? then 1 else 0
    case LinksMade => if n.LinkCreated? then 1 else 0
    case MachineVerdicts => if n.MachineVerdict? && n.machine then 1 else 0
  }

  /** What an event counts for. */
  function Happened(e: Entry, law: Law): int {
    match law
    case Decisions => if e.Attempt? then 1 else 0
    case Charges => if e.Attempt? && e.kind.Charging? then 1 else 0
    case ChargesTaken => if e.Attempt? && e.kind.Charging? && e.delivered then 1 else 0
    case CallsTried => if e.Attempt? && e.kind.Calling? then 1 else 0
    case CallsPlaced => if e.Attempt? && e.kind.Calling? && e.delivered then 1 else 0
    case LinksMade => if e.NewLink? then 1 else 0
    case MachineVerdicts => if e.Verdict? then 1 else 0
  }

  function RowSum(audit: seq<AuditRow>, i: nat, law: Law): int
    decreases |audit|
  {
    if audit == [] then 0
    else
      var last := audit[|audit| - 1];
      RowSum(audit[..|audit| - 1], i, law) + if last.caseId == i then Told(last.note, law) else 0
  }

  function EventSum(log: seq<Entry>, i: nat, law: Law): int
    decreases |log|
  {
    if log == [] then 0
    else
      var last := log[|log| - 1];
      EventSum(log[..|log| - 1], i, law) + if last.caseId == i then Happened(last, law) else 0
  }

  /** The rows of case `i` add up to what happened to it. */
  predicate TrueTrail(db: Db, i: nat, law: Law) { RowSum(db.audit, i, law) == EventSum(db.log, i, law) }

  // ------------------------------------------------------------------------- sums

  lemma {:induction false} RowSumAppends(a: seq<AuditRow>, b: seq<AuditRow>, i: nat, law: Law)
    ensures RowSum(a + b, i, law) == RowSum(a, i, law) + RowSum(b, i, law)
    decreases |b|
  {
    if b == [] {
      assert a + b == a;
    } else {
      assert (a + b)[..|a + b| - 1] == a + b[..|b| - 1];
      RowSumAppends(a, b[..|b| - 1], i, law);
    }
  }

  lemma {:induction false} EventSumAppends(a: seq<Entry>, b: seq<Entry>, i: nat, law: Law)
    ensures EventSum(a + b, i, law) == EventSum(a, i, law) + EventSum(b, i, law)
    decreases |b|
  {
    if b == [] {
      assert a + b == a;
    } else {
      assert (a + b)[..|a + b| - 1] == a + b[..|b| - 1];
      EventSumAppends(a, b[..|b| - 1], i, law);
    }
  }

  lemma {:induction false} StrangersAddNothing(audit: seq<AuditRow>, log: seq<Entry>, i: nat, law: Law)
    ensures (forall k | 0 <= k < |audit| :: audit[k].caseId != i) ==> RowSum(audit, i, law) == 0
    ensures (forall k | 0 <= k < |log| :: log[k].caseId != i) ==> EventSum(log, i, law) == 0
    decreases |audit| + |log|
  {
    if audit != [] { StrangersAddNothing(audit[..|audit| - 1], [], i, law); }
    if log != [] { StrangersAddNothing([], log[..|log| - 1], i, law); }
  }

  lemma {:induction false} QuietRowsAddNothing(i: nat, notes: seq<Note>, law: Law)
    requires forall k | 0 <= k < |notes| :: Told(notes[k], law) == 0
    ensures RowSum(Rows(i, notes), i, law) == 0
    decreases |notes|
  {
    if notes != [] {
      assert Rows(i, notes)[..|notes| - 1] == Rows(i, notes[..|notes| - 1]);
      QuietRowsAddNothing(i, notes[..|notes| - 1], law);
    }
  }

  lemma FewRows(i: nat, a: Note, b: Note, law: Law)
    ensures RowSum(Rows(i, []), i, law) == 0
    ensures RowSum(Rows(i, [a]), i, law) == Told(a, law)
    ensures RowSum(Rows(i, [a, b]), i, law) == Told(a, law) + Told(b, law)
  {
    assert Rows(i, [a])[..0] == [];
    assert Rows(i, [a, b])[..1] == Rows(i, [a]);
  }

  lemma FewEvents(i: nat, a: Entry, b: Entry, law: Law)
    requires a.caseId == i && b.caseId == i
    ensures EventSum([], i, law) == 0
    ensures EventSum([a], i, law) == Happened(a, law)
    ensures EventSum([a, b], i, law) == Happened(a, law) + Happened(b, law)
  {
    assert [a][..0] == [];
    assert [a, b][..1] == [a];
  }

  // ------------------------------------------------------------------- one change

  predicate TrueChange(i: nat, notes: seq<Note>, entries: seq<Entry>, law: Law) {
    RowSum(Rows(i, notes), i, law) == EventSum(entries, i, law)
  }

  /** A decision and its outcome, against an attempt and perhaps a new link. */
  lemma TwoRows(i: nat, d: Decision, note: Note, tried: Entry, made: bool, law: Law)
    requires tried.caseId == i
    requires Told(PolicyDecision(d), law) + Told(note, law) ==
             Happened(tried, law) + if made then Happened(NewLink(i), law) else 0
    ensures TrueChange(i, [PolicyDecision(d), note], [tried] + (if made then [NewLink(i)] else []), law)
  {
    FewRows(i, PolicyDecision(d), note, law);
    FewEvents(i, tried, NewLink(i), law);
    assert [tried] + [NewLink(i)] == [tried, NewLink(i)];
    assert [tried] + [] == [tried];
  }

  lemma InterventionIsTrue(c: Case, i: nat, cu: Customer, d: Decision, o: Answers, now: int, law: Law)
    requires Policy.Acts(d)
    ensures var w := Intervene(c, cu, d, o, now);
            TrueChange(i, w.notes, TurnEntries(i, c.customerId, w, now), law)
  {
    var begun := Begun(c, now);
    match d.action {
      case RetryMandate =>
        var outcome := Charge(begun, cu, o.charge, now);
        TwoRows(i, d, MandateRetried(outcome), Attempt(i, c.customerId, Charging, now, outcome.Charged?), false, law);
      case SendLink =>
        var l := RecoveryLink(begun, o.link);
        var note := if l.note.Some? then l.note.value else LinkRaised;
        TwoRows(i, d, note, Attempt(i, c.customerId, Linking, now, l.note.Some?), l.made, law);
      case PlaceCall =>
        var note := if o.callPlaced then CallPlaced else Note.CallRaised;
        TwoRows(i, d, note, Attempt(i, c.customerId, Calling, now, o.callPlaced), false, law);
    }
  }

  lemma TurnIsTrue(c: Case, i: nat, cu: Option<Customer>, o: Answers, now: int, st: Settings, law: Law)
    ensures var w := Work(c, cu, o, now, st);
            TrueChange(i, w.notes, TurnEntries(i, c.customerId, w, now), law)
  {
    var d := Policy.Decide(c, cu, now, st);
    if Policy.Acts(d) {
      Policy.ActingMeans(c, cu, now, st);
      InterventionIsTrue(c, i, cu.value, d, o, now, law);
    }
    FewRows(i, PolicyDecision(d), StoppedByPolicy(d.reason), law);
    FewEvents(i, NewLink(i), NewLink(i), law);
  }

  lemma LinkIsTrue(c: Case, i: nat, answer: LinkAnswer, law: Law)
    ensures TrueChange(i, LinkChange(c, i, answer).notes, LinkChange(c, i, answer).entries, law)
  {
    FewRows(i, LinkCreated, LinkCreated, law);
    FewRows(i, LinkResent, LinkResent, law);
    FewEvents(i, NewLink(i), NewLink(i), law);
  }

  /** A conclusion notes what no law counts, and then perhaps a link. */
  lemma ConclusionIsTrue(db: Db, i: nat, intent: Intent, reply: Option<LinkAnswer>, now: int, st: Settings, law: Law)
    requires i in db.cases
    ensures var ch := ConcludeChange(db, i, intent, reply, now, st);
            TrueChange(ch.caseId, ch.notes, ch.entries, law)
  {
    var c := Concluded(db.cases[i], intent, now, st);
    var notes := ConclusionNotes(intent, now, st);
    QuietRowsAddNothing(i, notes, law);
    FewEvents(i, NewLink(i), NewLink(i), law);
    if reply.Some? {
      LinkIsTrue(c, i, reply.value, law);
      QuietThenTrue(i, notes, LinkChange(c, i, reply.value), law);
    }
  }

  lemma QuietThenTrue(i: nat, notes: seq<Note>, l: Change, law: Law)
    requires RowSum(Rows(i, notes), i, law) == 0
    requires l.Change? && TrueChange(i, l.notes, l.entries, law)
    ensures TrueChange(i, notes + l.notes, l.entries, law)
  {
    assert Rows(i, notes + l.notes) == Rows(i, notes) + Rows(i, l.notes);
    RowSumAppends(Rows(i, notes), Rows(i, l.notes), i, law);
  }

  lemma VerdictIsTrue(db: Db, sid: string, machine: bool, law: Law)
    requires sid in db.calls && db.calls[sid].caseId in db.cases
    ensures var ch := VerdictChange(db, sid, machine);
            TrueChange(ch.caseId, ch.notes, ch.entries, law)
  {
    var i, ch := db.calls[sid].caseId, VerdictChange(db, sid, machine);
    FewRows(i, MachineVerdict(machine), MachineVerdict(machine), law);
    FewEvents(i, Verdict(i, true), Verdict(i, false), law);
    FewEvents(i, Verdict(i, false), Verdict(i, true), law);
  }

  lemma ChangeIsTrue(db: Db, m: Move, w: World, law: Law)
    requires Legal(db, m, w) && ChangeOf(db, m, w).Change?
    ensures var ch := ChangeOf(db, m, w);
            TrueChange(ch.caseId, ch.notes, ch.entries, law)
  {
    if m.Turn? {
      TurnIsTrue(db.cases[m.caseId], m.caseId, CustomerOf(db.customers, db.cases[m.caseId]), m.answers, m.now, w.st,
                 law);
    } else if m.Conclude? {
      ConclusionIsTrue(db, m.caseId, m.intent, m.reply, m.now, w.st, law);
    } else if m.JudgeMachine? {
      VerdictIsTrue(db, m.sid, m.machine, law);
    } else if m.LinkInCall? {
      LinkIsTrue(db.cases[m.caseId], m.caseId, m.link, law);
    } else {
      QuietRowsAddNothing(ChangeOf(db, m, w).caseId, ChangeOf(db, m, w).notes, law);
    }
  }

  // ---------------------------------------------------------------------- every run

  /** Trail and log grow alike, whosever case the change is about. */
  lemma GrowAlike(audit: seq<AuditRow>, log: seq<Entry>, j: nat, notes: seq<Note>, entries: seq<Entry>, i: nat,
                  law: Law)
    requires RowSum(audit, i, law) == EventSum(log, i, law) && TrueChange(j, notes, entries, law)
    requires forall k | 0 <= k < |entries| :: entries[k].caseId == j
    ensures RowSum(audit + Rows(j, notes), i, law) == EventSum(log + entries, i, law)
  {
    RowSumAppends(audit, Rows(j, notes), i, law);
    EventSumAppends(log, entries, i, law);
    if i != j { StrangersAddNothing(Rows(j, notes), entries, i, law); }
  }

  lemma MoveKeepsTrail(db: Db, m: Move, w: World, i: nat, law: Law)
    requires TrueTrail(db, i, law)
    ensures TrueTrail(Apply(db, m, w), i, law)
  {
    if Legal(db, m, w) && ChangeOf(db, m, w).Change? {
      var ch := ChangeOf(db, m, w);
      ChangeIsTrue(db, m, w, law);
      EveryEntry(db, m, w);
      GrowAlike(db.audit, db.log, ch.caseId, ch.notes, ch.entries, i, law);
    }
  }

  /** The trail tells the truth: in every state reached from the empty database a case
      has one decision row for every attempt and every stop, one row for every charge
      tried and taken, every call tried and placed, every link made and every machine
      verdict, and no more. */
  lemma {:induction false} TheTrailTellsTheTruth(ms: seq<Move>, w: World, i: nat, law: Law)
    ensures TrueTrail(Run(EMPTY, ms, w), i, law)
    decreases |ms|
  {
    if ms != [] {
      TheTrailTellsTheTruth(ms[..|ms| - 1], w, i, law);
      MoveKeepsTrail(Run(EMPTY, ms[..|ms| - 1], w), ms[|ms| - 1], w, i, law);
    }
  }
}

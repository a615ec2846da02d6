/** What a tick reports is what it did: the counters of its result against the entries and
    the audit rows the tick left behind. */
module Reports {
  import opened Domain
  import opened CaseWork
  import opened Lifecycle
  import opened Ticks
  import Policy

  /** Those of `xs` that are as asked for, in order. */
  function Picked<T(!new)>(xs: seq<T>, p: T -> bool): seq<T>
    decreases |xs|
  {
    if xs == [] then [] else Picked(xs[..|xs| - 1], p) + if p(xs[|xs| - 1]) then [xs[|xs| - 1]] else []
  }

  lemma {:induction false} PickedAppends<T(!new)>(a: seq<T>, b: seq<T>, p: T -> bool)
    ensures Picked(a + b, p) == Picked(a, p) + Picked(b, p)
    decreases |b|
  {
    if b == [] {
      assert a + b == a;
    } else {
      assert (a + b)[..|a + b| - 1] == a + b[..|b| - 1];
      PickedAppends(a, b[..|b| - 1], p);
    }
  }

  lemma PickedTwo<T(!new)>(a: T, b: T, p: T -> bool)
    ensures Picked([], p) == []
    ensures Picked([a], p) == if p(a) then [a] else []
    ensures Picked([a, b], p) == (if p(a) then [a] else []) + if p(b) then [b] else []
  {
    assert [a][..0] == [] && [a, b][..1] == [a];
  }

  // ------------------------------------------------------- what can be looked for

  predicate ChargeTaken(e: Entry) { e.Attempt? && e.kind == Charging && e.delivered }

  predicate LinkSent(e: Entry) { e.Attempt? && e.kind == Linking && e.delivered }

  predicate CallMade(e: Entry) { e.Attempt? && e.kind == Calling && e.delivered }

  predicate Reached(e: Entry) { e.Attempt? && e.delivered }

  predicate NotReached(e: Entry) { e.Attempt? && !e.delivered }

  predicate IsDecision(row: AuditRow) { row.note.PolicyDecision? }

  predicate IsStop(row: AuditRow) { row.note.StoppedByPolicy? }

  predicate IsForAHuman(row: AuditRow) { row.note == StoppedByPolicy(NeedsHuman) }

  function Whom(entries: seq<Entry>): seq<string> {
    seq(|entries|, k requires 0 <= k < |entries| => if entries[k].Attempt? then entries[k].customerId else "")
  }

  /** The tally, recounted from the entries and from the rows left behind. */
  predicate ByEntries(t: Tally, entries: seq<Entry>) {
    && t.charged == |Picked(entries, ChargeTaken)|
    && t.linked == |Picked(entries, LinkSent)|
    && t.contacted == |Picked(entries, CallMade)|
    && t.failed == |Picked(entries, NotReached)|
    && t.pendingCooldowns == Whom(Picked(entries, Reached))
  }

  predicate ByRows(t: Tally, rows: seq<AuditRow>) {
    && t.stopped == |Picked(rows, IsStop)|
    && t.needsHuman == |Picked(rows, IsForAHuman)|
    && t.considered == t.waiting + |Picked(rows, IsDecision)|
  }

  /** The tally of a tick from one database to another. */
  predicate Reported(t: Tally, before: Db, after: Db) {
    && before.log <= after.log && before.audit <= after.audit
    && ByEntries(t, after.log[|before.log|..])
    && ByRows(t, after.audit[|before.audit|..])
  }

  // ----------------------------------------------------------------- one turn

  lemma OneAttemptCounts(e: Entry, made: bool)
    requires e.Attempt?
    ensures var es := [e] + if made then [NewLink(e.caseId)] else [];
            && Picked(es, ChargeTaken) == (if ChargeTaken(e) then [e] else [])
            && Picked(es, LinkSent) == (if LinkSent(e) then [e] else [])
            && Picked(es, CallMade) == (if CallMade(e) then [e] else [])
            && Picked(es, Reached) == (if Reached(e) then [e] else [])
            && Picked(es, NotReached) == (if NotReached(e) then [e] else [])
  {
    var f := NewLink(e.caseId);
    assert [e] + [f] == [e, f] && [e] + [] == [e];
    PickedTwo(e, f, ChargeTaken);
    PickedTwo(e, f, LinkSent);
    PickedTwo(e, f, CallMade);
    PickedTwo(e, f, Reached);
    PickedTwo(e, f, NotReached);
  }

  lemma NothingCounts()
    ensures Picked<Entry>([], ChargeTaken) == Picked<Entry>([], LinkSent) == Picked<Entry>([], CallMade) == []
    ensures Picked<Entry>([], Reached) == Picked<Entry>([], NotReached) == []
    ensures Picked<AuditRow>([], IsDecision) == Picked<AuditRow>([], IsStop) == Picked<AuditRow>([], IsForAHuman) == []
  {
  }

  lemma TwoNotesCount(i: nat, a: Note, b: Note)
    ensures var rows := Rows(i, [a, b]);
            && |Picked(rows, IsDecision)| == (if a.PolicyDecision? then 1 else 0) + (if b.PolicyDecision? then 1 else 0)
            && |Picked(rows, IsStop)| == (if a.StoppedByPolicy? then 1 else 0) + (if b.StoppedByPolicy? then 1 else 0)
            && |Picked(rows, IsForAHuman)| ==
               (if a == StoppedByPolicy(NeedsHuman) then 1 else 0) + (if b == StoppedByPolicy(NeedsHuman) then 1 else 0)
  {
    assert Rows(i, [a, b]) == [AuditRow(i, a), AuditRow(i, b)];
    PickedTwo(AuditRow(i, a), AuditRow(i, b), IsDecision);
    PickedTwo(AuditRow(i, a), AuditRow(i, b), IsStop);
    PickedTwo(AuditRow(i, a), AuditRow(i, b), IsForAHuman);
  }

  lemma EffectIsEntered(i: nat, customerId: string, t: Worked, now: int)
    ensures ByEntries(Counted(NOTHING, t.effect, customerId), TurnEntries(i, customerId, t, now))
  {
    NothingCounts();
    if t.effect.Attempted() {
      OneAttemptCounts(Attempt(i, customerId, t.effect.kind, now, t.effect.Delivered?), t.linkMade);
    }
  }

  /** The notes of a turn, by what it amounted to. */
  predicate NotesFit(t: Worked) {
    if t.effect.Waited? then t.notes == []
    else
      && |t.notes| == 2 && t.notes[0].PolicyDecision? && !t.notes[1].PolicyDecision?
      && (if t.effect.Closed? then t.notes[1] == StoppedByPolicy(t.effect.reason) else !t.notes[1].StoppedByPolicy?)
  }

  lemma TurnsNote(c: Case, cu: Option<Customer>, o: Answers, now: int, st: Settings)
    ensures NotesFit(Work(c, cu, o, now, st))
  {
    if Policy.Acts(Policy.Decide(c, cu, now, st)) { Policy.ActingMeans(c, cu, now, st); }
  }

  lemma EffectIsNoted(i: nat, customerId: string, t: Worked)
    requires NotesFit(t)
    ensures ByRows(Counted(NOTHING, t.effect, customerId), Rows(i, t.notes))
  {
    NothingCounts();
    if t.effect.Waited? {
      assert Rows(i, []) == [];
    } else {
      assert t.notes == [t.notes[0], t.notes[1]];
      TwoNotesCount(i, t.notes[0], t.notes[1]);
    }
  }

  // ------------------------------------------------------------------- a tick

  function Plus(a: Tally, b: Tally): Tally {
    Tally(a.considered + b.considered, a.contacted + b.contacted, a.linked + b.linked, a.charged + b.charged,
          a.stopped + b.stopped, a.needsHuman + b.needsHuman, a.waiting + b.waiting, a.failed + b.failed,
          a.pendingCooldowns + b.pendingCooldowns)
  }

  lemma CountingIsAdding(t: Tally, e: Effect, customerId: string)
    ensures Counted(t, e, customerId) == Plus(t, Counted(NOTHING, e, customerId))
  {
  }

  lemma EntriesAdd(a: Tally, b: Tally, es: seq<Entry>, fs: seq<Entry>)
    requires ByEntries(a, es) && ByEntries(b, fs)
    ensures ByEntries(Plus(a, b), es + fs)
  {
    PickedAppends(es, fs, ChargeTaken);
    PickedAppends(es, fs, LinkSent);
    PickedAppends(es, fs, CallMade);
    PickedAppends(es, fs, NotReached);
    PickedAppends(es, fs, Reached);
    WhomAppends(Picked(es, Reached), Picked(fs, Reached));
  }

  lemma WhomAppends(a: seq<Entry>, b: seq<Entry>)
    ensures Whom(a + b) == Whom(a) + Whom(b)
  {
  }

  lemma RowsAdd(a: Tally, b: Tally, rows: seq<AuditRow>, more: seq<AuditRow>)
    requires ByRows(a, rows) && ByRows(b, more)
    ensures ByRows(Plus(a, b), rows + more)
  {
    PickedAppends(rows, more, IsDecision);
    PickedAppends(rows, more, IsStop);
    PickedAppends(rows, more, IsForAHuman);
  }

  lemma Longer<T>(a: seq<T>, b: seq<T>, more: seq<T>)
    requires a <= b
    ensures a <= b + more && (b + more)[|a|..] == b[|a|..] + more
  {
  }

  lemma OneTurnFurther(db: Db, mid: Db, t: Tally, i: nat, o: Answers, now: int, w: World)
    requires Reported(t, db, mid) && Legal(mid, Turn(i, o, now), w)
    ensures var after := Counted(t, EffectOf(mid, i, o, now, w), mid.cases[i].customerId);
            Reported(after, db, Apply(mid, Turn(i, o, now), w))
  {
    var c := mid.cases[i];
    var worked := Work(c, CustomerOf(mid.customers, c), o, now, w.st);
    var one := Counted(NOTHING, worked.effect, c.customerId);
    var entries, rows := TurnEntries(i, c.customerId, worked, now), Rows(i, worked.notes);
    EffectIsEntered(i, c.customerId, worked, now);
    TurnsNote(c, CustomerOf(mid.customers, c), o, now, w.st);
    EffectIsNoted(i, c.customerId, worked);
    CountingIsAdding(t, worked.effect, c.customerId);
    EntriesAdd(t, one, mid.log[|db.log|..], entries);
    RowsAdd(t, one, mid.audit[|db.audit|..], rows);
    Longer(db.log, mid.log, entries);
    Longer(db.audit, mid.audit, rows);
  }

  lemma TickOneMore(db: Db, ids: seq<nat>, oracle: nat -> Answers, now: int, w: World)
    requires ids != []
    requires ids[|ids| - 1] in Run(db, Turns(ids[..|ids| - 1], oracle, now), w).cases
    ensures var init, i := ids[..|ids| - 1], ids[|ids| - 1];
            var mid := Run(db, Turns(init, oracle, now), w);
            && Run(db, Turns(ids, oracle, now), w) == Apply(mid, Turn(i, oracle(i), now), w)
            && Ticked(db, ids, oracle, now, w) ==
               Counted(Ticked(db, init, oracle, now, w), EffectOf(mid, i, oracle(i), now, w), mid.cases[i].customerId)
  {
    var init, i := ids[..|ids| - 1], ids[|ids| - 1];
    assert Turns(ids, oracle, now) == Turns(init, oracle, now) + [Turn(i, oracle(i), now)];
    RunOneMore(db, Turns(init, oracle, now), Turn(i, oracle(i), now), w);
  }

  /** Each counter of a tick is the number of the entries or rows of its kind that the tick
      left behind, and the cooldowns announced are the persons reached, in order. */
  lemma {:induction false} TicksReportWhatTheyDid(db: Db, ids: seq<nat>, oracle: nat -> Answers, now: int, w: World)
    requires Distinct(ids) && forall i | i in ids :: i in db.cases && Claimable(db.cases[i], now)
    ensures Reported(Ticked(db, ids, oracle, now, w), db, Run(db, Turns(ids, oracle, now), w))
    decreases |ids|
  {
    if ids == [] {
      NothingCounts();
    } else {
      var init, last := ids[..|ids| - 1], ids[|ids| - 1];
      TicksReportWhatTheyDid(db, init, oracle, now, w);
      EveryTurnIsLegal(db, ids, oracle, now, w, |ids| - 1);
      var mid := Run(db, Turns(init, oracle, now), w);
      OneTurnFurther(db, mid, Ticked(db, init, oracle, now, w), last, oracle(last), now, w);
      TickOneMore(db, ids, oracle, now, w);
    }
  }
}

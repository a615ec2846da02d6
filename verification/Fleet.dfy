/** Several workers on one queue: the claim query takes its rows FOR UPDATE SKIP
    LOCKED, the batch is worked inside the claiming transaction, and the commit
    publishes it (app/orchestrator.py:79-92, 124-185).

    A step is taken by one worker or by somebody else; any number of workers, any
    interleaving, any clocks. Customer rows are not locked, so what a worker reads
    of a customer is left entirely open here. */
module Fleet {
  import opened Domain
  import CaseWork
  import Lifecycle

  datatype Stamp = Stamp(caseId: nat, at: int)

  /** An open transaction: the clock it was started with, what is still to be
      worked, the locked rows as it now sees them, and the attempts it made. */
  datatype Txn = Txn(now: int, todo: seq<nat>, rows: map<nat, Case>, made: seq<Stamp>)

  /** The committed cases, the open transactions by worker, and the attempts that
      were committed, in the order of their commits. */
  datatype State = State(cases: map<nat, Case>, open: map<nat, Txn>, record: seq<Stamp>)

  datatype Step =
    | Claim(worker: nat, batch: seq<nat>, now: int)
    | WorkNext(worker: nat, customer: Option<Customer>, answers: Answers)
    | Commit(worker: nat)
    | Abort(worker: nat)
    | Elsewhere(caseId: nat, row: Case)

  predicate Locked(s: State, i: nat) { exists k | k in s.open :: i in s.open[k].rows }

  predicate Enabled(s: State, step: Step) {
    match step
    case Claim(k, batch, now) =>
      && k !in s.open && Distinct(batch)
      && forall i | i in batch :: i in s.cases && CaseWork.Claimable(s.cases[i], now) && !Locked(s, i)
    case WorkNext(k, _, _) =>
      k in s.open && s.open[k].todo != [] && s.open[k].todo[0] in s.open[k].rows
    case Commit(k) => k in s.open && s.open[k].todo == []
    case Abort(k) => k in s.open
    case Elsewhere(i, row) =>
      && !Locked(s, i)
      && row.lastAttemptAt == (if i in s.cases then s.cases[i].lastAttemptAt else None)
      && (i in s.cases && s.cases[i].status.Closed() ==> row.status.Closed())
  }

  function Worked(t: Txn, customer: Option<Customer>, o: Answers, st: Settings): Txn
    requires t.todo != [] && t.todo[0] in t.rows
  {
    var i := t.todo[0];
    var w := CaseWork.Work(t.rows[i], customer, o, t.now, st);
    Txn(t.now, t.todo[1..], t.rows[i := w.row], if w.effect.Attempted() then t.made + [Stamp(i, t.now)] else t.made)
  }

  function Next(s: State, step: Step, st: Settings): State {
    if !Enabled(s, step) then s
    else match step
      case Claim(k, batch, now) => s.(open := s.open[k := Txn(now, batch, map i | i in batch :: s.cases[i], [])])
      case WorkNext(k, customer, o) => s.(open := s.open[k := Worked(s.open[k], customer, o, st)])
      case Commit(k) => State(s.cases + s.open[k].rows, s.open - {k}, s.record + s.open[k].made)
      case Abort(k) => s.(open := s.open - {k})
      case Elsewhere(i, row) => s.(cases := s.cases[i := row])
  }

  function Run(s: State, steps: seq<Step>, st: Settings): State
    decreases |steps|
  {
    if steps == [] then s
    else Next(Run(s, steps[..|steps| - 1], st), steps[|steps| - 1], st)
  }

  // ---------------------------------------------------------------- invariant

  /** What holds of one locked row: the committed version is active, and the
      version the worker holds has moved its clock only by a spaced attempt. */
  predicate RowFits(cases: map<nat, Case>, t: Txn, i: nat, st: Settings)
    requires i in t.rows
  {
    && i in cases && cases[i].status.Active()
    && (t.rows[i].lastAttemptAt == cases[i].lastAttemptAt
        || (t.rows[i].lastAttemptAt == Some(t.now) && i !in t.todo
            && (cases[i].lastAttemptAt.Some? ==> t.now - cases[i].lastAttemptAt.value >= st.retryBackoffHours * HOUR)))
  }

  predicate StampFits(cases: map<nat, Case>, t: Txn, p: nat, st: Settings)
    requires p < |t.made|
  {
    var i := t.made[p].caseId;
    && i in t.rows && i !in t.todo && t.made[p].at == t.now
    && t.rows[i].lastAttemptAt == Some(t.now)
    && i in cases
    && (cases[i].lastAttemptAt.Some? ==> t.now - cases[i].lastAttemptAt.value >= st.retryBackoffHours * HOUR)
  }

  predicate Fits(cases: map<nat, Case>, t: Txn, st: Settings) {
    && Distinct(t.todo)
    && (forall i | i in t.todo :: i in t.rows)
    && (forall i | i in t.rows :: RowFits(cases, t, i, st))
    && (forall p | 0 <= p < |t.made| :: StampFits(cases, t, p, st))
    && (forall p, q | 0 <= p < q < |t.made| :: t.made[p].caseId != t.made[q].caseId)
  }

  predicate LocksDisjoint(s: State) {
    forall a, b | a in s.open && b in s.open && a != b :: s.open[a].rows.Keys !! s.open[b].rows.Keys
  }

  /** Any two committed attempts on one case are a backoff apart, and none is later
      than the case's clock. */
  predicate RecordSpaced(s: State, st: Settings) {
    && (forall p, q | 0 <= p < q < |s.record| && s.record[p].caseId == s.record[q].caseId ::
          s.record[q].at - s.record[p].at >= st.retryBackoffHours * HOUR)
    && (forall p | 0 <= p < |s.record| ::
          && s.record[p].caseId in s.cases
          && s.cases[s.record[p].caseId].lastAttemptAt.Some?
          && s.record[p].at <= s.cases[s.record[p].caseId].lastAttemptAt.value)
  }

  predicate Inv(s: State, st: Settings) {
    && LocksDisjoint(s)
    && (forall k | k in s.open :: Fits(s.cases, s.open[k], st))
    && RecordSpaced(s, st)
  }

  lemma ClaimKeeps(s: State, step: Step, st: Settings)
    requires Inv(s, st) && step.Claim? && Enabled(s, step)
    ensures Inv(Next(s, step, st), st)
  {
    var after := Next(s, step, st);
    NobodyElseHolds(s, step, st);
    forall k | k in after.open ensures Fits(after.cases, after.open[k], st) {
      if k != step.worker { assert after.open[k] == s.open[k]; }
    }
  }

  lemma NobodyElseHolds(s: State, step: Step, st: Settings)
    requires LocksDisjoint(s) && step.Claim? && Enabled(s, step)
    ensures LocksDisjoint(Next(s, step, st))
  {
    var after := Next(s, step, st);
    assert forall i, b | i in step.batch && b in s.open :: i !in s.open[b].rows by {
      assert forall i | i in step.batch :: !Locked(s, i);
    }
    assert after.open[step.worker].rows.Keys == set i | i in step.batch;
  }

  lemma WorkFits(cases: map<nat, Case>, t: Txn, customer: Option<Customer>, o: Answers, st: Settings)
    requires Fits(cases, t, st) && t.todo != []
    ensures Fits(cases, Worked(t, customer, o, st), st)
  {
    var i := t.todo[0];
    var u := Worked(t, customer, o, st);
    var w := CaseWork.Work(t.rows[i], customer, o, t.now, st);
    assert RowFits(cases, t, i, st);
    if w.effect.Attempted() { CaseWork.AttemptMeans(t.rows[i], customer, o, t.now, st); }
    else { CaseWork.OtherwiseNothingMoves(t.rows[i], customer, o, t.now, st); }
    assert forall j | j in u.todo :: j in t.todo && j != i;
    forall j | j in u.rows ensures RowFits(cases, u, j, st) {
      if j != i { assert RowFits(cases, t, j, st); }
    }
    forall p | 0 <= p < |u.made| ensures StampFits(cases, u, p, st) {
      if p < |t.made| { assert StampFits(cases, t, p, st) && u.made[p] == t.made[p]; }
    }
    forall p, q | 0 <= p < q < |u.made| ensures u.made[p].caseId != u.made[q].caseId {
      assert StampFits(cases, t, p, st);
    }
  }

  lemma CommitKeepsRecord(s: State, k: nat, st: Settings)
    requires Inv(s, st) && Enabled(s, Commit(k))
    ensures RecordSpaced(Next(s, Commit(k), st), st)
  {
    var after := Next(s, Commit(k), st);
    var t := s.open[k];
    assert Fits(s.cases, t, st);
    forall p | 0 <= p < |after.record|
      ensures after.record[p].caseId in after.cases && after.cases[after.record[p].caseId].lastAttemptAt.Some?
              && after.record[p].at <= after.cases[after.record[p].caseId].lastAttemptAt.value
    {
      if p < |s.record| {
        var i := s.record[p].caseId;
        if i in t.rows { assert RowFits(s.cases, t, i, st); }
      } else {
        assert StampFits(s.cases, t, p - |s.record|, st);
      }
    }
    forall p, q | 0 <= p < q < |after.record| && after.record[p].caseId == after.record[q].caseId
      ensures after.record[q].at - after.record[p].at >= st.retryBackoffHours * HOUR
    {
      if q >= |s.record| {
        assert StampFits(s.cases, t, q - |s.record|, st);
        assert after.record[q] == t.made[q - |s.record|];
      }
    }
  }

  /** A row that another worker holds is not touched by a commit. */
  lemma CommitKeeps(s: State, k: nat, st: Settings)
    requires Inv(s, st) && Enabled(s, Commit(k))
    ensures Inv(Next(s, Commit(k), st), st)
  {
    var after := Next(s, Commit(k), st);
    CommitKeepsRecord(s, k, st);
    forall j | j in after.open ensures Fits(after.cases, after.open[j], st) {
      OthersFit(s.cases, after.cases, s.open[j], st);
    }
  }

  lemma OthersFit(cases: map<nat, Case>, cases': map<nat, Case>, t: Txn, st: Settings)
    requires Fits(cases, t, st)
    requires forall i | i in t.rows :: i in cases && i in cases' && cases'[i] == cases[i]
    ensures Fits(cases', t, st)
  {
    forall i | i in t.rows ensures RowFits(cases', t, i, st) { assert RowFits(cases, t, i, st); }
    forall p | 0 <= p < |t.made| ensures StampFits(cases', t, p, st) { assert StampFits(cases, t, p, st); }
  }

  lemma ElsewhereKeeps(s: State, step: Step, st: Settings)
    requires Inv(s, st) && step.Elsewhere? && Enabled(s, step)
    ensures Inv(Next(s, step, st), st)
  {
    var after := Next(s, step, st);
    forall j | j in after.open ensures Fits(after.cases, after.open[j], st) {
      assert step.caseId !in s.open[j].rows;
      assert forall i | i in s.open[j].rows :: RowFits(s.cases, s.open[j], i, st);
      OthersFit(s.cases, after.cases, s.open[j], st);
    }
  }

  lemma StepKeeps(s: State, step: Step, st: Settings)
    requires Inv(s, st)
    ensures Inv(Next(s, step, st), st)
  {
    if Enabled(s, step) {
      match step {
        case Claim(_, _, _) => ClaimKeeps(s, step, st);
        case WorkNext(k, customer, o) =>
          WorkFits(s.cases, s.open[k], customer, o, st);
          assert Worked(s.open[k], customer, o, st).rows.Keys == s.open[k].rows.Keys;
        case Commit(k) => CommitKeeps(s, k, st);
        case Abort(k) =>
        case Elsewhere(_, _) => ElsewhereKeeps(s, step, st);
      }
    }
  }

  /** Fleet safety. From a database nobody is working on, over every interleaving of
      any number of workers: no case is ever in two open batches, and any two
      committed attempts on one case are at least the backoff apart, whatever the
      order of the workers' clocks. */
  lemma {:induction false} FleetIsSafe(cases: map<nat, Case>, steps: seq<Step>, st: Settings)
    ensures Inv(Run(State(cases, map[], []), steps, st), st)
    decreases |steps|
  {
    if steps != [] {
      FleetIsSafe(cases, steps[..|steps| - 1], st);
      StepKeeps(Run(State(cases, map[], []), steps[..|steps| - 1], st), steps[|steps| - 1], st);
    }
  }

  lemma NoCaseInTwoBatches(cases: map<nat, Case>, steps: seq<Step>, st: Settings, a: nat, b: nat, i: nat)
    requires var s := Run(State(cases, map[], []), steps, st);
             a in s.open && b in s.open && i in s.open[a].rows && i in s.open[b].rows
    ensures a == b
  {
    FleetIsSafe(cases, steps, st);
  }

  lemma ClosedIsNotHeld(s: State, st: Settings, i: nat)
    requires Inv(s, st) && i in s.cases && s.cases[i].status.Closed()
    ensures forall k | k in s.open :: i !in s.open[k].rows
  {
    assert forall k | k in s.open && i in s.open[k].rows :: RowFits(s.cases, s.open[k], i, st);
  }

  /** A case that is closed when it is committed stays closed for the whole fleet:
      no commit can overwrite it, because nobody can have held it. */
  lemma {:induction false} ClosedStaysClosedForTheFleet(s: State, steps: seq<Step>, st: Settings, i: nat)
    requires Inv(s, st) && i in s.cases && s.cases[i].status.Closed()
    ensures Inv(Run(s, steps, st), st)
    ensures i in Run(s, steps, st).cases && Run(s, steps, st).cases[i].status.Closed()
    decreases |steps|
  {
    if steps != [] {
      var mid, step := Run(s, steps[..|steps| - 1], st), steps[|steps| - 1];
      ClosedStaysClosedForTheFleet(s, steps[..|steps| - 1], st, i);
      StepKeeps(mid, step, st);
      ClosedIsNotHeld(mid, st, i);
    }
  }

  /** What webhooks, call conclusions, verdicts and links in mid-call do to a case,
      and how a new case arrives, is what a step elsewhere may do. */
  lemma OtherMovesAreElsewhere(db: Lifecycle.Db, m: Lifecycle.Move, w: Lifecycle.World, s: State, i: nat)
    requires !m.Turn? && i in Lifecycle.Apply(db, m, w).cases && !Locked(s, i)
    requires s.cases == db.cases
    ensures Enabled(s, Elsewhere(i, Lifecycle.Apply(db, m, w).cases[i]))
  {
    if i in db.cases { Lifecycle.EveryMove(db, m, w, i); }
  }
}

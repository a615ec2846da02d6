/** app/webhooks/processor.py: the life of a stored webhook envelope. A dispatch
    settles it, charges it a failure, or buries it; a sweep dispatches the oldest
    live ones; a requeue digs the dead ones up. */
module Queue {
  import opened Domain

  datatype Envelope = Envelope(
    eventId: string, name: string, createdAt: int,
    processedAt: Option<int>, error: Option<string>, attempts: nat, deadAt: Option<int>
  ) {
    predicate Live() { processedAt.None? && deadAt.None? }
  }

  datatype Failure = RazorpayError(status: int) | OtherError

  /** How a handler ends. */
  datatype Ending = Returned | Raised(failure: Failure, trace: string)

  const HANDLED: set<string> := {
    "payment.failed", "payment.authorized", "payment.captured", "subscription.authenticated",
    "subscription.pending", "subscription.halted", "subscription.charged", "payment_link.paid", "order.paid"
  }

  predicate IsRetryable(f: Failure) {
    match f
    case RazorpayError(status) => status == 408 || status == 429 || !(400 <= status < 500)
    case OtherError => true
  }

  /** One dispatch in the history; `committed`: the envelope was settled by it, and
      what its handler did was committed with it. */
  datatype Tried = Tried(id: nat, committed: bool)

  datatype State = State(rows: map<nat, Envelope>, nextId: nat, log: seq<Tried>)

  predicate Recorded(rows: map<nat, Envelope>, eventId: string) {
    exists id :: id in rows && rows[id].eventId == eventId
  }

  /** Ids come from a sequence, and the event id is unique. */
  ghost predicate Valid(s: State) {
    && (forall id | id in s.rows :: id < s.nextId)
    && (forall a, b | a in s.rows && b in s.rows && s.rows[a].eventId == s.rows[b].eventId :: a == b)
  }

  // -------------------------------------------------------------- one envelope

  function Charged(e: Envelope, trace: string, retryable: bool, now: int, max: nat): Envelope {
    var n := e.attempts + 1;
    e.(attempts := n, error := Some(trace), deadAt := if !retryable || n >= max then Some(now) else e.deadAt)
  }

  function After(e: Envelope, ending: Ending, now: int, max: nat): Envelope {
    if e.name !in HANDLED then e.(processedAt := Some(now))
    else match ending
      case Returned => e.(processedAt := Some(now), error := None)
      case Raised(failure, trace) => Charged(e, trace, IsRetryable(failure), now, max)
  }

  /** `process_event`: nothing for a vanished or settled envelope. A dead one is
      dispatched like any other. */
  function Process(s: State, id: nat, ending: Ending, now: int, max: nat): State {
    if id !in s.rows || s.rows[id].processedAt.Some? then s
    else
      var e := After(s.rows[id], ending, now, max);
      s.(rows := s.rows[id := e], log := s.log + [Tried(id, e.processedAt.Some?)])
  }

  // ------------------------------------------------------------------- a sweep

  predicate IsLeast(m: nat, ids: set<nat>) { m in ids && forall x | x in ids :: m <= x }

  lemma {:induction false} LeastExists(ids: set<nat>, n: nat)
    requires n in ids
    ensures exists m :: IsLeast(m, ids)
    decreases n
  {
    if !IsLeast(n, ids) {
      var x :| x in ids && x < n;
      LeastExists(ids, x);
    }
  }

  function Least(ids: set<nat>): (m: nat)
    requires ids != {}
    ensures IsLeast(m, ids)
  {
    assert exists m :: IsLeast(m, ids) by {
      var n :| n in ids;
      LeastExists(ids, n);
    }
    var m :| m in ids && IsLeast(m, ids);
    m
  }

  /** ORDER BY id LIMIT n. */
  function Front(ids: set<nat>, n: nat): seq<nat> {
    if ids == {} || n == 0 then [] else [Least(ids)] + Front(ids - {Least(ids)}, n - 1)
  }

  lemma {:induction false} FrontIsTheLowest(ids: set<nat>, n: nat)
    ensures var f := Front(ids, n);
            && |f| <= n
            && Increasing(f)
            && (forall x | x in f :: x in ids)
            && (forall x | x in ids && x !in f :: |f| == n && forall y | y in f :: y < x)
  {
    if ids != {} && n != 0 {
      var m := Least(ids);
      var rest := Front(ids - {m}, n - 1);
      FrontIsTheLowest(ids - {m}, n - 1);
      assert Front(ids, n) == [m] + rest;
      forall a, b | 0 <= a < b < |[m] + rest| ensures ([m] + rest)[a] < ([m] + rest)[b] {
        assert rest[b - 1] in rest && rest[b - 1] in ids - {m};
      }
    }
  }

  function Due(rows: map<nat, Envelope>, cutoff: int): set<nat> {
    set id | id in rows && rows[id].Live() && rows[id].createdAt < cutoff
  }

  function Dead(rows: map<nat, Envelope>): set<nat> {
    set id | id in rows && rows[id].deadAt.Some?
  }

  function ProcessAll(s: State, ids: seq<nat>, endings: nat -> Ending, now: int, max: nat): State
    decreases |ids|
  {
    if ids == [] then s
    else
      var last := ids[|ids| - 1];
      Process(ProcessAll(s, ids[..|ids| - 1], endings, now, max), last, endings(last), now, max)
  }

  function DugUp(rows: map<nat, Envelope>, ids: seq<nat>): map<nat, Envelope> {
    map id | id in rows :: if id in ids then rows[id].(deadAt := None, attempts := 0) else rows[id]
  }

  lemma DugUpOneMore(rows: map<nat, Envelope>, ids: seq<nat>, n: nat)
    requires n < |ids| && ids[n] in rows && ids[n] !in ids[..n]
    ensures DugUp(rows, ids[..n + 1]) == DugUp(rows, ids[..n])[ids[n] := rows[ids[n]].(deadAt := None, attempts := 0)]
  {
    assert ids[..n + 1] == ids[..n] + [ids[n]];
  }

  // ---------------------------------------------------------------------- runs

  datatype Step =
    | Record(eventId: string, name: string, skip: nat, now: int)
    | Dispatch(id: nat, ending: Ending, now: int)
    | Sweep(limit: nat, cutoff: int, endings: nat -> Ending, now: int)
    | Requeue(limit: nat)

  function Stored(s: State, eventId: string, name: string, skip: nat, now: int): State {
    s.(rows := s.rows[s.nextId + skip := Envelope(eventId, name, now, None, None, 0, None)],
       nextId := s.nextId + skip + 1)
  }

  function Next(s: State, step: Step, max: nat): State {
    match step
    case Record(eventId, name, skip, now) =>
      if Recorded(s.rows, eventId) then s else Stored(s, eventId, name, skip, now)
    case Dispatch(id, ending, now) => Process(s, id, ending, now, max)
    case Sweep(limit, cutoff, endings, now) => ProcessAll(s, Front(Due(s.rows, cutoff), limit), endings, now, max)
    case Requeue(limit) => s.(rows := DugUp(s.rows, Front(Dead(s.rows), limit)))
  }

  function Run(s: State, steps: seq<Step>, max: nat): State
    decreases |steps|
  {
    if steps == [] then s else Next(Run(s, steps[..|steps| - 1], max), steps[|steps| - 1], max)
  }

  // --------------------------------------------------- what a batch of dispatches does

  /** A batch only extends the history, keeps every id, and leaves the rows it does
      not name alone. */
  lemma {:induction false} BatchDoes(s: State, ids: seq<nat>, endings: nat -> Ending, now: int, max: nat)
    ensures var d := ProcessAll(s, ids, endings, now, max);
            && d.nextId == s.nextId && d.rows.Keys == s.rows.Keys && s.log <= d.log
            && (forall id | id in s.rows && id !in ids :: d.rows[id] == s.rows[id])
            && (forall id | id in s.rows ::
                  d.rows[id].eventId == s.rows[id].eventId && d.rows[id].createdAt == s.rows[id].createdAt)
            && (forall k | |s.log| <= k < |d.log| :: d.log[k].id in ids)
    decreases |ids|
  {
    if ids != [] {
      var init := ids[..|ids| - 1];
      assert ids == init + [ids[|ids| - 1]];
      BatchDoes(s, init, endings, now, max);
    }
  }

  predicate Increasing(ids: seq<nat>) { forall a, b | 0 <= a < b < |ids| :: ids[a] < ids[b] }

  lemma LastOfAll(ids: seq<nat>)
    requires Increasing(ids) && ids != []
    ensures var init, last := ids[..|ids| - 1], ids[|ids| - 1];
            && Increasing(init) && last in ids && last !in init
            && (forall j | j in init :: j in ids)
            && (forall j | j in ids :: j in init || j == last)
  {
    assert ids == ids[..|ids| - 1] + [ids[|ids| - 1]];
  }

  predicate TriedSince(n: nat, log: seq<Tried>, id: nat) {
    exists k :: n <= k < |log| && log[k].id == id
  }

  /** Each envelope of a batch that is due when the batch starts is tried. */
  lemma {:induction false} BatchTries(s: State, ids: seq<nat>, endings: nat -> Ending, now: int, max: nat, id: nat)
    requires Increasing(ids)
    requires id in ids && id in s.rows && s.rows[id].processedAt.None?
    ensures TriedSince(|s.log|, ProcessAll(s, ids, endings, now, max).log, id)
    decreases |ids|
  {
    var init, last := ids[..|ids| - 1], ids[|ids| - 1];
    var mid, d := ProcessAll(s, init, endings, now, max), ProcessAll(s, ids, endings, now, max);
    BatchDoes(s, init, endings, now, max);
    LastOfAll(ids);
    if id == last {
      assert mid.rows[id] == s.rows[id];
      assert d.log[|mid.log|].id == id;
    } else {
      BatchTries(s, init, endings, now, max, id);
      var k :| |s.log| <= k < |mid.log| && mid.log[k].id == id;
      assert d.log[k] == mid.log[k];
    }
  }

  lemma {:induction false} StaysValid(s: State, steps: seq<Step>, max: nat)
    requires Valid(s)
    ensures Valid(Run(s, steps, max))
    decreases |steps|
  {
    if steps != [] {
      var mid, step := Run(s, steps[..|steps| - 1], max), steps[|steps| - 1];
      StaysValid(s, steps[..|steps| - 1], max);
      NextIsValid(mid, step, max);
    }
  }

  lemma NextIsValid(s: State, step: Step, max: nat)
    requires Valid(s)
    ensures Valid(Next(s, step, max))
    ensures forall id | id in s.rows ::
            id in Next(s, step, max).rows && Next(s, step, max).rows[id].eventId == s.rows[id].eventId
                                        && Next(s, step, max).rows[id].createdAt == s.rows[id].createdAt
    ensures s.log <= Next(s, step, max).log
  {
    if step.Sweep? { BatchDoes(s, Front(Due(s.rows, step.cutoff), step.limit), step.endings, step.now, max); }
  }

  // -------------------------------------------------------------- bounded waiting

  /** The attempts a live envelope may still take; one at least. */
  function Owed(rows: map<nat, Envelope>, id: nat, max: nat): nat {
    if id in rows && rows[id].Live() then Max(max - rows[id].attempts, 1) else 0
  }

  /** The attempts all live envelopes older than `id` may still take. */
  function Debt(rows: map<nat, Envelope>, id: nat, max: nat): nat {
    if id == 0 then 0 else Debt(rows, id - 1, max) + Owed(rows, id - 1, max)
  }

  /** How many live envelopes are older than `id`. */
  function Older(rows: map<nat, Envelope>, id: nat): nat {
    if id == 0 then 0 else Older(rows, id - 1) + if id - 1 in rows && rows[id - 1].Live() then 1 else 0
  }

  function Sweeps(steps: seq<Step>): nat
    decreases |steps|
  {
    if steps == [] then 0 else Sweeps(steps[..|steps| - 1]) + if steps[|steps| - 1].Sweep? then 1 else 0
  }

  lemma {:induction false} DebtIsBounded(rows: map<nat, Envelope>, id: nat, max: nat)
    ensures Debt(rows, id, max) <= Older(rows, id) * Max(max, 1)
  {
    if id != 0 {
      DebtIsBounded(rows, id - 1, max);
      var k, m := Older(rows, id - 1), Max(max, 1);
      assert (k + 1) * m == k * m + m;
    }
  }

  /** Changing one row changes the debt by what that row owes. */
  lemma {:induction false} DebtMoves(a: map<nat, Envelope>, b: map<nat, Envelope>, j: nat, id: nat, max: nat)
    requires forall i: nat | i < id && i != j :: Owed(b, i, max) == Owed(a, i, max)
    ensures Debt(b, id, max) == Debt(a, id, max) + if j < id then Owed(b, j, max) - Owed(a, j, max) else 0
  {
    if id != 0 {
      DebtMoves(a, b, j, id - 1, max);
    }
  }

  lemma DispatchPays(s: State, j: nat, ending: Ending, now: int, max: nat, id: nat)
    ensures var d := Process(s, j, ending, now, max);
            && Owed(d.rows, j, max) <= Max(Owed(s.rows, j, max) - 1, 0)
            && Debt(d.rows, id, max) <= Debt(s.rows, id, max) - if j < id && Owed(s.rows, j, max) > 0 then 1 else 0
  {
    DebtMoves(s.rows, Process(s, j, ending, now, max).rows, j, id, max);
  }

  lemma {:induction false} BatchPays(s: State, ids: seq<nat>, endings: nat -> Ending, now: int, max: nat, id: nat)
    requires Increasing(ids)
    requires forall j | j in ids :: j in s.rows && s.rows[j].Live()
    requires forall j | j in ids :: j < id
    ensures Debt(ProcessAll(s, ids, endings, now, max).rows, id, max) <= Debt(s.rows, id, max) - |ids|
    decreases |ids|
  {
    if ids != [] {
      var init, last := ids[..|ids| - 1], ids[|ids| - 1];
      assert ids == init + [last];
      var mid := ProcessAll(s, init, endings, now, max);
      LastOfAll(ids);
      BatchPays(s, init, endings, now, max, id);
      BatchDoes(s, init, endings, now, max);
      assert mid.rows[last] == s.rows[last];
      DispatchPays(mid, last, endings(last), now, max, id);
    }
  }

  /** A sweep that passes a due envelope by collects `limit` attempts from older ones. */
  lemma SweepPays(s: State, step: Step, max: nat, id: nat)
    requires step.Sweep? && id in s.rows && s.rows[id].Live() && s.rows[id].createdAt < step.cutoff
    ensures var d := Next(s, step, max);
            || TriedSince(|s.log|, d.log, id)
            || (id in d.rows && d.rows[id] == s.rows[id] && Debt(d.rows, id, max) + step.limit <= Debt(s.rows, id, max))
  {
    var f := Front(Due(s.rows, step.cutoff), step.limit);
    FrontIsTheLowest(Due(s.rows, step.cutoff), step.limit);
    BatchDoes(s, f, step.endings, step.now, max);
    assert id in Due(s.rows, step.cutoff);
    if id in f {
      BatchTries(s, f, step.endings, step.now, max, id);
    } else {
      BatchPays(s, f, step.endings, step.now, max, id);
    }
  }

  lemma OtherStepsPay(s: State, step: Step, max: nat, id: nat)
    requires Valid(s) && id in s.rows && s.rows[id].Live() && (step.Record? || step.Dispatch?)
    ensures var d := Next(s, step, max);
            || TriedSince(|s.log|, d.log, id)
            || (id in d.rows && d.rows[id] == s.rows[id] && Debt(d.rows, id, max) <= Debt(s.rows, id, max))
  {
    var d := Next(s, step, max);
    if step.Dispatch? {
      DispatchPays(s, step.id, step.ending, step.now, max, id);
      if step.id == id { assert d.log[|s.log|].id == id; }
    } else if d != s {
      DebtMoves(s.rows, d.rows, s.nextId + step.skip, id, max);
    }
  }

  predicate NoRequeue(steps: seq<Step>) { forall k | 0 <= k < |steps| :: !steps[k].Requeue? }

  /** Sweeps of one limit, to which the envelope is old enough. */
  predicate SweptFor(steps: seq<Step>, limit: nat, createdAt: int) {
    forall k | 0 <= k < |steps| && steps[k].Sweep? :: steps[k].limit == limit && createdAt < steps[k].cutoff
  }

  /** What a step does for a live envelope that waits: it is tried, or its row is the
      same and the debt before it has not grown, by a sweep even shrunk. */
  ghost predicate Waited(a: State, b: State, paid: nat, max: nat, id: nat)
    requires id in a.rows
  {
    && a.log <= b.log
    && (|| TriedSince(|a.log|, b.log, id)
        || (id in b.rows && b.rows[id] == a.rows[id] && Debt(b.rows, id, max) + paid <= Debt(a.rows, id, max)))
  }

  lemma StepWaited(s: State, step: Step, max: nat, limit: nat, id: nat)
    requires Valid(s) && id in s.rows && s.rows[id].Live() && !step.Requeue?
    requires step.Sweep? ==> step.limit == limit && s.rows[id].createdAt < step.cutoff
    ensures Waited(s, Next(s, step, max), if step.Sweep? then limit else 0, max, id)
  {
    NextIsValid(s, step, max);
    if step.Sweep? { SweepPays(s, step, max, id); } else { OtherStepsPay(s, step, max, id); }
  }

  lemma WaitedOn(a: State, b: State, c: State, paid: nat, more: nat, max: nat, id: nat)
    requires id in a.rows && id in b.rows && a.log <= b.log <= c.log
    requires Waited(a, b, paid, max, id)
    requires b.rows[id] == a.rows[id] && !TriedSince(|a.log|, b.log, id) ==> Waited(b, c, more, max, id)
    ensures Waited(a, c, paid + more, max, id)
  {
    if TriedSince(|a.log|, b.log, id) {
      var k :| |a.log| <= k < |b.log| && b.log[k].id == id;
      assert c.log[k] == b.log[k];
    }
  }

  /** The attempts the sweeps have room for. */
  function Room(steps: seq<Step>): nat
    decreases |steps|
  {
    if steps == [] then 0
    else Room(steps[..|steps| - 1]) + if steps[|steps| - 1].Sweep? then steps[|steps| - 1].limit else 0
  }

  lemma {:induction false} WaitingPays(s: State, steps: seq<Step>, max: nat, limit: nat, id: nat)
    requires Valid(s) && id in s.rows && s.rows[id].Live()
    requires NoRequeue(steps) && SweptFor(steps, limit, s.rows[id].createdAt)
    ensures id in Run(s, steps, max).rows && Waited(s, Run(s, steps, max), Room(steps), max, id)
    decreases |steps|
  {
    if steps != [] {
      var before, step := steps[..|steps| - 1], steps[|steps| - 1];
      var mid := Run(s, before, max);
      WaitingPays(s, before, max, limit, id);
      StaysValid(s, before, max);
      NextIsValid(mid, step, max);
      if mid.rows[id] == s.rows[id] { StepWaited(mid, step, max, limit, id); }
      WaitedOn(s, mid, Next(mid, step, max), Room(before), if step.Sweep? then limit else 0, max, id);
    }
  }

  lemma {:induction false} SweepsHaveRoom(steps: seq<Step>, limit: nat, createdAt: int)
    requires SweptFor(steps, limit, createdAt)
    ensures Room(steps) == Sweeps(steps) * limit
    decreases |steps|
  {
    if steps != [] {
      SweepsHaveRoom(steps[..|steps| - 1], limit, createdAt);
    }
  }

  /** Bounded waiting: whatever arrives, whatever else is dispatched and however the
      handlers end, a live envelope with k live ones before it is dispatched within
      k * max / limit + 1 sweeps, unless dead ones are dug up meanwhile. */
  lemma BoundedWaiting(s: State, steps: seq<Step>, max: nat, limit: nat, id: nat)
    requires Valid(s) && id in s.rows && s.rows[id].Live() && limit > 0
    requires NoRequeue(steps) && SweptFor(steps, limit, s.rows[id].createdAt)
    requires Sweeps(steps) >= Older(s.rows, id) * Max(max, 1) / limit + 1
    ensures TriedSince(|s.log|, Run(s, steps, max).log, id)
  {
    DebtIsBounded(s.rows, id, max);
    WaitingPays(s, steps, max, limit, id);
    SweepsHaveRoom(steps, limit, s.rows[id].createdAt);
    MoreThanTheDebt(Older(s.rows, id) * Max(max, 1), limit, Sweeps(steps));
  }

  lemma MoreThanTheDebt(debt: nat, limit: nat, n: nat)
    requires limit > 0 && n >= debt / limit + 1
    ensures n * limit > debt
  {
    var q := debt / limit;
    assert debt == q * limit + debt % limit;
    assert n * limit == (n - q - 1) * limit + q * limit + limit;
  }

  /** Sweeps of one envelope each, in which every handler fails and may be retried. */
  function PoisonedSweeps(n: nat, cutoff: int, now: int): seq<Step> {
    if n == 0 then [] else PoisonedSweeps(n - 1, cutoff, now) + [Sweep(1, cutoff, _ => Raised(OtherError, ""), now)]
  }

  lemma {:induction false} DebtMeansOlder(rows: map<nat, Envelope>, id: nat, max: nat)
    requires Debt(rows, id, max) > 0
    ensures exists j: nat :: j < id && j in rows && rows[j].Live()
  {
    if Owed(rows, id - 1, max) == 0 { DebtMeansOlder(rows, id - 1, max); }
  }

  ghost predicate OlderAreDue(rows: map<nat, Envelope>, cutoff: int, id: nat) {
    forall j | j in rows && j < id && rows[j].Live() :: rows[j].createdAt < cutoff && rows[j].name in HANDLED
  }

  /** One such sweep spends one attempt of an older envelope. */
  lemma PoisonedSweepTakesOne(s: State, cutoff: int, now: int, max: nat, id: nat)
    requires id in s.rows && OlderAreDue(s.rows, cutoff, id) && Debt(s.rows, id, max) > 0
    ensures var d := Next(s, Sweep(1, cutoff, _ => Raised(OtherError, ""), now), max);
            && id in d.rows && OlderAreDue(d.rows, cutoff, id) && s.log <= d.log
            && !TriedSince(|s.log|, d.log, id) && Debt(d.rows, id, max) == Debt(s.rows, id, max) - 1
  {
    DebtMeansOlder(s.rows, id, max);
    var due := Due(s.rows, cutoff);
    var older: nat :| older < id && older in s.rows && s.rows[older].Live();
    assert older in due;
    var j := Least(due);
    assert Front(due, 1) == [j];
    var poison: nat -> Ending := _ => Raised(OtherError, "");
    var d := Next(s, Sweep(1, cutoff, poison, now), max);
    assert ProcessAll(s, [], poison, now, max) == s;
    assert d == Process(s, j, Raised(OtherError, ""), now, max);
    DebtMoves(s.rows, d.rows, j, id, max);
  }

  /** The bound is reached: with sweeps of one envelope, an envelope waits for every
      attempt its elders may still take, if they all fail. */
  lemma {:induction false} TheBoundIsReached(s: State, n: nat, cutoff: int, now: int, max: nat, id: nat)
    requires id in s.rows && OlderAreDue(s.rows, cutoff, id) && n <= Debt(s.rows, id, max)
    ensures var d := Run(s, PoisonedSweeps(n, cutoff, now), max);
            && id in d.rows && OlderAreDue(d.rows, cutoff, id) && s.log <= d.log
            && !TriedSince(|s.log|, d.log, id) && Debt(d.rows, id, max) == Debt(s.rows, id, max) - n
  {
    if n > 0 {
      var steps := PoisonedSweeps(n, cutoff, now);
      assert steps[..|steps| - 1] == PoisonedSweeps(n - 1, cutoff, now);
      TheBoundIsReached(s, n - 1, cutoff, now, max, id);
      PoisonedSweepTakesOne(Run(s, PoisonedSweeps(n - 1, cutoff, now), max), cutoff, now, max, id);
    }
  }

  // ------------------------------------------------------------- budgets, settling

  function Tries(log: seq<Tried>, id: nat): nat
    decreases |log|
  {
    if log == [] then 0 else Tries(log[..|log| - 1], id) + if log[|log| - 1].id == id then 1 else 0
  }

  function Commits(log: seq<Tried>, id: nat): nat
    decreases |log|
  {
    if log == [] then 0 else Commits(log[..|log| - 1], id) + if log[|log| - 1] == Tried(id, true) then 1 else 0
  }

  lemma OneMore(log: seq<Tried>, t: Tried, id: nat)
    ensures Tries(log + [t], id) == Tries(log, id) + if t.id == id then 1 else 0
    ensures Commits(log + [t], id) == Commits(log, id) + if t == Tried(id, true) then 1 else 0
  {
    assert (log + [t])[..|log|] == log;
  }

  lemma {:induction false} BatchSpends(s: State, ids: seq<nat>, endings: nat -> Ending, now: int, max: nat, id: nat)
    requires Increasing(ids)
    requires forall j | j in ids :: j in s.rows && s.rows[j].Live()
    ensures var d := ProcessAll(s, ids, endings, now, max);
            Tries(d.log, id) + Owed(d.rows, id, max) <= Tries(s.log, id) + Owed(s.rows, id, max)
    decreases |ids|
  {
    if ids != [] {
      var init, last := ids[..|ids| - 1], ids[|ids| - 1];
      var mid := ProcessAll(s, init, endings, now, max);
      LastOfAll(ids);
      BatchSpends(s, init, endings, now, max, id);
      BatchDoes(s, init, endings, now, max);
      DispatchPays(mid, last, endings(last), now, max, id);
      OneMore(mid.log, Tried(last, After(mid.rows[last], endings(last), now, max).processedAt.Some?), id);
    }
  }

  /** A poison envelope costs the sweeps no more than the attempts it had left: then
      it is buried, and no sweep touches it again. */
  lemma {:induction false} SweepsSpendTheBudget(s: State, steps: seq<Step>, max: nat, id: nat)
    requires Valid(s) && id in s.rows && NoRequeue(steps)
    requires forall k | 0 <= k < |steps| && steps[k].Dispatch? :: steps[k].id != id
    ensures var d := Run(s, steps, max);
            && id in d.rows
            && Tries(d.log, id) + Owed(d.rows, id, max) <= Tries(s.log, id) + Owed(s.rows, id, max)
    decreases |steps|
  {
    if steps != [] {
      var before, step := steps[..|steps| - 1], steps[|steps| - 1];
      var mid := Run(s, before, max);
      SweepsSpendTheBudget(s, before, max, id);
      StaysValid(s, before, max);
      match step {
        case Sweep(limit, cutoff, endings, now) =>
          var f := Front(Due(mid.rows, cutoff), limit);
          FrontIsTheLowest(Due(mid.rows, cutoff), limit);
          BatchDoes(mid, f, endings, now, max);
          BatchSpends(mid, f, endings, now, max, id);
        case Dispatch(j, ending, now) =>
          if Next(mid, step, max) != mid {
            OneMore(mid.log, Tried(j, After(mid.rows[j], ending, now, max).processedAt.Some?), id);
          }
        case _ =>
      }
    }
  }

  /** An envelope is settled in the history exactly if its row says so, and then once. */
  ghost predicate SettledOnce(s: State) {
    forall id :: Commits(s.log, id) == if id in s.rows && s.rows[id].processedAt.Some? then 1 else 0
  }

  lemma ProcessSettlesOnce(s: State, j: nat, ending: Ending, now: int, max: nat)
    requires SettledOnce(s)
    ensures SettledOnce(Process(s, j, ending, now, max))
  {
    var d := Process(s, j, ending, now, max);
    if d != s {
      forall id ensures Commits(d.log, id) == if id in d.rows && d.rows[id].processedAt.Some? then 1 else 0 {
        OneMore(s.log, d.log[|s.log|], id);
      }
    }
  }

  lemma {:induction false} BatchSettlesOnce(s: State, ids: seq<nat>, endings: nat -> Ending, now: int, max: nat)
    requires SettledOnce(s)
    ensures SettledOnce(ProcessAll(s, ids, endings, now, max))
    decreases |ids|
  {
    if ids != [] {
      var init, last := ids[..|ids| - 1], ids[|ids| - 1];
      BatchSettlesOnce(s, init, endings, now, max);
      ProcessSettlesOnce(ProcessAll(s, init, endings, now, max), last, endings(last), now, max);
    }
  }

  /** Push, background task and sweep may all dispatch the same envelope, one after the
      other, and the dead may be dug up: what its handler did is committed at most once.
      Of dispatches that overlap, module Overlap says when that still holds. */
  lemma {:induction false} EverythingIsSettledOnce(s: State, steps: seq<Step>, max: nat)
    requires Valid(s) && SettledOnce(s)
    ensures SettledOnce(Run(s, steps, max))
    decreases |steps|
  {
    if steps != [] {
      var mid, step := Run(s, steps[..|steps| - 1], max), steps[|steps| - 1];
      EverythingIsSettledOnce(s, steps[..|steps| - 1], max);
      StaysValid(s, steps[..|steps| - 1], max);
      match step {
        case Record(_, _, skip, _) => assert mid.nextId + skip !in mid.rows;
        case Dispatch(id, ending, now) => ProcessSettlesOnce(mid, id, ending, now, max);
        case Sweep(limit, cutoff, endings, now) =>
          BatchSettlesOnce(mid, Front(Due(mid.rows, cutoff), limit), endings, now, max);
        case Requeue(_) =>
      }
    }
  }

  /** A requeue hands the envelopes it reaches back their whole budget, and they are due
      again. */
  lemma RequeueRestoresTheBudget(s: State, limit: nat, max: nat, cutoff: int, id: nat)
    requires id in Front(Dead(s.rows), limit) && id in s.rows && s.rows[id].processedAt.None?
    ensures var d := Next(s, Requeue(limit), max);
            && Owed(s.rows, id, max) == 0 && Owed(d.rows, id, max) == Max(max, 1)
            && (s.rows[id].createdAt < cutoff ==> id in Due(d.rows, cutoff))
  {
    FrontIsTheLowest(Dead(s.rows), limit);
  }
}

/** The attempt ledger: what `attempt_count` and `delivery_failures` mean, and the
    bounds that follow, over every run. */
module Ledger {
  import opened Domain
  import opened CaseWork
  import opened Lifecycle

  // ----------------------------------------------------------------- counting

  datatype What =
    | Attempts | Deliveries | DeliveriesBy(kind: Kind) | AttemptsBy(kind: Kind) | Verdicts | Refunds | NewLinks

  predicate Is(e: Entry, i: nat, what: What) {
    e.caseId == i &&
    match what
    case Attempts => e.Attempt?
    case Deliveries => e.Attempt? && e.delivered
    case DeliveriesBy(k) => e.Attempt? && e.delivered && e.kind == k
    case AttemptsBy(k) => e.Attempt? && e.kind == k
    case Verdicts => e.Verdict?
    case Refunds => e.Verdict? && e.refunded
    case NewLinks => e.NewLink?
  }

  function Count(log: seq<Entry>, i: nat, what: What): nat
    decreases |log|
  {
    if log == [] then 0
    else Count(log[..|log| - 1], i, what) + if Is(log[|log| - 1], i, what) then 1 else 0
  }

  lemma {:induction false} CountAppends(a: seq<Entry>, b: seq<Entry>, i: nat, what: What)
    ensures Count(a + b, i, what) == Count(a, i, what) + Count(b, i, what)
    decreases |b|
  {
    if b == [] {
      assert a + b == a;
    } else {
      assert (a + b)[..|a + b| - 1] == a + b[..|b| - 1];
      CountAppends(a, b[..|b| - 1], i, what);
    }
  }

  /** Deliveries are calls, links and charges, and nothing else. */
  lemma {:induction false} DeliveriesByKind(log: seq<Entry>, i: nat)
    ensures Count(log, i, Deliveries) ==
            Count(log, i, DeliveriesBy(Charging)) + Count(log, i, DeliveriesBy(Linking))
            + Count(log, i, DeliveriesBy(Calling))
    ensures Count(log, i, Refunds) <= Count(log, i, Verdicts)
    ensures Count(log, i, Deliveries) <= Count(log, i, Attempts)
    decreases |log|
  {
    if log != [] { DeliveriesByKind(log[..|log| - 1], i); }
  }

  /** What a move adds to a count of case `i`. */
  function Added(db: Db, m: Move, w: World, i: nat, what: What): nat {
    if Legal(db, m, w) && ChangeOf(db, m, w).Change? then Count(ChangeOf(db, m, w).entries, i, what) else 0
  }

  lemma CountAfter(db: Db, m: Move, w: World, i: nat, what: What)
    ensures Count(Apply(db, m, w).log, i, what) == Count(db.log, i, what) + Added(db, m, w, i, what)
  {
    if Legal(db, m, w) && ChangeOf(db, m, w).Change? {
      CountAppends(db.log, ChangeOf(db, m, w).entries, i, what);
    }
  }

  lemma CountTwo(e: Entry, f: Entry, i: nat, what: What)
    ensures Count([], i, what) == 0
    ensures Count([e], i, what) == if Is(e, i, what) then 1 else 0
    ensures Count([e, f], i, what) == (if Is(e, i, what) then 1 else 0) + if Is(f, i, what) then 1 else 0
  {
    assert [e, f][..1] == [e];
    assert [e][..0] == [];
  }

  // ---------------------------------------------------------------- the ledger

  /** The books of one case row against the log. */
  predicate Balanced(c: Case, log: seq<Entry>, i: nat, st: Settings) {
    && (c.status.Active() ==>
          && c.attemptCount == Count(log, i, Deliveries) - Count(log, i, Refunds)
          && 0 <= c.attemptCount <= c.maxAttempts
          && 0 <= c.deliveryFailures <= st.maxDeliveryFailures
          && (c.attemptCount == c.maxAttempts ==> c.deliveryFailures == 0))
    && Count(log, i, Attempts) + Budget(c, st) <= st.maxDeliveryFailures * (c.maxAttempts + Count(log, i, Refunds))
  }

  /** The attempts an active case can still be given without a refund:
      (max_attempts - attempt_count) * max_delivery_failures - delivery_failures. */
  function Budget(c: Case, st: Settings): int {
    if c.status.Active() then (c.maxAttempts - c.attemptCount) * st.maxDeliveryFailures - c.deliveryFailures else 0
  }

  predicate Books(db: Db, st: Settings) {
    && (forall i | i in db.cases :: Balanced(db.cases[i], db.log, i, st))
    && (forall k | 0 <= k < |db.log| :: db.log[k].caseId in db.cases)
  }

  lemma {:induction false} NothingCountedOfStrangers(log: seq<Entry>, i: nat, what: What)
    requires forall k | 0 <= k < |log| :: log[k].caseId != i
    ensures Count(log, i, what) == 0
    decreases |log|
  {
    if log != [] { NothingCountedOfStrangers(log[..|log| - 1], i, what); }
  }

  lemma TimesSum(d: int, a: int, b: int)
    ensures d * (a + b) == d * a + d * b && (a + b) * d == a * d + b * d
  {
  }

  /** Every executed attempt takes at least one from the budget. */
  lemma AttemptsSpendBudget(c: Case, cu: Option<Customer>, o: Answers, now: int, st: Settings)
    requires Work(c, cu, o, now, st).effect.Attempted()
    requires c.deliveryFailures >= 0
    ensures 0 <= Budget(Work(c, cu, o, now, st).row, st) < Budget(c, st)
  {
    AttemptMeans(c, cu, o, now, st);
    var w := Work(c, cu, o, now, st);
    var left := c.maxAttempts - c.attemptCount;
    EveryTurnKeeps(c, cu, o, now, st);
    assert left * st.maxDeliveryFailures == (left - 1) * st.maxDeliveryFailures + st.maxDeliveryFailures by {
      TimesSum(st.maxDeliveryFailures, left - 1, 1);
    }
    assert (left - 1) * st.maxDeliveryFailures >= 0;
    if w.effect.Delivered? {
      assert w.row.maxAttempts - w.row.attemptCount == left - 1;
    }
  }

  /** The books after a turn, on the row and the log alone. */
  lemma AttemptBalances(c: Case, cu: Option<Customer>, o: Answers, now: int, st: Settings, i: nat, log: seq<Entry>)
    requires Balanced(c, log, i, st) && Work(c, cu, o, now, st).effect.Attempted()
    ensures var t := Work(c, cu, o, now, st);
            Balanced(t.row, log + TurnEntries(i, c.customerId, t, now), i, st)
  {
    var t := Work(c, cu, o, now, st);
    EveryTurnKeeps(c, cu, o, now, st);
    AttemptMeans(c, cu, o, now, st);
    AttemptsSpendBudget(c, cu, o, now, st);
    AttemptIsCounted(log, t, i, c.customerId, now);
  }

  /** What the entries of an attempt add to the counts the books are made of. */
  lemma AttemptIsCounted(log: seq<Entry>, t: Worked, i: nat, customerId: string, now: int)
    requires t.effect.Attempted()
    ensures var more := log + TurnEntries(i, customerId, t, now);
            && Count(more, i, Deliveries) == Count(log, i, Deliveries) + (if t.effect.Delivered? then 1 else 0)
            && Count(more, i, Refunds) == Count(log, i, Refunds)
            && Count(more, i, Attempts) == Count(log, i, Attempts) + 1
  {
    var es := TurnEntries(i, customerId, t, now);
    var e := Attempt(i, customerId, t.effect.kind, now, t.effect.Delivered?);
    assert es == [e] || es == [e, NewLink(i)];
    CountAppends(log, es, i, Deliveries);
    CountAppends(log, es, i, Refunds);
    CountAppends(log, es, i, Attempts);
    CountTwo(e, NewLink(i), i, Deliveries);
    CountTwo(e, NewLink(i), i, Refunds);
    CountTwo(e, NewLink(i), i, Attempts);
  }

  lemma WaitBalances(c: Case, cu: Option<Customer>, o: Answers, now: int, st: Settings, i: nat, log: seq<Entry>)
    requires Balanced(c, log, i, st) && !Work(c, cu, o, now, st).effect.Attempted()
    ensures var t := Work(c, cu, o, now, st);
            Balanced(t.row, log + TurnEntries(i, c.customerId, t, now), i, st)
  {
    OtherwiseNothingMoves(c, cu, o, now, st);
    BudgetIsNatural(c, log, i, st);
    assert log + [] == log;
  }

  lemma TurnBalances(db: Db, m: Move, w: World)
    requires m.Turn? && Legal(db, m, w) && Balanced(db.cases[m.caseId], db.log, m.caseId, w.st)
    ensures Balanced(Apply(db, m, w).cases[m.caseId], Apply(db, m, w).log, m.caseId, w.st)
  {
    var c := db.cases[m.caseId];
    var cu := CustomerOf(db.customers, c);
    if Work(c, cu, m.answers, m.now, w.st).effect.Attempted() {
      AttemptBalances(c, cu, m.answers, m.now, w.st, m.caseId, db.log);
    } else {
      WaitBalances(c, cu, m.answers, m.now, w.st, m.caseId, db.log);
    }
  }

  lemma BudgetIsNatural(c: Case, log: seq<Entry>, i: nat, st: Settings)
    requires Balanced(c, log, i, st)
    ensures Budget(c, st) >= 0
  {
    if c.status.Active() && c.attemptCount < c.maxAttempts {
      var left := c.maxAttempts - c.attemptCount;
      TimesSum(st.maxDeliveryFailures, left - 1, 1);
      assert (left - 1) * st.maxDeliveryFailures >= 0;
    }
  }

  /** A refund takes one from the counter and adds one to the refunds. */
  lemma RefundBalances(c: Case, b: Case, log: seq<Entry>, i: nat, st: Settings, refunded: bool)
    requires Balanced(c, log, i, st)
    requires b == c.(attemptCount := if refunded then c.attemptCount - 1 else b.attemptCount)
    requires c.status.Active() ==>
               && (refunded <==> c.attemptCount > 0)
               && (!refunded ==> b.attemptCount == c.attemptCount)
    ensures Balanced(b, log + [Verdict(i, refunded)], i, st)
  {
    var e := Verdict(i, refunded);
    CountAppends(log, [e], i, Deliveries);
    CountAppends(log, [e], i, Refunds);
    CountAppends(log, [e], i, Attempts);
    CountTwo(e, e, i, Deliveries);
    CountTwo(e, e, i, Refunds);
    CountTwo(e, e, i, Attempts);
    var d := st.maxDeliveryFailures;
    TimesSum(d, c.maxAttempts + Count(log, i, Refunds), 1);
    TimesSum(d, c.maxAttempts - c.attemptCount, 1);
  }

  lemma VerdictBalances(db: Db, m: Move, w: World)
    requires m.JudgeMachine? && Legal(db, m, w)
    requires Balanced(db.cases[db.calls[m.sid].caseId], db.log, db.calls[m.sid].caseId, w.st)
    ensures var i := db.calls[m.sid].caseId;
            Balanced(Apply(db, m, w).cases[i], Apply(db, m, w).log, i, w.st)
  {
    var i := db.calls[m.sid].caseId;
    var c, b := db.cases[i], VerdictChange(db, m.sid, m.machine).row;
    if m.machine {
      RefundBalances(c, b, db.log, i, w.st, b.attemptCount < c.attemptCount);
    } else {
      assert db.log + [] == db.log;
    }
  }

  lemma {:induction false} LinksCountNothing(entries: seq<Entry>, i: nat, what: What)
    requires !what.NewLinks? && forall k | 0 <= k < |entries| :: entries[k].NewLink?
    ensures Count(entries, i, what) == 0
    decreases |entries|
  {
    if entries != [] { LinksCountNothing(entries[..|entries| - 1], i, what); }
  }

  /** Whatever is neither a turn nor a verdict adds no attempt and no refund. */
  lemma LinkEntriesCountNothing(db: Db, m: Move, w: World, i: nat, what: What)
    requires !m.Turn? && !m.JudgeMachine? && !what.NewLinks?
    ensures Count(Apply(db, m, w).log, i, what) == Count(db.log, i, what)
  {
    CountAfter(db, m, w, i, what);
    if Legal(db, m, w) && ChangeOf(db, m, w).Change? {
      EveryEntry(db, m, w);
      LinksCountNothing(ChangeOf(db, m, w).entries, i, what);
    }
  }

  lemma OthersUncounted(db: Db, m: Move, w: World, i: nat, what: What)
    requires !(Legal(db, m, w) && ChangeOf(db, m, w).Change? && ChangeOf(db, m, w).caseId == i)
    ensures Count(Apply(db, m, w).log, i, what) == Count(db.log, i, what)
  {
    CountAfter(db, m, w, i, what);
    if Legal(db, m, w) && ChangeOf(db, m, w).Change? {
      EveryEntry(db, m, w);
      NothingCountedOfStrangers(ChangeOf(db, m, w).entries, i, what);
    }
  }

  predicate IsAttempting(what: What) { what.Deliveries? || what.Attempts? || what.AttemptsBy? || what.DeliveriesBy? }

  lemma {:induction false} NoAttemptsCountNothing(entries: seq<Entry>, i: nat, what: What)
    requires IsAttempting(what)
    requires forall k | 0 <= k < |entries| :: !entries[k].Attempt?
    ensures Count(entries, i, what) == 0
    decreases |entries|
  {
    if entries != [] { NoAttemptsCountNothing(entries[..|entries| - 1], i, what); }
  }

  lemma OnlyTurnsAttempt(db: Db, m: Move, w: World, i: nat, what: What)
    requires !m.Turn? && IsAttempting(what)
    ensures Count(Apply(db, m, w).log, i, what) == Count(db.log, i, what)
  {
    CountAfter(db, m, w, i, what);
    if Legal(db, m, w) && ChangeOf(db, m, w).Change? {
      EveryEntry(db, m, w);
      NoAttemptsCountNothing(ChangeOf(db, m, w).entries, i, what);
    }
  }

  /** The attempt counter of a case that stays active moves in turns and verdicts alone. */
  lemma CounterMovesOnlyIn(db: Db, m: Move, w: World, i: nat)
    requires !m.Turn? && !m.JudgeMachine? && i in db.cases && Apply(db, m, w).cases[i].status.Active()
    ensures Apply(db, m, w).cases[i].attemptCount == db.cases[i].attemptCount
  {
  }

  lemma SameBooks(a: Case, b: Case, log: seq<Entry>, log': seq<Entry>, i: nat, st: Settings)
    requires Balanced(a, log, i, st)
    requires b.status.Active() ==>
               a.status.Active() && b.attemptCount == a.attemptCount && b.deliveryFailures == a.deliveryFailures
    requires b.maxAttempts == a.maxAttempts
    requires Count(log', i, Deliveries) == Count(log, i, Deliveries)
    requires Count(log', i, Refunds) == Count(log, i, Refunds)
    requires Count(log', i, Attempts) == Count(log, i, Attempts)
    ensures Balanced(b, log', i, st)
  {
    BudgetIsNatural(a, log, i, st);
  }

  /** Every other move on a case leaves an active case's counters alone. */
  lemma OtherMovesBalance(db: Db, m: Move, w: World, i: nat)
    requires !m.Turn? && !m.JudgeMachine? && i in db.cases
    requires Balanced(db.cases[i], db.log, i, w.st)
    ensures Balanced(Apply(db, m, w).cases[i], Apply(db, m, w).log, i, w.st)
  {
    LinkEntriesCountNothing(db, m, w, i, Deliveries);
    LinkEntriesCountNothing(db, m, w, i, Refunds);
    LinkEntriesCountNothing(db, m, w, i, Attempts);
    EveryMove(db, m, w, i);
    if Apply(db, m, w).cases[i].status.Active() { CounterMovesOnlyIn(db, m, w, i); }
    SameBooks(db.cases[i], Apply(db, m, w).cases[i], db.log, Apply(db, m, w).log, i, w.st);
  }

  lemma NewCaseBalances(db: Db, m: Move, w: World)
    requires Books(db, w.st) && m.OpenCase? && Legal(db, m, w)
    ensures Balanced(m.row, Apply(db, m, w).log, m.caseId, w.st)
  {
    LinkEntriesCountNothing(db, m, w, m.caseId, Deliveries);
    LinkEntriesCountNothing(db, m, w, m.caseId, Refunds);
    LinkEntriesCountNothing(db, m, w, m.caseId, Attempts);
    NothingCountedOfStrangers(db.log, m.caseId, Deliveries);
    NothingCountedOfStrangers(db.log, m.caseId, Refunds);
    NothingCountedOfStrangers(db.log, m.caseId, Attempts);
  }

  lemma UntouchedBalances(db: Db, m: Move, w: World, i: nat)
    requires i in db.cases && Balanced(db.cases[i], db.log, i, w.st)
    requires !(Legal(db, m, w) && ChangeOf(db, m, w).Change? && ChangeOf(db, m, w).caseId == i)
    ensures i in Apply(db, m, w).cases && Balanced(Apply(db, m, w).cases[i], Apply(db, m, w).log, i, w.st)
  {
    EveryMove(db, m, w, i);
    OthersUncounted(db, m, w, i, Deliveries);
    OthersUncounted(db, m, w, i, Refunds);
    OthersUncounted(db, m, w, i, Attempts);
  }

  lemma MoveKeepsBooks(db: Db, m: Move, w: World, i: nat)
    requires Books(db, w.st) && i in Apply(db, m, w).cases
    ensures Balanced(Apply(db, m, w).cases[i], Apply(db, m, w).log, i, w.st)
  {
    if !(Legal(db, m, w) && ChangeOf(db, m, w).Change? && ChangeOf(db, m, w).caseId == i) {
      UntouchedBalances(db, m, w, i);
    } else if m.Turn? {
      TurnBalances(db, m, w);
    } else if m.JudgeMachine? {
      VerdictBalances(db, m, w);
    } else if m.OpenCase? {
      NewCaseBalances(db, m, w);
    } else {
      OtherMovesBalance(db, m, w, i);
    }
  }

  /** The books balance in every state a run can reach from books that balance,
      the empty database among them. */
  lemma {:induction false} BooksBalance(db: Db, ms: seq<Move>, w: World)
    requires Books(db, w.st)
    ensures Books(Run(db, ms, w), w.st)
    decreases |ms|
  {
    if ms != [] {
      var mid := Run(db, ms[..|ms| - 1], w);
      BooksBalance(db, ms[..|ms| - 1], w);
      var m := ms[|ms| - 1];
      forall i | i in Apply(mid, m, w).cases
        ensures Balanced(Apply(mid, m, w).cases[i], Apply(mid, m, w).log, i, w.st)
      {
        MoveKeepsBooks(mid, m, w, i);
      }
    }
  }

  /** A case has had at most max_delivery_failures attempts for each contact of its
      budget and for each contact a machine verdict gave back; and the counter of
      an active case is what was delivered less what was given back. */
  predicate WithinBounds(db: Db, st: Settings, i: nat)
    requires i in db.cases
  {
    var c := db.cases[i];
    && Count(db.log, i, Attempts) <= st.maxDeliveryFailures * (c.maxAttempts + Count(db.log, i, Refunds))
    && (c.status.Active() ==>
          && c.attemptCount == Count(db.log, i, DeliveriesBy(Linking)) + Count(db.log, i, DeliveriesBy(Calling))
                               + Count(db.log, i, DeliveriesBy(Charging)) - Count(db.log, i, Refunds)
          && 0 <= c.attemptCount <= c.maxAttempts)
  }

  lemma BooksBound(db: Db, st: Settings, i: nat)
    requires Books(db, st) && i in db.cases
    ensures WithinBounds(db, st, i)
  {
    DeliveriesByKind(db.log, i);
    BudgetIsNatural(db.cases[i], db.log, i, st);
  }

  /** The bounded workflow, in every state reached from the empty database. */
  lemma BoundedWorkflow(ms: seq<Move>, w: World, i: nat)
    requires i in Run(EMPTY, ms, w).cases
    ensures WithinBounds(Run(EMPTY, ms, w), w.st, i)
  {
    BooksBalance(EMPTY, ms, w);
    BooksBound(Run(EMPTY, ms, w), w.st, i);
  }

  // --------------------------------------------------------- one link per case

  predicate TruthyLink(answer: LinkAnswer) {
    answer.LinkMade? ==> answer.link.id != "" && answer.link.url != ""
  }

  /** Razorpay's links carry an id and a URL. */
  predicate TruthyLinks(m: Move) {
    && (m.Turn? ==> TruthyLink(m.answers.link))
    && (m.Conclude? && m.reply.Some? ==> TruthyLink(m.reply.value))
    && (m.LinkInCall? ==> TruthyLink(m.link))
  }

  predicate Linked(c: Case, log: seq<Entry>, i: nat) {
    Count(log, i, NewLinks) <= (if c.HasLink() then 1 else 0)
  }

  /** A move makes a link for a case that has none, and leaves it with one. */
  lemma LinksAreStored(db: Db, m: Move, w: World)
    requires Legal(db, m, w) && TruthyLinks(m) && !m.OpenCase?
    requires var ch := ChangeOf(db, m, w); ch.Change? && ch.entries != []
    ensures var ch := ChangeOf(db, m, w);
            Count(ch.entries, ch.caseId, NewLinks) <=
              (if ch.row.HasLink() then 1 else 0) - (if db.cases[ch.caseId].HasLink() then 1 else 0)
  {
    var ch := ChangeOf(db, m, w);
    CountTwo(ch.entries[0], NewLink(ch.caseId), ch.caseId, NewLinks);
    if m.Turn? {
      var c := db.cases[m.caseId];
      EveryTurnKeeps(c, CustomerOf(db.customers, c), m.answers, m.now, w.st);
    }
  }

  lemma LinkedGrows(a: Case, b: Case, log: seq<Entry>, entries: seq<Entry>, i: nat)
    requires Linked(a, log, i)
    requires Count(entries, i, NewLinks) <= (if b.HasLink() then 1 else 0) - (if a.HasLink() then 1 else 0)
    ensures Linked(b, log + entries, i)
  {
    CountAppends(log, entries, i, NewLinks);
  }

  lemma KnownCaseKeepsLinked(db: Db, m: Move, w: World, i: nat)
    requires TruthyLinks(m) && i in db.cases && Linked(db.cases[i], db.log, i)
    ensures i in Apply(db, m, w).cases && Linked(Apply(db, m, w).cases[i], Apply(db, m, w).log, i)
  {
    if Legal(db, m, w) && ChangeOf(db, m, w).Change? && ChangeOf(db, m, w).caseId == i {
      var ch := ChangeOf(db, m, w);
      EveryChange(db, m, w);
      if ch.entries != [] { LinksAreStored(db, m, w); }
      LinkedGrows(db.cases[i], ch.row, db.log, ch.entries, i);
    } else {
      OthersUncounted(db, m, w, i, NewLinks);
    }
  }

  lemma MoveKeepsLinked(db: Db, m: Move, w: World, i: nat)
    requires Books(db, w.st) && TruthyLinks(m) && i in Apply(db, m, w).cases
    requires i in db.cases ==> Linked(db.cases[i], db.log, i)
    ensures Linked(Apply(db, m, w).cases[i], Apply(db, m, w).log, i)
  {
    if i in db.cases {
      KnownCaseKeepsLinked(db, m, w, i);
    } else {
      CountAfter(db, m, w, i, NewLinks);
      NothingCountedOfStrangers(db.log, i, NewLinks);
      assert Added(db, m, w, i, NewLinks) == 0;
    }
  }

  /** The tick, the call in progress and the call's conclusion together make at
      most one payment link per case, over every run from the empty database. */
  lemma {:induction false} OneLinkPerCase(ms: seq<Move>, w: World, i: nat)
    requires forall k | 0 <= k < |ms| :: TruthyLinks(ms[k])
    requires i in Run(EMPTY, ms, w).cases
    ensures Linked(Run(EMPTY, ms, w).cases[i], Run(EMPTY, ms, w).log, i)
    decreases |ms|
  {
    if ms != [] {
      var before := ms[..|ms| - 1];
      assert forall k | 0 <= k < |before| :: before[k] == ms[k];
      if i in Run(EMPTY, before, w).cases { OneLinkPerCase(before, w, i); }
      BooksBalance(EMPTY, before, w);
      MoveKeepsLinked(Run(EMPTY, before, w), ms[|ms| - 1], w, i);
    }
  }
}

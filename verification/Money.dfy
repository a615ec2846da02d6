/** Debts and credits: one debt has one active case, and a recovery is credited
    once. Over every run. */
module Money {
  import opened Domain
  import opened CaseWork
  import opened Lifecycle

  // -------------------------------------------------------------------- debts

  predicate PaymentIdsUnique(db: Db) {
    forall i, j | i in db.cases && j in db.cases && i != j :: db.cases[i].paymentId != db.cases[j].paymentId
  }

  /** An invoice that belongs to a subscription has at most one active case. */
  predicate OneActiveCasePerInvoice(db: Db, w: World) {
    forall i, j | i in db.cases && j in db.cases && i != j
                  && db.cases[i].status.Active() && db.cases[j].status.Active()
                  && OfSubscription(db.cases[i].invoiceId, w) ::
      db.cases[i].invoiceId != db.cases[j].invoiceId
  }

  /** Two cases are two debts. */
  predicate Apart(a: Case, b: Case, w: World) {
    && a.paymentId != b.paymentId
    && (a.status.Active() && b.status.Active() && OfSubscription(a.invoiceId, w) ==> a.invoiceId != b.invoiceId)
  }

  /** A later version of a case chases the same debt, and is not active again. */
  predicate Later(a: Case, b: Case) {
    a.paymentId == b.paymentId && a.invoiceId == b.invoiceId && (b.status.Active() ==> a.status.Active())
  }

  lemma CasesGrowLater(db: Db, m: Move, w: World, i: nat)
    requires i in db.cases
    ensures i in Apply(db, m, w).cases && Later(db.cases[i], Apply(db, m, w).cases[i])
  {
    EveryMove(db, m, w, i);
  }

  lemma OldCasesStayApart(db: Db, m: Move, w: World, i: nat, j: nat)
    requires i in db.cases && j in db.cases && Apart(db.cases[i], db.cases[j], w)
    ensures i in Apply(db, m, w).cases && j in Apply(db, m, w).cases
    ensures Apart(Apply(db, m, w).cases[i], Apply(db, m, w).cases[j], w)
  {
    CasesGrowLater(db, m, w, i);
    CasesGrowLater(db, m, w, j);
  }

  lemma MoveKeepsApart(db: Db, m: Move, w: World, i: nat, j: nat)
    requires PaymentIdsUnique(db) && OneActiveCasePerInvoice(db, w)
    requires i in Apply(db, m, w).cases && j in Apply(db, m, w).cases && i != j
    ensures Apart(Apply(db, m, w).cases[i], Apply(db, m, w).cases[j], w)
  {
    if i in db.cases && j in db.cases {
      OldCasesStayApart(db, m, w, i, j);
    } else if i !in db.cases {
      NewCaseIsNewDebt(db, m, w, i, j);
    } else {
      NewCaseIsNewDebt(db, m, w, j, i);
    }
  }

  lemma MoveKeepsDebts(db: Db, m: Move, w: World)
    requires PaymentIdsUnique(db) && OneActiveCasePerInvoice(db, w)
    ensures PaymentIdsUnique(Apply(db, m, w)) && OneActiveCasePerInvoice(Apply(db, m, w), w)
  {
    var after := Apply(db, m, w);
    forall i, j | i in after.cases && j in after.cases && i != j ensures Apart(after.cases[i], after.cases[j], w) {
      MoveKeepsApart(db, m, w, i, j);
    }
  }

  lemma NewCaseIsNewDebt(db: Db, m: Move, w: World, i: nat, j: nat)
    requires i !in db.cases && i in Apply(db, m, w).cases && i != j && j in Apply(db, m, w).cases
    ensures var after := Apply(db, m, w);
            && after.cases[i].paymentId != after.cases[j].paymentId
            && (after.cases[j].status.Active() && OfSubscription(after.cases[i].invoiceId, w) ==>
                after.cases[i].invoiceId != after.cases[j].invoiceId)
  {
    assert m.OpenCase? && m.caseId == i && j in db.cases;
    assert !PaymentKnown(db, m.row.paymentId);
    if OfSubscription(m.row.invoiceId, w) && db.cases[j].status.Active() {
      assert !ChasesInvoice(db.cases[j], m.row.invoiceId);
    }
  }

  /** Payment ids are unique across cases, and an invoice that belongs to a
      subscription has at most one OPEN or IN_PROGRESS case, in every state reached
      from the empty database. */
  lemma {:induction false} OneDebtOneCase(ms: seq<Move>, w: World)
    ensures PaymentIdsUnique(Run(EMPTY, ms, w)) && OneActiveCasePerInvoice(Run(EMPTY, ms, w), w)
    decreases |ms|
  {
    if ms != [] {
      OneDebtOneCase(ms[..|ms| - 1], w);
      MoveKeepsDebts(Run(EMPTY, ms[..|ms| - 1], w), ms[|ms| - 1], w);
    }
  }

  // ------------------------------------------------------------------ credits

  function Captures(audit: seq<AuditRow>, i: nat): nat
    decreases |audit|
  {
    if audit == [] then 0
    else
      var last := audit[|audit| - 1];
      Captures(audit[..|audit| - 1], i) + if last.caseId == i && last.note.PaymentCaptured? then 1 else 0
  }

  lemma {:induction false} CapturesAppend(a: seq<AuditRow>, b: seq<AuditRow>, i: nat)
    ensures Captures(a + b, i) == Captures(a, i) + Captures(b, i)
    decreases |b|
  {
    if b == [] {
      assert a + b == a;
    } else {
      assert (a + b)[..|a + b| - 1] == a + b[..|b| - 1];
      CapturesAppend(a, b[..|b| - 1], i);
    }
  }

  lemma {:induction false} NoCaptures(audit: seq<AuditRow>, i: nat)
    requires forall k | 0 <= k < |audit| :: audit[k].caseId != i || !audit[k].note.PaymentCaptured?
    ensures Captures(audit, i) == 0
    decreases |audit|
  {
    if audit != [] { NoCaptures(audit[..|audit| - 1], i); }
  }

  /** A call whose intent carries a status overwrites whatever status it finds; a
      move is respectful when it does not do so to a RECOVERED case. */
  predicate Respectful(db: Db, m: Move, w: World) {
    m.Conclude? && Legal(db, m, w) && OutcomeFor(m.intent).status.Some? ==> !db.cases[m.caseId].status.Recovered?
  }

  ghost predicate RespectfulRun(db: Db, ms: seq<Move>, w: World) {
    forall k | 0 <= k < |ms| :: Respectful(Run(db, ms[..k], w), ms[k], w)
  }

  /** RECOVERED, a credit and one PAYMENT_CAPTURED row go together. */
  predicate CreditMatches(c: Case, audit: seq<AuditRow>, i: nat) {
    && (c.credit.Some? <==> c.status.Recovered?)
    && Captures(audit, i) == if c.status.Recovered? then 1 else 0
  }

  predicate CreditsMatch(db: Db) {
    && (forall i | i in db.cases :: CreditMatches(db.cases[i], db.audit, i))
    && (forall k | 0 <= k < |db.audit| :: db.audit[k].caseId in db.cases)
  }

  /** The status of a case is RECOVERED after a respectful move exactly when it was
      before or the move recovers it; the notes of every other move hold no capture. */
  lemma RespectfulMove(db: Db, m: Move, w: World)
    requires Legal(db, m, w) && Respectful(db, m, w) && ChangeOf(db, m, w).Change? && !m.Recover?
    ensures var ch := ChangeOf(db, m, w);
            && (forall k | 0 <= k < |ch.notes| :: !ch.notes[k].PaymentCaptured?)
            && (ch.caseId in db.cases ==>
                  (ch.row.status.Recovered? <==> db.cases[ch.caseId].status.Recovered?)
                  && ch.row.credit == db.cases[ch.caseId].credit)
  {
    EveryChange(db, m, w);
    if m.Turn? {
      TurnsCaptureNothing(db, m, w);
    } else if m.Conclude? {
      ConclusionNotesCaptureNothing(db, m, w);
    }
  }

  lemma TurnsCaptureNothing(db: Db, m: Move, w: World)
    requires m.Turn? && Legal(db, m, w)
    ensures var ch := TurnChange(db, m.caseId, m.answers, m.now, w.st);
            && (forall k | 0 <= k < |ch.notes| :: !ch.notes[k].PaymentCaptured?)
            && !ch.row.status.Recovered?
  {
    var c := db.cases[m.caseId];
    EveryTurnKeeps(c, CustomerOf(db.customers, c), m.answers, m.now, w.st);
  }

  lemma ConclusionNotesCaptureNothing(db: Db, m: Move, w: World)
    requires m.Conclude? && Legal(db, m, w)
    ensures var ch := ConcludeChange(db, m.caseId, m.intent, m.reply, m.now, w.st);
            forall k | 0 <= k < |ch.notes| :: !ch.notes[k].PaymentCaptured?
  {
  }

  lemma MoveKeepsCredit(db: Db, m: Move, w: World, i: nat)
    requires CreditsMatch(db) && Respectful(db, m, w) && i in Apply(db, m, w).cases
    ensures CreditMatches(Apply(db, m, w).cases[i], Apply(db, m, w).audit, i)
  {
    if i !in db.cases { NoCaptures(db.audit, i); }
    if Legal(db, m, w) && ChangeOf(db, m, w).Change? {
      var ch := ChangeOf(db, m, w);
      var rows := Rows(ch.caseId, ch.notes);
      CapturesAppend(db.audit, rows, i);
      if m.Recover? {
        RecoveryCaptures(ch, m, i);
      } else {
        RespectfulMove(db, m, w);
        NoCaptures(rows, i);
      }
    }
  }

  lemma RecoveryCaptures(ch: Change, m: Move, i: nat)
    requires m.Recover? && ch.Change? && ch.caseId == m.caseId
    requires ch.notes == [PaymentCaptured(m.credit.paymentId, m.credit.amount)]
    ensures Captures(Rows(ch.caseId, ch.notes), i) == if i == m.caseId then 1 else 0
  {
    var rows := Rows(ch.caseId, ch.notes);
    assert rows == [AuditRow(m.caseId, PaymentCaptured(m.credit.paymentId, m.credit.amount))];
    assert rows[..0] == [];
  }

  lemma {:induction false} RespectfulRunsKeepCredits(db: Db, ms: seq<Move>, w: World)
    requires CreditsMatch(db) && RespectfulRun(db, ms, w)
    ensures CreditsMatch(Run(db, ms, w))
    decreases |ms|
  {
    if ms != [] {
      var before, m := ms[..|ms| - 1], ms[|ms| - 1];
      RespectfulPrefix(db, ms, w);
      RespectfulRunsKeepCredits(db, before, w);
      MoveKeepsCredits(Run(db, before, w), m, w);
    }
  }

  /** PAYMENT_CAPTURED rows correspond one to one with RECOVERED cases, over every
      respectful run from the empty database. */
  lemma OneCapturePerRecovery(ms: seq<Move>, w: World)
    requires RespectfulRun(EMPTY, ms, w)
    ensures CreditsMatch(Run(EMPTY, ms, w))
  {
    RespectfulRunsKeepCredits(EMPTY, ms, w);
  }

  lemma MoveKeepsCredits(db: Db, m: Move, w: World)
    requires CreditsMatch(db) && Respectful(db, m, w)
    ensures CreditsMatch(Apply(db, m, w))
  {
    forall i | i in Apply(db, m, w).cases ensures CreditMatches(Apply(db, m, w).cases[i], Apply(db, m, w).audit, i) {
      MoveKeepsCredit(db, m, w, i);
    }
    if Legal(db, m, w) && ChangeOf(db, m, w).Change? {
      var ch := ChangeOf(db, m, w);
      assert forall r | r in Rows(ch.caseId, ch.notes) :: r.caseId == ch.caseId;
    }
  }

  lemma RespectfulPrefix(db: Db, ms: seq<Move>, w: World)
    requires RespectfulRun(db, ms, w) && ms != []
    ensures RespectfulRun(db, ms[..|ms| - 1], w)
    ensures Respectful(Run(db, ms[..|ms| - 1], w), ms[|ms| - 1], w)
  {
    var before := ms[..|ms| - 1];
    forall k | 0 <= k < |before| ensures Respectful(Run(db, before[..k], w), before[k], w) {
      assert before[..k] == ms[..k];
    }
  }

  /** A credit is written once: from a RECOVERED case on, no respectful run changes
      the status, the payment, the amount or the instant of the credit. */
  lemma {:induction false} CreditIsWrittenOnce(db: Db, ms: seq<Move>, w: World, i: nat)
    requires i in db.cases && db.cases[i].status.Recovered? && RespectfulRun(db, ms, w)
    ensures i in Run(db, ms, w).cases
    ensures Run(db, ms, w).cases[i].status.Recovered? && Run(db, ms, w).cases[i].credit == db.cases[i].credit
    decreases |ms|
  {
    if ms != [] {
      var before, m := ms[..|ms| - 1], ms[|ms| - 1];
      RespectfulPrefix(db, ms, w);
      CreditIsWrittenOnce(db, before, w, i);
      RecoveredStays(Run(db, before, w), m, w, i);
    }
  }

  lemma RecoveredStays(db: Db, m: Move, w: World, i: nat)
    requires i in db.cases && db.cases[i].status.Recovered? && Respectful(db, m, w)
    ensures Apply(db, m, w).cases[i].status.Recovered? && Apply(db, m, w).cases[i].credit == db.cases[i].credit
  {
    if Legal(db, m, w) && ChangeOf(db, m, w).Change? && !m.Recover? { RespectfulMove(db, m, w); }
  }

  /** Without that, RECOVERED is not final: a conclusion leaves a RECOVERED case
      RECOVERED exactly when its intent carries no status; ... */
  lemma ConclusionsMayUnrecover(db: Db, m: Move, w: World)
    requires m.Conclude? && Legal(db, m, w) && db.cases[m.caseId].status.Recovered?
    ensures Apply(db, m, w).cases[m.caseId].status.Recovered? <==> OutcomeFor(m.intent).status.None?
  {
  }

  lemma ConclusionsCaptureNothing(db: Db, m: Move, w: World, i: nat)
    requires m.Conclude? && Legal(db, m, w)
    ensures Captures(Apply(db, m, w).audit, i) == Captures(db.audit, i)
  {
    var ch := ChangeOf(db, m, w);
    ConclusionNotesCaptureNothing(db, m, w);
    CapturesAppend(db.audit, Rows(ch.caseId, ch.notes), i);
    NoCaptures(Rows(ch.caseId, ch.notes), i);
  }

  lemma RecoveryCredits(db: Db, i: nat, credit: Credit, w: World)
    requires i in db.cases && !db.cases[i].status.Recovered?
    ensures var after := Apply(db, Recover(i, credit), w);
            && i in after.cases && after.cases[i].status.Recovered? && after.cases[i].credit == Some(credit)
            && Captures(after.audit, i) == Captures(db.audit, i) + 1
  {
    var row := AuditRow(i, PaymentCaptured(credit.paymentId, credit.amount));
    assert Rows(i, [row.note]) == [row];
    CapturesAppend(db.audit, [row], i);
    assert [row][..0] == [];
  }

  /** ... and once it has been overwritten, the next recovery credits it again,
      over the first payment and with a second PAYMENT_CAPTURED row. */
  lemma OverwrittenRecoveryIsCreditedAgain(db: Db, m: Move, w: World, credit: Credit)
    requires m.Conclude? && Legal(db, m, w) && db.cases[m.caseId].status.Recovered? && OutcomeFor(m.intent).status.Some?
    ensures var i := m.caseId;
            var again := Apply(Apply(db, m, w), Recover(i, credit), w);
            && i in again.cases && again.cases[i].credit == Some(credit)
            && Captures(again.audit, i) == Captures(db.audit, i) + 1
  {
    var i := m.caseId;
    ConclusionsMayUnrecover(db, m, w);
    ConclusionsCaptureNothing(db, m, w, i);
    RecoveryCredits(Apply(db, m, w), i, credit, w);
  }
}

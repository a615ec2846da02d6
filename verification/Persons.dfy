/** The rules that protect a person: the gap between contacts, per case and per
    customer, and suppression. Over every run. */
module Persons {
  import opened Domain
  import opened CaseWork
  import opened Lifecycle

  // ------------------------------------------------------------------ spacing

  /** Any two attempts on one case are a backoff apart, and no attempt is later
      than the clock the case carries. */
  predicate CasesSpaced(db: Db, st: Settings) {
    && (forall p, q | 0 <= p < q < |db.log| && db.log[p].Attempt? && db.log[q].Attempt?
                      && db.log[p].caseId == db.log[q].caseId ::
          db.log[q].at - db.log[p].at >= st.retryBackoffHours * HOUR)
    && (forall p | 0 <= p < |db.log| && db.log[p].Attempt? ::
          && db.log[p].caseId in db.cases
          && db.cases[db.log[p].caseId].lastAttemptAt.Some?
          && db.log[p].at <= db.cases[db.log[p].caseId].lastAttemptAt.value)
  }

  /** After something was delivered to a person nothing is attempted on any of their
      debts for a cooldown, and no delivery is later than the clock they carry. */
  predicate PersonsSpaced(db: Db, st: Settings) {
    && (forall p, q | 0 <= p < q < |db.log| && db.log[p].Attempt? && db.log[p].delivered && db.log[q].Attempt?
                      && db.log[p].customerId == db.log[q].customerId ::
          db.log[q].at - db.log[p].at >= st.customerCooldownHours * HOUR)
    && (forall p | 0 <= p < |db.log| && db.log[p].Attempt? && db.log[p].delivered ::
          && db.log[p].customerId in db.customers
          && db.customers[db.log[p].customerId].lastContactedAt.Some?
          && db.log[p].at <= db.customers[db.log[p].customerId].lastContactedAt.value)
  }

  /** What a move appends to the log: at most one attempt, made by a turn. */
  lemma NewAttempts(db: Db, m: Move, w: World, p: nat)
    requires |db.log| <= p < |Apply(db, m, w).log| && Apply(db, m, w).log[p].Attempt?
    ensures Legal(db, m, w) && m.Turn? && p == |db.log|
    ensures var c := db.cases[m.caseId];
            var t := Work(c, CustomerOf(db.customers, c), m.answers, m.now, w.st);
            && t.effect.Attempted()
            && Apply(db, m, w).log[p] == Attempt(m.caseId, c.customerId, t.effect.kind, m.now, t.effect.Delivered?)
  {
  }

  lemma LogGrows(db: Db, m: Move, w: World)
    ensures db.log <= Apply(db, m, w).log
  {
  }

  lemma MoveKeepsCasesSpaced(db: Db, m: Move, w: World)
    requires CasesSpaced(db, w.st)
    ensures CasesSpaced(Apply(db, m, w), w.st)
  {
    var after := Apply(db, m, w);
    LogGrows(db, m, w);
    forall p | 0 <= p < |after.log| && after.log[p].Attempt?
      ensures after.log[p].caseId in after.cases && after.cases[after.log[p].caseId].lastAttemptAt.Some?
              && after.log[p].at <= after.cases[after.log[p].caseId].lastAttemptAt.value
    {
      CaseClock(db, m, w, p);
    }
    forall p, q | 0 <= p < q < |after.log| && after.log[p].Attempt? && after.log[q].Attempt?
                  && after.log[p].caseId == after.log[q].caseId
      ensures after.log[q].at - after.log[p].at >= w.st.retryBackoffHours * HOUR
    {
      assert p < |db.log| ==> after.log[p] == db.log[p];
      if q < |db.log| {
        assert after.log[q] == db.log[q];
      } else {
        NewAttempts(db, m, w, q);
        assert p < |db.log|;
        var c := db.cases[m.caseId];
        AttemptMeans(c, CustomerOf(db.customers, c), m.answers, m.now, w.st);
      }
    }
  }

  lemma CaseClock(db: Db, m: Move, w: World, p: nat)
    requires CasesSpaced(db, w.st) && p < |Apply(db, m, w).log| && Apply(db, m, w).log[p].Attempt?
    ensures var after := Apply(db, m, w);
            after.log[p].caseId in after.cases && after.cases[after.log[p].caseId].lastAttemptAt.Some?
            && after.log[p].at <= after.cases[after.log[p].caseId].lastAttemptAt.value
  {
    var after := Apply(db, m, w);
    LogGrows(db, m, w);
    if p < |db.log| {
      assert after.log[p] == db.log[p];
      var i := db.log[p].caseId;
      EveryMove(db, m, w, i);
      if m.Turn? && after.cases[i] != db.cases[i] {
        var c := db.cases[i];
        var t := Work(c, CustomerOf(db.customers, c), m.answers, m.now, w.st);
        if t.effect.Attempted() { AttemptMeans(c, CustomerOf(db.customers, c), m.answers, m.now, w.st); }
        else { OtherwiseNothingMoves(c, CustomerOf(db.customers, c), m.answers, m.now, w.st); }
      }
    } else {
      NewAttempts(db, m, w, p);
      var c := db.cases[m.caseId];
      AttemptMeans(c, CustomerOf(db.customers, c), m.answers, m.now, w.st);
    }
  }

  /** No move but a turn touches a person's contact clock, none clears a flag, and
      no person is forgotten. */
  predicate PersonMay(a: Customer, b: Customer, m: Move) {
    && (a.doNotContact ==> b.doNotContact)
    && (a.phoneIsWrong ==> b.phoneIsWrong)
    && (!m.Turn? ==> b.lastContactedAt == a.lastContactedAt)
    && (a.lastContactedAt.Some? ==> b.lastContactedAt.Some?)
  }

  lemma EveryMoveOnAPerson(db: Db, m: Move, w: World, k: string)
    requires k in db.customers
    ensures k in Apply(db, m, w).customers && PersonMay(db.customers[k], Apply(db, m, w).customers[k], m)
    ensures Legal(db, m, w) && m.Turn? ==>
              var c := db.cases[m.caseId];
              var t := Work(c, CustomerOf(db.customers, c), m.answers, m.now, w.st);
              Apply(db, m, w).customers[k] ==
                if c.customerId == k && t.effect.Delivered? then db.customers[k].(lastContactedAt := Some(m.now))
                else db.customers[k]
  {
    if m.Turn? && Legal(db, m, w) {
      var c := db.cases[m.caseId];
      var cu := CustomerOf(db.customers, c);
      EveryTurnKeeps(c, cu, m.answers, m.now, w.st);
      if Work(c, cu, m.answers, m.now, w.st).effect.Attempted() { AttemptMeans(c, cu, m.answers, m.now, w.st); }
      else { OtherwiseNothingMoves(c, cu, m.answers, m.now, w.st); }
    }
  }

  lemma PersonClock(db: Db, m: Move, w: World, p: nat)
    requires PersonsSpaced(db, w.st)
    requires p < |Apply(db, m, w).log| && Apply(db, m, w).log[p].Attempt? && Apply(db, m, w).log[p].delivered
    ensures var after := Apply(db, m, w);
            && after.log[p].customerId in after.customers
            && after.customers[after.log[p].customerId].lastContactedAt.Some?
            && after.log[p].at <= after.customers[after.log[p].customerId].lastContactedAt.value
  {
    LogGrows(db, m, w);
    if p < |db.log| {
      assert Apply(db, m, w).log[p] == db.log[p];
      EveryMoveOnAPerson(db, m, w, db.log[p].customerId);
    } else {
      NewAttempts(db, m, w, p);
    }
    if m.Turn? && Legal(db, m, w) {
      var c := db.cases[m.caseId];
      var cu := CustomerOf(db.customers, c);
      if Work(c, cu, m.answers, m.now, w.st).effect.Attempted() {
        AttemptMeans(c, cu, m.answers, m.now, w.st);
        EveryMoveOnAPerson(db, m, w, c.customerId);
      }
    }
  }

  lemma MoveKeepsPersonsSpaced(db: Db, m: Move, w: World)
    requires PersonsSpaced(db, w.st)
    ensures PersonsSpaced(Apply(db, m, w), w.st)
  {
    var after := Apply(db, m, w);
    LogGrows(db, m, w);
    forall p | 0 <= p < |after.log| && after.log[p].Attempt? && after.log[p].delivered
      ensures after.log[p].customerId in after.customers
              && after.customers[after.log[p].customerId].lastContactedAt.Some?
              && after.log[p].at <= after.customers[after.log[p].customerId].lastContactedAt.value
    {
      PersonClock(db, m, w, p);
    }
    forall p, q | 0 <= p < q < |after.log| && after.log[p].Attempt? && after.log[p].delivered && after.log[q].Attempt?
                  && after.log[p].customerId == after.log[q].customerId
      ensures after.log[q].at - after.log[p].at >= w.st.customerCooldownHours * HOUR
    {
      assert p < |db.log| ==> after.log[p] == db.log[p];
      if q < |db.log| {
        assert after.log[q] == db.log[q];
      } else {
        NewAttempts(db, m, w, q);
        assert p < |db.log|;
        var c := db.cases[m.caseId];
        AttemptMeans(c, CustomerOf(db.customers, c), m.answers, m.now, w.st);
      }
    }
  }

  /** The gaps hold in every state a run reaches, whatever the moves and however
      the clocks of successive ticks compare. */
  lemma {:induction false} GapsHold(db: Db, ms: seq<Move>, w: World)
    requires CasesSpaced(db, w.st) && PersonsSpaced(db, w.st)
    ensures CasesSpaced(Run(db, ms, w), w.st) && PersonsSpaced(Run(db, ms, w), w.st)
    decreases |ms|
  {
    if ms != [] {
      GapsHold(db, ms[..|ms| - 1], w);
      MoveKeepsCasesSpaced(Run(db, ms[..|ms| - 1], w), ms[|ms| - 1], w);
      MoveKeepsPersonsSpaced(Run(db, ms[..|ms| - 1], w), ms[|ms| - 1], w);
    }
  }

  lemma GapsHoldFromTheStart(ms: seq<Move>, w: World)
    ensures CasesSpaced(Run(EMPTY, ms, w), w.st) && PersonsSpaced(Run(EMPTY, ms, w), w.st)
  {
    GapsHold(EMPTY, ms, w);
  }

  // -------------------------------------------------------------- suppression

  predicate Flagged(db: Db, k: string) { k in db.customers && db.customers[k].doNotContact }

  predicate WrongPhone(db: Db, k: string) { k in db.customers && db.customers[k].phoneIsWrong }

  /** Nothing logged from position `from` on was attempted on person `k`. */
  predicate Untouched(log: seq<Entry>, from: nat, k: string) {
    forall p | from <= p < |log| && log[p].Attempt? :: log[p].customerId != k
  }

  /** Nothing logged from position `from` on reached `k` by call or by charge. */
  predicate OnlyLinksReach(log: seq<Entry>, from: nat, k: string) {
    forall p | from <= p < |log| && log[p].Attempt? && log[p].customerId == k && log[p].delivered ::
      log[p].kind.Linking?
  }

  /** The conclusion of a call sets the flag on the person, if there is a row for
      them: a refusal or a dispute bars the person, a wrong number the phone. */
  lemma ConclusionsFlag(db: Db, m: Move, w: World)
    requires m.Conclude? && Legal(db, m, w) && CustomerOf(db.customers, db.cases[m.caseId]).Some?
    ensures var k := db.cases[m.caseId].customerId;
            && (m.intent.IntentDeclined? || m.intent.Dispute? ==> Flagged(Apply(db, m, w), k))
            && (m.intent.WrongNumber? ==> WrongPhone(Apply(db, m, w), k))
            && (m.intent.IntentDeclined? || m.intent.Dispute? || m.intent.WrongNumber? ==>
                  Apply(db, m, w).cases[m.caseId].status.Closed())
  {
  }

  lemma MoveRespectsFlags(db: Db, m: Move, w: World, k: string)
    requires k in db.customers
    ensures Flagged(db, k) ==> Flagged(Apply(db, m, w), k) && Untouched(Apply(db, m, w).log, |db.log|, k)
    ensures WrongPhone(db, k) ==> WrongPhone(Apply(db, m, w), k) && OnlyLinksReach(Apply(db, m, w).log, |db.log|, k)
  {
    EveryMoveOnAPerson(db, m, w, k);
    forall p | |db.log| <= p < |Apply(db, m, w).log| && Apply(db, m, w).log[p].Attempt?
               && Apply(db, m, w).log[p].customerId == k
      ensures !Flagged(db, k)
              && (WrongPhone(db, k) && Apply(db, m, w).log[p].delivered ==> Apply(db, m, w).log[p].kind.Linking?)
    {
      NewAttempts(db, m, w, p);
      var c := db.cases[m.caseId];
      AttemptMeans(c, CustomerOf(db.customers, c), m.answers, m.now, w.st);
    }
  }

  /** Suppression follows the person. Once barred, a person stays barred, on every
      case they have and every case they will have: no run attempts anything on
      them again. Once their number is known to be wrong, no run reaches them by a
      call or a charge again. */
  lemma {:induction false} SuppressionFollowsThePerson(db: Db, ms: seq<Move>, w: World, k: string)
    requires k in db.customers
    ensures db.log <= Run(db, ms, w).log && k in Run(db, ms, w).customers
    ensures Flagged(db, k) ==> Flagged(Run(db, ms, w), k) && Untouched(Run(db, ms, w).log, |db.log|, k)
    ensures WrongPhone(db, k) ==> WrongPhone(Run(db, ms, w), k) && OnlyLinksReach(Run(db, ms, w).log, |db.log|, k)
    decreases |ms|
  {
    if ms != [] {
      var mid, m := Run(db, ms[..|ms| - 1], w), ms[|ms| - 1];
      SuppressionFollowsThePerson(db, ms[..|ms| - 1], w, k);
      LogGrows(mid, m, w);
      MoveRespectsFlags(mid, m, w, k);
      EveryMoveOnAPerson(mid, m, w, k);
      assert forall p | 0 <= p < |mid.log| :: Run(db, ms, w).log[p] == mid.log[p];
    }
  }
}

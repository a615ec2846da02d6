/** app/payment_links.py:45-90: the reference on a payment link, and reading the
    case back from it. */
module References {
  import opened Domain
  import opened Decimals

  const PREFIX := "recovery-"
  const MAX_REFERENCE_CHARS: nat := 40

  function Cut(s: string, n: nat): string { if |s| <= n then s else s[..n] }

  /** The untruncated reference; `namespace` is the setting with its blanks stripped. */
  function FullReference(id: string, attempt: string, namespace: string): string {
    PREFIX + id + "-" + attempt + Tail(namespace)
  }

  function Tail(namespace: string): string { if namespace != "" then "-" + namespace else "" }

  function ReferenceFor(caseId: int, attemptCount: int, namespace: string): string {
    Cut(FullReference(Str(caseId), Str(attemptCount), namespace), MAX_REFERENCE_CHARS)
  }

  /** `s.split("-")[0]` */
  function FirstSegment(s: string): string {
    if s == "" || s[0] == '-' then "" else [s[0]] + FirstSegment(s[1..])
  }

  function CaseIdFrom(reference: string): Option<int> {
    if PREFIX <= reference then ParseInt(FirstSegment(reference[|PREFIX|..])) else None
  }

  lemma {:induction false} SegmentStops(a: string, b: string)
    requires forall k | 0 <= k < |a| :: a[k] != '-'
    requires b == "" || b[0] == '-'
    ensures FirstSegment(a + b) == a
    decreases |a|
  {
    if a == "" {
      assert a + b == b;
    } else {
      assert (a + b)[1..] == a[1..] + b;
      SegmentStops(a[1..], b);
    }
  }

  const ROOM: nat := MAX_REFERENCE_CHARS - |PREFIX|

  lemma CutBehindThePrefix(s: string)
    ensures var r := Cut(PREFIX + s, MAX_REFERENCE_CHARS);
            PREFIX <= r && r[|PREFIX|..] == Cut(s, ROOM)
  {
  }

  lemma Regrouped(p: string, id: string, attempt: string, tail: string)
    ensures p + id + "-" + attempt + tail == p + (id + ("-" + attempt + tail))
  {
  }

  lemma BehindThePrefix(id: string, attempt: string, namespace: string)
    ensures var r := Cut(FullReference(id, attempt, namespace), MAX_REFERENCE_CHARS);
            PREFIX <= r && r[|PREFIX|..] == Cut(id + ("-" + attempt + Tail(namespace)), ROOM)
  {
    Regrouped(PREFIX, id, attempt, Tail(namespace));
    CutBehindThePrefix(id + ("-" + attempt + Tail(namespace)));
  }

  lemma SegmentOfACut(id: string, rest: string, room: nat)
    requires AllDigits(id) && rest != "" && rest[0] == '-'
    ensures FirstSegment(Cut(id + rest, room)) == Cut(id, room)
  {
    var head := Cut(id, room);
    assert forall k | 0 <= k < |head| :: IsDigit(head[k]);
    if |id| < room {
      assert Cut(id + rest, room) == id + Cut(rest, room - |id|);
      SegmentStops(head, Cut(rest, room - |id|));
    } else {
      assert Cut(id + rest, room) == head + "";
      SegmentStops(head, "");
    }
  }

  /** What is left of the reference behind the prefix: the case id, cut to the
      room it has, and whatever of the rest still fits. */
  lemma CutKeepsTheId(caseId: nat, attemptCount: int, namespace: string)
    ensures var r := ReferenceFor(caseId, attemptCount, namespace);
            PREFIX <= r && FirstSegment(r[|PREFIX|..]) == Cut(Digits(caseId), ROOM)
  {
    BehindThePrefix(Digits(caseId), Str(attemptCount), namespace);
    SegmentOfACut(Digits(caseId), "-" + Str(attemptCount) + Tail(namespace), ROOM);
  }

  lemma NegativeIdsAreLost(caseId: int, attemptCount: int, namespace: string)
    requires caseId < 0
    ensures CaseIdFrom(ReferenceFor(caseId, attemptCount, namespace)) == None
  {
    BehindThePrefix(Str(caseId), Str(attemptCount), namespace);
    assert ReferenceFor(caseId, attemptCount, namespace)[|PREFIX|..][0] == '-';
  }

  lemma ShortIdsReadBack(caseId: nat)
    requires |Digits(caseId)| <= 31
    ensures ParseInt(Cut(Digits(caseId), 31)) == Some(caseId)
  {
    ParsesBack(caseId);
  }

  lemma LongIdsAreCut(caseId: nat)
    requires |Digits(caseId)| > 31
    ensures AllDigits(Digits(caseId)[..31]) && ParseInt(Cut(Digits(caseId), 31)) == Some(Value(Digits(caseId)[..31]))
    ensures Value(Digits(caseId)[..31]) < Pow10(31)
  {
    var head := Digits(caseId)[..31];
    assert AllDigits(head) && head[0] != '+';
    ValueBound(head);
  }

  /** The case id reads back from its reference, for any attempt and any namespace
      and in spite of the cut, exactly when it is a natural number of at most 31
      digits. */
  lemma CaseIdReadsBack(caseId: int, attemptCount: int, namespace: string)
    ensures CaseIdFrom(ReferenceFor(caseId, attemptCount, namespace)) == Some(caseId) <==> 0 <= caseId < Pow10(31)
  {
    if caseId < 0 {
      NegativeIdsAreLost(caseId, attemptCount, namespace);
    } else {
      CutKeepsTheId(caseId, attemptCount, namespace);
      DigitsFit(caseId, 31);
      if |Digits(caseId)| <= 31 { ShortIdsReadBack(caseId); } else { LongIdsAreCut(caseId); }
    }
  }

  /** References issued before the attempt suffix existed still name their case. */
  lemma OldReferencesReadBack(caseId: nat)
    ensures CaseIdFrom(PREFIX + Digits(caseId)) == Some(caseId)
  {
    assert (PREFIX + Digits(caseId))[|PREFIX|..] == Digits(caseId) + "";
    SegmentStops(Digits(caseId), "");
    ParsesBack(caseId);
  }

  // ------------------------------------------------------------- told apart

  /** The attempt is not touched by the cut. */
  predicate AttemptFits(caseId: nat, attemptCount: nat) {
    |Digits(caseId)| + 1 + |Digits(attemptCount)| <= ROOM
  }

  predicate NoDash(s: string) { forall k | 0 <= k < |s| :: s[k] != '-' }

  lemma DigitsHaveNoDash(n: nat)
    ensures NoDash(Digits(n))
  {
    assert forall k | 0 <= k < |Digits(n)| :: IsDigit(Digits(n)[k]);
  }

  lemma TwoSegments(id: string, attempt: string, rest: string)
    requires NoDash(id) && NoDash(attempt) && (rest == "" || rest[0] == '-')
    ensures var body := id + "-" + attempt + rest;
            FirstSegment(body) == id && FirstSegment(body[|id| + 1..]) == attempt
  {
    var body := id + "-" + attempt + rest;
    assert body == id + ("-" + attempt + rest);
    SegmentStops(id, "-" + attempt + rest);
    assert body[|id| + 1..] == attempt + rest;
    SegmentStops(attempt, rest);
  }

  lemma CutBehind(id: string, attempt: string, tail: string)
    requires |id| + 1 + |attempt| <= ROOM
    ensures Cut(id + ("-" + attempt + tail), ROOM) == id + "-" + attempt + Cut(tail, ROOM - |id| - 1 - |attempt|)
  {
    var head := id + "-" + attempt;
    assert id + ("-" + attempt + tail) == head + tail;
  }

  /** The two numbers, read off the front of a reference. */
  lemma NumbersReadBack(caseId: nat, attemptCount: nat, namespace: string)
    requires AttemptFits(caseId, attemptCount)
    ensures var body := ReferenceFor(caseId, attemptCount, namespace)[|PREFIX|..];
            var id := FirstSegment(body);
            && id == Digits(caseId) && |id| + 1 <= |body| && FirstSegment(body[|id| + 1..]) == Digits(attemptCount)
  {
    var id, attempt := Digits(caseId), Digits(attemptCount);
    BehindThePrefix(id, attempt, namespace);
    CutBehind(id, attempt, Tail(namespace));
    DigitsHaveNoDash(caseId);
    DigitsHaveNoDash(attemptCount);
    TwoSegments(id, attempt, Cut(Tail(namespace), ROOM - |id| - 1 - |attempt|));
  }

  /** Razorpay keeps a reference forever: two are the same exactly if they are for the
      same case at the same attempt counter, so what does not move the counter, such
      as a charge that failed, uses its reference again. */
  lemma ReferencesTellAttemptsApart(a: nat, m: nat, b: nat, n: nat, namespace: string)
    requires AttemptFits(a, m) && AttemptFits(b, n)
    ensures ReferenceFor(a, m, namespace) == ReferenceFor(b, n, namespace) <==> a == b && m == n
  {
    NumbersReadBack(a, m, namespace);
    NumbersReadBack(b, n, namespace);
    assert Value(Digits(a)) == a && Value(Digits(b)) == b && Value(Digits(m)) == m && Value(Digits(n)) == n;
  }
}

/** app/policy.py: what to do about one case, and what its waits promise. */
module Policy {
  import opened Domain

  function GraceExpiresAt(c: Case, now: int, st: Settings): int {
    (if c.createdAt.Some? then c.createdAt.value else now) + st.bankGraceHours * HOUR
  }

  /** A number we have not been told is somebody else's. */
  predicate CanCall(cu: Option<Customer>) {
    cu.Some? && cu.value.phone != "" && !cu.value.phoneIsWrong
  }

  predicate ReachableAtAll(cu: Option<Customer>) {
    cu.Some? && (CanCall(cu) || cu.value.email != "")
  }

  predicate DeferringToTheBank(c: Case, now: int, st: Settings) {
    c.cause.DefersToTheBank() && c.haltedAt.None? &&
    (if c.createdAt.Some? then now - c.createdAt.value else 0) < st.bankGraceHours * HOUR
  }

  predicate WithinBackoff(c: Case, now: int, st: Settings) {
    c.lastAttemptAt.Some? && now - c.lastAttemptAt.value < st.retryBackoffHours * HOUR
  }

  function QuietUntil(at: int, st: Settings): int {
    at + st.customerCooldownHours * HOUR
  }

  /** The hour of the customer's wall clock, 0..23. */
  function LocalHour(now: int, st: Settings): (h: int)
    ensures 0 <= h < 24
  {
    ((now + st.zoneOffset) % DAY) / HOUR
  }

  predicate OpenHour(h: int, st: Settings) {
    st.windowStartHour <= h < st.windowEndHour
  }

  predicate WithinContactWindow(now: int, st: Settings) {
    OpenHour(LocalHour(now, st), st)
  }

  function InterventionFor(c: Case, cu: Option<Customer>, st: Settings): Action {
    if st.mandateRetryEnabled && c.cause.CustomerFunds? && c.attemptCount == 0 then RetryMandate
    else if !CanCall(cu) then SendLink
    else if c.cause.NeedsAConversation() then PlaceCall
    else if c.attemptCount == 0 then SendLink else PlaceCall
  }

  /** The first rule that closes the case, if any does. None of them reads the clock. */
  function StopReason(c: Case, cu: Option<Customer>, st: Settings): Option<Reason> {
    if c.status.Closed() then Some(AlreadyClosed)
    else if cu.Some? && cu.value.doNotContact then Some(DoNotContact)
    else if c.attemptCount >= c.maxAttempts then Some(MaxAttemptsReached)
    else if c.deliveryFailures >= st.maxDeliveryFailures then Some(Undeliverable)
    else if c.amount < st.minRecoverableAmount then Some(BelowMinAmount)
    else if c.cause.Configuration? then Some(NeedsHuman)
    else if !ReachableAtAll(cu) then Some(NoContactDetails)
    else None
  }

  function Decide(c: Case, cu: Option<Customer>, now: int, st: Settings): Decision {
    var stop := StopReason(c, cu, st);
    if stop.Some? then
      Decision(Stop, stop.value, c.cause, None)
    else if DeferringToTheBank(c, now, st) then
      Decision(Wait, AwaitingBankRetry, c.cause, Some(GraceExpiresAt(c, now, st)))
    else if WithinBackoff(c, now, st) then
      Decision(Wait, Reason.WithinBackoff, c.cause, Some(c.lastAttemptAt.value + st.retryBackoffHours * HOUR))
    else if cu.value.lastContactedAt.Some? && now < QuietUntil(cu.value.lastContactedAt.value, st) then
      Decision(Wait, CustomerRecentlyContacted, c.cause, Some(QuietUntil(cu.value.lastContactedAt.value, st)))
    else if !WithinContactWindow(now, st) then
      Decision(Wait, OutsideContactWindow, c.cause, None)
    else
      Decision(InterventionFor(c, cu, st), Eligible, c.cause, None)
  }

  predicate Acts(d: Decision) { d.action.RetryMandate? || d.action.SendLink? || d.action.PlaceCall? }

  /** What every executed intervention can rely on. */
  lemma ActingMeans(c: Case, cu: Option<Customer>, now: int, st: Settings)
    requires Acts(Decide(c, cu, now, st))
    ensures c.status.Active() && cu.Some? && ReachableAtAll(cu) && !cu.value.doNotContact
    ensures c.attemptCount < c.maxAttempts && c.deliveryFailures < st.maxDeliveryFailures
    ensures c.lastAttemptAt.Some? ==> now >= c.lastAttemptAt.value + st.retryBackoffHours * HOUR
    ensures cu.value.lastContactedAt.Some? ==> now >= QuietUntil(cu.value.lastContactedAt.value, st)
    ensures WithinContactWindow(now, st)
    ensures Decide(c, cu, now, st).action.PlaceCall? ==> CanCall(cu)
  {
  }

  // ------------------------------------------------------------------ parking

  /** The one wait that is not exact: the bank's, of a case that was never flushed. */
  predicate Renews(c: Case, reason: Reason) { c.createdAt.None? && reason.AwaitingBankRetry? }

  /** A wait that names an instant names a later one, holds at every instant before
      it, and from it on its reason never fires again, exactly if it does not renew
      itself. */
  lemma ParkingIsExact(c: Case, cu: Option<Customer>, now: int, st: Settings)
    requires Decide(c, cu, now, st).retryAfter.Some?
    ensures var d := Decide(c, cu, now, st);
            var t := d.retryAfter.value;
            && d.action == Wait && t > now
            && (forall u :: u < t ==> Decide(c, cu, u, st).action == Wait)
            && ((forall u :: u >= t ==> Decide(c, cu, u, st).reason != d.reason) <==> !Renews(c, d.reason))
  {
    var d := Decide(c, cu, now, st);
    if Renews(c, d.reason) {
      assert Decide(c, cu, d.retryAfter.value, st).reason == AwaitingBankRetry;
    }
  }

  /** Such a case has no creation time, counts as brand new whenever it is read, and
      waits on the bank at every instant. */
  lemma UnflushedCaseWaitsForever(c: Case, cu: Option<Customer>, now: int, st: Settings)
    requires c.createdAt.None? && Decide(c, cu, now, st).reason == AwaitingBankRetry
    ensures forall u :: Decide(c, cu, u, st).reason == AwaitingBankRetry
  {
  }

  /** The instant after which no clock-driven wait but the contact window is left. */
  function QuietFrom(c: Case, cu: Customer, now: int, st: Settings): (t: int)
    ensures t >= now
    ensures c.createdAt.Some? ==> t >= c.createdAt.value + st.bankGraceHours * HOUR
    ensures c.lastAttemptAt.Some? ==> t >= c.lastAttemptAt.value + st.retryBackoffHours * HOUR
    ensures cu.lastContactedAt.Some? ==> t >= QuietUntil(cu.lastContactedAt.value, st)
  {
    var a := if c.createdAt.Some? then Max(now, GraceExpiresAt(c, now, st)) else now;
    var b := if c.lastAttemptAt.Some? then Max(a, c.lastAttemptAt.value + st.retryBackoffHours * HOUR) else a;
    if cu.lastContactedAt.Some? then Max(b, QuietUntil(cu.lastContactedAt.value, st)) else b
  }

  /** The first instant from `from` on whose local hour starts the hour `h`, or
      `from` itself when it already lies in that hour. */
  function NextInHour(from: int, h: int, st: Settings): (t: int)
    requires 0 <= h < 24
    ensures from <= t < from + DAY && LocalHour(t, st) == h
  {
    var off := (from + st.zoneOffset) % DAY;
    if off / HOUR == h then from
    else
      var t := from + (h * HOUR - off) % DAY;
      assert LocalHour(t, st) == h by {
        var q := (from + st.zoneOffset) / DAY;
        assert from + st.zoneOffset == q * DAY + off;
        if off <= h * HOUR {
          assert (h * HOUR - off) % DAY == h * HOUR - off;
          assert t + st.zoneOffset == q * DAY + h * HOUR;
        } else {
          assert (h * HOUR - off) % DAY == h * HOUR - off + DAY;
          assert t + st.zoneOffset == (q + 1) * DAY + h * HOUR;
        }
        assert (t + st.zoneOffset) % DAY == h * HOUR;
      }
      t
  }

  ghost predicate WindowOpensSomeHour(st: Settings) {
    exists h :: 0 <= h < 24 && OpenHour(h, st)
  }

  /** No wait is permanent, exactly when the contact window contains an hour: a
      case that the policy does not close and whose wait does not renew itself is acted
      upon within a day of the last of its grace, its backoff and its customer's quiet
      period; and if the window contains no hour, nothing is ever acted upon. */
  lemma NoWaitIsPermanent(c: Case, cu: Customer, now: int, st: Settings)
    requires !Renews(c, Decide(c, Some(cu), now, st).reason)
    requires StopReason(c, Some(cu), st).None?
    ensures WindowOpensSomeHour(st) ==>
              exists t :: now <= t < QuietFrom(c, cu, now, st) + DAY && Acts(Decide(c, Some(cu), t, st))
    ensures !WindowOpensSomeHour(st) ==> forall t :: Decide(c, Some(cu), t, st).action == Wait
  {
    if WindowOpensSomeHour(st) {
      var h :| 0 <= h < 24 && OpenHour(h, st);
      var t := NextInHour(QuietFrom(c, cu, now, st), h, st);
      assert Acts(Decide(c, Some(cu), t, st));
    } else {
      forall t ensures Decide(c, Some(cu), t, st).action == Wait {
        assert !OpenHour(LocalHour(t, st), st);
      }
    }
  }

  // -------------------------------------------------- the promised link fallback

  /** The mandate module says that a case whose charge fails falls back to a
      payment link on a later tick. It does so exactly when the attempt counter
      has moved: a funds case under mandate retry is re-charged at every instant
      it is acted upon while the counter stands at 0, and never afterwards. */
  lemma LinkFallbackNeedsASpentAttempt(c: Case, cu: Option<Customer>, now: int, st: Settings)
    requires st.mandateRetryEnabled && c.cause.CustomerFunds?
    requires Acts(Decide(c, cu, now, st))
    ensures Decide(c, cu, now, st).action == RetryMandate <==> c.attemptCount == 0
  {
  }
}

/**
 * The daily-rollover arithmetic. Times are milliseconds on the local clock,
 * counted from a local midnight, with days of exactly 24 hours; `setHours(4, 0, 0, 0)`
 * on a date is then "the start of that day plus four hours".
 */
module LocalTime {

  const HOUR_MS: int := 60 * 60 * 1000
  const DAY_MS: int := 24 * HOUR_MS
  /** The rollover hour, 04:00, as an offset into the day. */
  const RESET_OFFSET_MS: int := 4 * HOUR_MS

  /** The `k`-th 04:00 boundary on the local clock. */
  function Boundary(k: int): int
  {
    k * DAY_MS + RESET_OFFSET_MS
  }

  /** `d.setHours(4, 0, 0, 0)`: 04:00 on the local date of `t`. */
  function FourAmOf(t: int): (r: int)
    ensures r == Boundary(t / DAY_MS)
    ensures r - RESET_OFFSET_MS <= t < r - RESET_OFFSET_MS + DAY_MS
  {
    (t / DAY_MS) * DAY_MS + RESET_OFFSET_MS
  }

  /** The 04:00 that `setupDailyReset` schedules the `dailyReset` alarm for. */
  function NextFourAm(now: int): (r: int)
    ensures now < r <= now + DAY_MS
    ensures r == Boundary(ResetPeriod(now) + 1)
  {
    var today := FourAmOf(now);
    if today <= now then today + DAY_MS else today
  }

  /** The number of the 04:00-to-04:00 period that `t` falls in. */
  function ResetPeriod(t: int): int
  {
    (t - RESET_OFFSET_MS) / DAY_MS
  }

  /** A boundary is at or before `t` exactly when its number is at most `t`'s period. */
  lemma BoundaryAtOrBefore(k: int, t: int)
    ensures Boundary(k) <= t <==> k <= ResetPeriod(t)
  {
    var p := ResetPeriod(t);
    assert Boundary(p) <= t < Boundary(p + 1);
    if k <= p {
      assert Boundary(k) <= Boundary(p);
    } else {
      assert Boundary(p + 1) <= Boundary(k);
    }
  }

  /** The next boundary after `now` is the first one: none lies strictly between. */
  lemma NextFourAmIsNext(now: int, k: int)
    requires now < Boundary(k)
    ensures NextFourAm(now) <= Boundary(k)
  {
    BoundaryAtOrBefore(k, now);
    assert ResetPeriod(now) + 1 <= k;
  }

  /**
   * `shouldResetToday` as written: it compares the 04:00 of the two local dates,
   * which is the same as comparing the dates themselves.
   */
  function ShouldResetToday(lastReset: int, now: int): (r: bool)
    ensures r <==> now / DAY_MS > lastReset / DAY_MS
  {
    FourAmOf(now) > FourAmOf(lastReset)
  }

  /**
   * Counterexample for the as-written check: a reset at 03:00 and a check at 05:00
   * on the same date straddle the 04:00 boundary, yet no reset is due; a reset at
   * 23:00 and a check at 01:00 the next night straddle none, yet one is due.
   */
  lemma ShouldResetTodayMisplacesBoundary()
    ensures var last, now := 3 * HOUR_MS, 5 * HOUR_MS;
      last < Boundary(0) <= now && !ShouldResetToday(last, now)
    ensures var last, now := 23 * HOUR_MS, DAY_MS + HOUR_MS;
      ShouldResetToday(last, now) && !(exists k :: last < Boundary(k) <= now)
  {
    var last, now := 23 * HOUR_MS, DAY_MS + HOUR_MS;
    forall k ensures !(last < Boundary(k) <= now) {
      if k <= 0 {
        assert Boundary(k) <= Boundary(0);
      } else {
        assert Boundary(1) <= Boundary(k);
      }
    }
  }

  /**
   * The evidently intended check: a reset is due exactly when a 04:00 boundary
   * lies after the last reset and at or before `now`.
   */
  function ResetDue(lastReset: int, now: int): (r: bool)
    ensures r <==> exists k :: lastReset < Boundary(k) <= now
  {
    var p := ResetPeriod(now);
    BoundaryAtOrBefore(p, now);
    BoundaryAtOrBefore(p, lastReset);
    assert (exists k :: lastReset < Boundary(k) <= now) ==> p > ResetPeriod(lastReset) by {
      if k :| lastReset < Boundary(k) <= now {
        BoundaryAtOrBefore(k, now);
        BoundaryAtOrBefore(k, lastReset);
      }
    }
    p > ResetPeriod(lastReset)
  }

  /** A reset stamped at `now` is not due again at `now`, nor before the next 04:00. */
  lemma ResetNotDueAgainBeforeNextBoundary(stamp: int, now: int)
    requires stamp <= now < NextFourAm(stamp)
    ensures !ResetDue(stamp, now)
  {
    if ResetDue(stamp, now) {
      var k :| stamp < Boundary(k) <= now;
      NextFourAmIsNext(stamp, k);
    }
  }
}

/**
 * The pure parts of the popup: its two time formatters, the normalisation of
 * the budget input and of the -5/+5 buttons, the wording of the status line,
 * and the test of whether the active tab is suppressed.
 *
 * Minutes typed into the input are `real`s; `None` stands for the `NaN` that
 * `parseFloat` returns on text that is not a number.
 */
module Popup {
  import opened Wrappers
  import Text
  import Clock
  import Background

  // ---------------------------------------------------------------------------
  // Formatters
  // ---------------------------------------------------------------------------

  /** `formatTime`: minutes, a colon, then the seconds padded to two digits. */
  function FormatTime(seconds: nat): (r: string)
    ensures |r| >= 4 && r[|r| - 3] == ':'
  {
    var minutes := seconds / 60;
    var secs := seconds % 60;
    var m := Text.NatToString(minutes);
    var p := Text.PadStart2(Text.NatToString(secs));
    ColonParts(m, p);
    m + ":" + p
  }

  /** The two sides of `m:p` when `p` has two characters. */
  lemma ColonParts(m: string, p: string)
    requires |p| == 2
    ensures var r := m + ":" + p;
      |r| == |m| + 3 && r[|r| - 3] == ':' && r[..|r| - 3] == m && r[|r| - 2..] == p
  {
    var r := m + ":" + p;
    assert r[..|r| - 3] == m;
    assert r[|r| - 2..] == p;
  }

  /** Reads `m:ss` text back as seconds: a number, a colon, then two digits under 60. */
  function ReadClock(r: string): Option<nat>
  {
    if |r| < 4 || r[|r| - 3] != ':' then None
    else
      match (Clock.Number(r[..|r| - 3]), Clock.TwoDigits(r[|r| - 2..]))
      case (Some(mm), Some(ss)) => if ss < 60 then Some(mm * 60 + ss) else None
      case _ => None
  }

  /** The text reads back as the seconds it shows. */
  lemma FormatTimeDenotes(seconds: nat)
    ensures ReadClock(FormatTime(seconds)) == Some(seconds)
  {
    FormatTimeParts(seconds);
    ColonDenotes(seconds / 60, seconds % 60, seconds);
  }

  /** `formatTime` writes the whole minutes and the padded leftover seconds around a colon. */
  lemma FormatTimeParts(seconds: nat)
    ensures FormatTime(seconds) == Text.NatToString(seconds / 60) + ":" + Text.PadStart2(Text.NatToString(seconds % 60))
  {
  }

  /** Minutes, a colon and two padded digits of seconds read back as their total. */
  lemma ColonDenotes(minutes: nat, secs: nat, total: nat)
    requires secs < 60 && total == minutes * 60 + secs
    ensures ReadClock(Text.NatToString(minutes) + ":" + Text.PadStart2(Text.NatToString(secs))) == Some(total)
  {
    var m := Text.NatToString(minutes);
    var p := Text.PadStart2(Text.NatToString(secs));
    Clock.NumberOfNatToString(minutes);
    Clock.NumberOfPadded(secs);
    ColonSides(m, p, minutes, secs, total);
  }

  /** Digit text `m`, a colon and two digits `p` read back as `m` minutes and `p` seconds. */
  lemma ColonSides(m: string, p: string, a: nat, b: nat, total: nat)
    requires b < 60 && total == a * 60 + b
    requires |p| == 2 && Clock.Number(m) == Some(a) && Clock.TwoDigits(p) == Some(b)
    ensures ReadClock(m + ":" + p) == Some(total)
  {
    ColonParts(m, p);
  }

  const HOUR_MARK: string := "時"

  /**
   * `formatDuration`: whole seconds of `ms` as hours 時, minutes 分 and seconds 秒,
   * leading zero units left out.
   */
  function FormatDuration(ms: nat): (r: string)
    ensures Clock.Parse(r, HOUR_MARK) == Some(ms / 1000)
    ensures HOUR_MARK[0] in r <==> ms / 1000 >= 3600
    ensures Clock.MINUTE_MARK in r <==> ms / 1000 >= 60
    ensures r[|r| - 1] == Clock.SECOND_MARK
  {
    Clock.RenderRoundTrip(ms / 1000, HOUR_MARK);
    Clock.Render(Clock.Split(ms / 1000), HOUR_MARK)
  }

  // ---------------------------------------------------------------------------
  // Budget input
  // ---------------------------------------------------------------------------

  const MIN_MINUTES: int := 5
  const MAX_MINUTES: int := 720
  const MINUTE_STEP: int := 5
  const DEBUG_MIN_MINUTES: real := 0.1

  /** `Math.ceil(v / 5) * 5`. */
  function CeilToStep(v: real): (r: int)
    ensures r % MINUTE_STEP == 0
    ensures v <= r as real < v + MINUTE_STEP as real
  {
    var q := (v / 5.0).Floor;
    if q as real == v / 5.0 then q * 5 else (q + 1) * 5
  }

  /**
   * `handleTimerInput` outside debug mode: not a number or below 5 becomes 5,
   * above 720 becomes 720, anything else is rounded up to a multiple of 5.
   */
  function NormalizeMinutes(v: Option<real>): (r: int)
    ensures MIN_MINUTES <= r <= MAX_MINUTES && r % MINUTE_STEP == 0
    ensures v.None? || v.value < MIN_MINUTES as real ==> r == MIN_MINUTES
    ensures v.Some? && v.value > MAX_MINUTES as real ==> r == MAX_MINUTES
    ensures v.Some? && MIN_MINUTES as real <= v.value <= MAX_MINUTES as real ==>
      v.value <= r as real < v.value + MINUTE_STEP as real
  {
    if v.None? || v.value < 5.0 then 5
    else if v.value > 720.0 then 720
    else CeilToStep(v.value)
  }

  /** Every multiple of 5 in 5..720 is left as it is. */
  lemma NormalizeMultiple(n: int)
    requires MIN_MINUTES <= n <= MAX_MINUTES && n % MINUTE_STEP == 0
    ensures NormalizeMinutes(Some(n as real)) == n
  {
    var k := n / 5;
    assert n as real / 5.0 == k as real;
    assert (n as real / 5.0).Floor == k;
  }

  /** Normalising twice is normalising once. */
  lemma NormalizeIdempotent(v: Option<real>)
    ensures NormalizeMinutes(Some(NormalizeMinutes(v) as real)) == NormalizeMinutes(v)
  {
    NormalizeMultiple(NormalizeMinutes(v));
  }

  /** `handleTimerInput` in debug mode: clamped to 0.1..720 and otherwise sent as typed. */
  function NormalizeDebugMinutes(v: Option<real>): (r: real)
    ensures DEBUG_MIN_MINUTES <= r <= MAX_MINUTES as real
    ensures v.Some? && DEBUG_MIN_MINUTES <= v.value <= MAX_MINUTES as real ==> r == v.value
    ensures v.None? || v.value < DEBUG_MIN_MINUTES ==> r == DEBUG_MIN_MINUTES
    ensures v.Some? && v.value > MAX_MINUTES as real ==> r == MAX_MINUTES as real
  {
    if v.None? || v.value < 0.1 then 0.1
    else if v.value > 720.0 then 720.0
    else v.value
  }

  function MinReal(a: real, b: real): real { if a <= b then a else b }
  function MaxReal(a: real, b: real): real { if a >= b then a else b }

  /**
   * `adjustTimer`: the buttons add `delta` (a tenth of it in debug mode) and clamp
   * to `minValue..720`. `Math.min`/`Math.max` pass a `NaN` through.
   */
  function AdjustMinutes(current: Option<real>, delta: real, debug: bool): (r: Option<real>)
    ensures r.None? <==> current.None?
    ensures r.Some? ==> (if debug then DEBUG_MIN_MINUTES else MIN_MINUTES as real) <= r.value <= MAX_MINUTES as real
    ensures current.Some? ==>
      var next := current.value + (if debug then delta * 0.1 else delta);
      var minValue := if debug then DEBUG_MIN_MINUTES else MIN_MINUTES as real;
      && (minValue <= next <= MAX_MINUTES as real ==> r == Some(next))
      && (next > MAX_MINUTES as real ==> r == Some(MAX_MINUTES as real))
      && (next < minValue ==> r == Some(minValue))
  {
    var minValue := if debug then 0.1 else 5.0;
    var step := if debug then delta * 0.1 else delta;
    if current.None? then None
    else Some(MaxReal(minValue, MinReal(720.0, current.value + step)))
  }

  /** Outside debug mode the -5/+5 buttons keep a normalised value normalised. */
  lemma AdjustKeepsNormalized(current: int, delta: real)
    requires MIN_MINUTES <= current <= MAX_MINUTES && current % MINUTE_STEP == 0
    requires delta == 5.0 || delta == -5.0
    ensures var r := AdjustMinutes(Some(current as real), delta, false);
      r.Some? && NormalizeMinutes(r) as real == r.value
  {
    var next := if delta == 5.0 then (if current == 720 then 720 else current + 5)
                else (if current == 5 then 5 else current - 5);
    assert AdjustMinutes(Some(current as real), delta, false) == Some(next as real);
    NormalizeMultiple(next);
  }

  // ---------------------------------------------------------------------------
  // Status line
  // ---------------------------------------------------------------------------

  /**
   * `isCurrentTabTempDisabled`: a tab is active and the suppression list in the
   * status is an array holding its id. A value that is not an array counts as
   * empty.
   */
  function IsCurrentTabTempDisabled(activeTab: Option<Background.TabId>, list: Background.WireValue): (r: bool)
    ensures r ==> activeTab.Some? && list.WireArray?
    ensures activeTab.Some? && list.WireArray? ==> (r <==> activeTab.value in list.items)
  {
    if activeTab.Some? && !list.WireAbsent? then
      var disabledTabs := if list.WireArray? then list.items else [];
      activeTab.value in disabledTabs
    else false
  }

  datatype Label =
    | AlwaysOff
    | TodayOff
    | TabOff
    | Remaining(text: string)
    | Expired
    | Stopped

  /**
   * The status line `updateUI` writes for a `getStatus` response: the first
   * of always-off, today-off, tab suppressed, running with time left, time up,
   * and stopped that applies.
   */
  function StatusLabel(status: Background.Response, now: int, activeTab: Option<Background.TabId>,
                       list: Background.WireValue): (r: Label)
    requires status.Status?
    ensures r == AlwaysOff <==> status.settings.isTimerAlwaysDisabled
    ensures r == TodayOff <==>
      !status.settings.isTimerAlwaysDisabled && Background.TodayOff(status.settings, now)
    ensures r == TabOff <==>
      && !status.settings.isTimerAlwaysDisabled && !Background.TodayOff(status.settings, now)
      && IsCurrentTabTempDisabled(activeTab, list)
    ensures r.Remaining? ==> status.isRunning && status.remainingTime > 0 && r.text == FormatTime(status.remainingTime)
    ensures r == Expired ==> status.remainingTime <= 0
    ensures r == Stopped ==> !status.isRunning && status.remainingTime > 0
    ensures (!status.settings.isTimerAlwaysDisabled && !Background.TodayOff(status.settings, now)
             && !IsCurrentTabTempDisabled(activeTab, list)) ==>
      (r.Remaining? || r == Expired || r == Stopped)
  {
    var settings := status.settings;
    if settings.isTimerAlwaysDisabled then AlwaysOff
    else if settings.todayOffUntil.Some? && now < settings.todayOffUntil.value then TodayOff
    else if IsCurrentTabTempDisabled(activeTab, list) then TabOff
    else if status.isRunning && status.remainingTime > 0 then Remaining(FormatTime(status.remainingTime))
    else if status.remainingTime <= 0 then Expired
    else Stopped
  }

  /**
   * The status line with the suppression list as it arrives over the message
   * channel: the popup never says the active tab is suppressed, even when it is.
   */
  function PopupLabelAsWritten(status: Background.Response, now: int, activeTab: Option<Background.TabId>): (r: Label)
    requires status.Status?
    ensures r != TabOff
  {
    StatusLabel(status, now, activeTab, Background.SuppressionOnWire(status.settings.tempDisableForTab))
  }

  /**
   * The status line with the suppression list sent as an array: the tab-off line
   * shows exactly when the active tab is suppressed and the timer is not off for
   * good or for today.
   */
  function PopupLabel(status: Background.Response, now: int, activeTab: Option<Background.TabId>): (r: Label)
    requires status.Status?
    ensures r == TabOff <==>
      && !status.settings.isTimerAlwaysDisabled && !Background.TodayOff(status.settings, now)
      && activeTab.Some? && activeTab.value in status.settings.tempDisableForTab
  {
    StatusLabel(status, now, activeTab, Background.SuppressionOnWireFixed(status.settings.tempDisableForTab))
  }

  /** A concrete case: tab 5 is suppressed and active, yet the status line is not the tab-off one. */
  lemma SuppressedTabShownAsRunning()
    ensures var s := Background.DEFAULT_SETTINGS.(tempDisableForTab := [5]);
      var status := Background.Status(true, 60, s, 0);
      && PopupLabel(status, 0, Some(5)) == TabOff
      && PopupLabelAsWritten(status, 0, Some(5)) == Remaining(FormatTime(60))
  {
  }

  /** Whenever the popup reports the timer off for good or for today, the background will not start it. */
  lemma OffLabelsAgreeWithGuard(s: Background.Settings, t: Background.TimerState, now: int,
                                activeTab: Option<Background.TabId>)
    requires PopupLabel(Background.TimerStatus(s, t, now), now, activeTab) in {AlwaysOff, TodayOff}
    ensures !Background.ShouldStartTimer(s, t, now)
  {
  }

  /**
   * For a running timer with at least a second of budget left and nothing
   * switched off, the popup shows the remaining time, and the text reads back
   * as the whole seconds remaining.
   */
  lemma RunningTimerShowsRemaining(s: Background.Settings, t: Background.TimerState, now: int,
                                   activeTab: Option<Background.TabId>)
    requires Background.Consistent(t) && t.isRunning
    requires Background.ViewTime(t, now) + 1000 <= s.timerMs
    requires !s.isTimerAlwaysDisabled && !Background.TodayOff(s, now)
    requires activeTab.None? || activeTab.value !in s.tempDisableForTab
    ensures var status := Background.TimerStatus(s, t, now);
      && PopupLabel(status, now, activeTab) == Remaining(FormatTime(status.remainingTime))
      && status.remainingTime * 1000 <= s.timerMs - Background.ViewTime(t, now) < status.remainingTime * 1000 + 1000
  {
    var status := Background.TimerStatus(s, t, now);
    assert status.remainingTime >= 1;
  }

  /** Once the budget is used up, a timer that has run shows as expired. */
  lemma UsedBudgetShowsExpired(s: Background.Settings, t: Background.TimerState, now: int,
                               activeTab: Option<Background.TabId>)
    requires Background.Consistent(t) && (t.isRunning || t.elapsedTime > 0)
    requires s.timerMs < Background.ViewTime(t, now) + 1000
    requires !s.isTimerAlwaysDisabled && !Background.TodayOff(s, now)
    requires activeTab.None? || activeTab.value !in s.tempDisableForTab
    ensures PopupLabel(Background.TimerStatus(s, t, now), now, activeTab) == Expired
  {
    var status := Background.TimerStatus(s, t, now);
    assert status.remainingTime <= 0;
  }
}

/**
 * The background coordinator of the extension: the viewing timer, the set of
 * tabs showing Shorts, the per-tab suppression, the daily statistics with
 * their 04:00 rollover, and the message gateway used by the popup and the
 * lock screen.
 *
 * Chrome is replaced by fields and parameters: `now` is the clock reading in
 * milliseconds, the `shortsTimer` and `dailyReset` alarms are fields holding
 * the time they are scheduled for, `chrome.storage.local` is the field
 * `storage`, and the lock-screen injections and tab redirects are appended, in
 * order, to `effects`. Each handler runs to completion before the next.
 */
module Background {
  import opened Wrappers
  import opened JsSet
  import Text
  import LocalTime

  type TabId = int

  const SHORTS_PATTERN: string := "youtube.com/shorts/"
  const HOME_URL: string := "https://www.youtube.com/"
  const MINUTE_MS: int := 60 * 1000

  const SHORTS_TIMER_ALARM: string := "shortsTimer"
  const DAILY_RESET_ALARM: string := "dailyReset"

  const LOCK: string := "lock"
  const REDIRECT: string := "redirect"

  const UNKNOWN_MESSAGE: string := "Unknown message type"
  /** The error text a `TypeError` thrown inside the gateway is answered with. */
  const TYPE_ERROR: string := "TypeError"

  // ---------------------------------------------------------------------------
  // Records
  // ---------------------------------------------------------------------------

  datatype DailyStats = DailyStats(totalViewTime: int, extensionCount: int, lastResetDate: Option<int>)

  /**
   * `currentSettings`. The budget is kept in milliseconds (`timerMinutes * 60 * 1000`),
   * which is exact for the popup's 0.1-minute debug steps as well.
   */
  datatype Settings = Settings(
    timerMs: int,
    actionOnTimeout: string,
    isTimerAlwaysDisabled: bool,
    todayOffUntil: Option<int>,
    tempDisableForTab: seq<TabId>,
    dailyStats: DailyStats)

  const DEFAULT_SETTINGS: Settings :=
    Settings(20 * MINUTE_MS, LOCK, false, None, [], DailyStats(0, 0, None))

  /** `timerState`. */
  datatype TimerState = TimerState(
    isRunning: bool,
    startTime: Option<int>,
    elapsedTime: int,
    activeShortsTabs: seq<TabId>)

  const INITIAL_TIMER: TimerState := TimerState(false, None, 0, [])

  /** The timer runs exactly when a session start time is recorded. */
  predicate Consistent(t: TimerState)
  {
    t.isRunning <==> t.startTime.Some?
  }

  /** A Chrome call made on a tab. */
  datatype Effect =
    | InjectLockScreen(tab: TabId)
    | Navigate(tab: TabId, url: string)

  // ---------------------------------------------------------------------------
  // Persistence: saveSettings / loadSettings
  // ---------------------------------------------------------------------------

  /** What `chrome.storage.local` holds under each settings key; a key may be absent. */
  datatype Stored = Stored(
    timerMs: Option<int>,
    actionOnTimeout: Option<string>,
    isTimerAlwaysDisabled: Option<bool>,
    todayOffUntil: Option<Option<int>>,
    tempDisableForTab: Option<seq<TabId>>,
    dailyStats: Option<DailyStats>)

  const EMPTY_STORAGE: Stored := Stored(None, None, None, None, None, None)

  /** `saveSettings`: every key is written, the suppression Set as an array in insertion order. */
  function Saved(s: Settings): (st: Stored)
    ensures st.timerMs == Some(s.timerMs) && st.actionOnTimeout == Some(s.actionOnTimeout)
    ensures st.isTimerAlwaysDisabled == Some(s.isTimerAlwaysDisabled)
    ensures st.todayOffUntil == Some(s.todayOffUntil) && st.dailyStats == Some(s.dailyStats)
    ensures st.tempDisableForTab == Some(s.tempDisableForTab)
  {
    Stored(Some(s.timerMs), Some(s.actionOnTimeout), Some(s.isTimerAlwaysDisabled),
           Some(s.todayOffUntil), Some(s.tempDisableForTab), Some(s.dailyStats))
  }

  function OrElse<T>(o: Option<T>, default: T): T
  {
    if o.Some? then o.value else default
  }

  /**
   * `loadSettings`: the stored keys over the defaults, with the stored array
   * turned back into a Set.
   */
  function Loaded(st: Stored): (s: Settings)
    ensures NoDup(s.tempDisableForTab)
    ensures s.timerMs == OrElse(st.timerMs, DEFAULT_SETTINGS.timerMs)
    ensures s.actionOnTimeout == OrElse(st.actionOnTimeout, DEFAULT_SETTINGS.actionOnTimeout)
    ensures s.isTimerAlwaysDisabled == OrElse(st.isTimerAlwaysDisabled, DEFAULT_SETTINGS.isTimerAlwaysDisabled)
    ensures s.todayOffUntil == OrElse(st.todayOffUntil, DEFAULT_SETTINGS.todayOffUntil)
    ensures s.dailyStats == OrElse(st.dailyStats, DEFAULT_SETTINGS.dailyStats)
    ensures st.tempDisableForTab.None? ==> s.tempDisableForTab == []
    ensures st.tempDisableForTab.Some? ==>
      forall tab :: tab in s.tempDisableForTab <==> tab in st.tempDisableForTab.value
    ensures st.tempDisableForTab.Some? && NoDup(st.tempDisableForTab.value) ==>
      s.tempDisableForTab == st.tempDisableForTab.value
    ensures st == EMPTY_STORAGE ==> s == DEFAULT_SETTINGS
  {
    var tabs := if st.tempDisableForTab.Some? then FromArray(st.tempDisableForTab.value)
                else DEFAULT_SETTINGS.tempDisableForTab;
    assert st.tempDisableForTab.Some? && NoDup(st.tempDisableForTab.value) ==>
      tabs == st.tempDisableForTab.value by {
      if st.tempDisableForTab.Some? && NoDup(st.tempDisableForTab.value) {
        FromArrayOfNoDup(st.tempDisableForTab.value);
      }
    }
    Settings(
      OrElse(st.timerMs, DEFAULT_SETTINGS.timerMs),
      OrElse(st.actionOnTimeout, DEFAULT_SETTINGS.actionOnTimeout),
      OrElse(st.isTimerAlwaysDisabled, DEFAULT_SETTINGS.isTimerAlwaysDisabled),
      OrElse(st.todayOffUntil, DEFAULT_SETTINGS.todayOffUntil),
      tabs,
      OrElse(st.dailyStats, DEFAULT_SETTINGS.dailyStats))
  }

  /** Loading what was saved gives back the settings, suppressed tabs in the same order. */
  lemma LoadSaveRoundTrip(s: Settings)
    requires NoDup(s.tempDisableForTab)
    ensures Loaded(Saved(s)) == s
  {
    FromArrayOfNoDup(s.tempDisableForTab);
  }

  // ---------------------------------------------------------------------------
  // Guards and timer arithmetic
  // ---------------------------------------------------------------------------

  /** `isYouTubeShorts`: a URL is present and contains `youtube.com/shorts/`. */
  function IsYouTubeShorts(url: Option<string>): (r: bool)
    ensures r <==> url.Some? && exists i :: Text.OccursAt(url.value, SHORTS_PATTERN, i)
  {
    url.Some? && Text.Includes(url.value, SHORTS_PATTERN)
  }

  /** `todayOffUntil` is set and still in the future. */
  predicate TodayOff(s: Settings, now: int)
  {
    s.todayOffUntil.Some? && now < s.todayOffUntil.value
  }

  /**
   * The first tracked tab is suppressed. A tab id is read with JavaScript
   * truthiness, so a tab id 0 is never treated as suppressed.
   */
  predicate FirstTabSuppressed(s: Settings, t: TimerState)
  {
    var first := First(t.activeShortsTabs);
    first.Some? && first.value != 0 && first.value in s.tempDisableForTab
  }

  /** `shouldStartTimer`. */
  function ShouldStartTimer(s: Settings, t: TimerState, now: int): (r: bool)
    ensures r <==>
      && !s.isTimerAlwaysDisabled
      && !TodayOff(s, now)
      && !FirstTabSuppressed(s, t)
      && |t.activeShortsTabs| > 0
      && !t.isRunning
  {
    if s.isTimerAlwaysDisabled then false
    else if s.todayOffUntil.Some? && now < s.todayOffUntil.value then false
    else
      var activeTab := First(t.activeShortsTabs);
      if activeTab.Some? && activeTab.value != 0 && activeTab.value in s.tempDisableForTab then false
      else |t.activeShortsTabs| > 0 && !t.isRunning
  }

  /** Viewing time of the current budget cycle: the folded time plus the running session. */
  function ViewTime(t: TimerState, now: int): (v: int)
    ensures t.startTime.None? ==> v == t.elapsedTime
    ensures t.startTime.Some? && t.startTime.value <= now ==> v >= t.elapsedTime
  {
    t.elapsedTime + (if t.startTime.Some? then now - t.startTime.value else 0)
  }

  /** While the timer runs, its view time grows with the clock; otherwise it stands still. */
  lemma ViewTimeAdvance(t: TimerState, from: int, to: int)
    requires Consistent(t)
    ensures ViewTime(t, to) == ViewTime(t, from) + (if t.isRunning then to - from else 0)
  {
  }

  /** The state `startTimer` leaves: a stopped timer starts a session at `now`. */
  function StartedTimer(t: TimerState, now: int): (r: TimerState)
    ensures r.isRunning && r.activeShortsTabs == t.activeShortsTabs
    ensures Consistent(t) ==> Consistent(r) && ViewTime(r, now) == ViewTime(t, now)
    ensures t.isRunning ==> r == t
  {
    if t.isRunning then t else t.(isRunning := true, startTime := Some(now))
  }

  /** The state `pauseTimer` leaves: the running session is folded into `elapsedTime`. */
  function PausedTimer(t: TimerState, now: int): (r: TimerState)
    ensures !r.isRunning && r.activeShortsTabs == t.activeShortsTabs
    ensures Consistent(t) ==> Consistent(r) && ViewTime(r, now) == ViewTime(t, now)
    ensures !t.isRunning ==> r == t
  {
    if !t.isRunning then t
    else if t.startTime.Some? then
      t.(isRunning := false, elapsedTime := t.elapsedTime + (now - t.startTime.value), startTime := None)
    else t.(isRunning := false)
  }

  /** The state `resetTimer` leaves: a stopped timer with nothing viewed, same tabs. */
  function ResetTimerState(t: TimerState): (r: TimerState)
    ensures Consistent(r) && !r.isRunning && r.activeShortsTabs == t.activeShortsTabs
    ensures forall now :: ViewTime(r, now) == 0
  {
    TimerState(false, None, 0, t.activeShortsTabs)
  }

  /**
   * When the `shortsTimer` alarm is due if the timer starts at `now`: the instant
   * the started timer's view time reaches the budget.
   */
  function ExpiryTime(s: Settings, t: TimerState, now: int): (due: int)
    ensures Consistent(t) && !t.isRunning ==> ViewTime(StartedTimer(t, now), due) == s.timerMs
  {
    now + (s.timerMs - t.elapsedTime)
  }

  /** `start` at `t0` then `pause` at `t1` folds exactly `t1 - t0` into the elapsed time. */
  lemma StartThenPause(t: TimerState, t0: int, t1: int)
    requires Consistent(t) && !t.isRunning
    ensures PausedTimer(StartedTimer(t, t0), t1).elapsedTime == t.elapsedTime + (t1 - t0)
    ensures PausedTimer(StartedTimer(t, t0), t1).activeShortsTabs == t.activeShortsTabs
  {
  }

  /** Pausing twice is pausing once; starting twice is starting once. */
  lemma PauseAndStartIdempotent(t: TimerState, a: int, b: int)
    ensures PausedTimer(PausedTimer(t, a), b) == PausedTimer(t, a)
    ensures StartedTimer(StartedTimer(t, a), b) == StartedTimer(t, a)
  {
  }

  // ---------------------------------------------------------------------------
  // Conservation of viewing time over start/pause sequences
  // ---------------------------------------------------------------------------

  datatype TimerEvent = StartAt(time: int) | PauseAt(time: int)

  function Apply(t: TimerState, e: TimerEvent): TimerState
  {
    match e
    case StartAt(time) => StartedTimer(t, time)
    case PauseAt(time) => PausedTimer(t, time)
  }

  function Replay(t: TimerState, evs: seq<TimerEvent>): TimerState
    decreases |evs|
  {
    if evs == [] then t else Replay(Apply(t, evs[0]), evs[1..])
  }

  function LastTime(evs: seq<TimerEvent>, from: int): int
  {
    if evs == [] then from else evs[|evs| - 1].time
  }

  /**
   * The wall-clock time spent running, measured from `from`: after a start the
   * timer is running and after a pause it is not, whatever it was before.
   */
  function RunningTime(evs: seq<TimerEvent>, running: bool, from: int): int
    decreases |evs|
  {
    if evs == [] then 0
    else (if running then evs[0].time - from else 0)
         + RunningTime(evs[1..], evs[0].StartAt?, evs[0].time)
  }

  /**
   * Conservation: after any sequence of starts and pauses the view time has
   * grown by exactly the wall-clock time the timer was running.
   */
  lemma {:induction false} ViewTimeConserved(t: TimerState, evs: seq<TimerEvent>, from: int)
    requires Consistent(t)
    ensures ViewTime(Replay(t, evs), LastTime(evs, from))
            == ViewTime(t, from) + RunningTime(evs, t.isRunning, from)
    decreases |evs|
  {
    if evs != [] {
      var e := evs[0];
      var t1 := Apply(t, e);
      ViewTimeAdvance(t, from, e.time);
      assert ViewTime(t1, e.time) == ViewTime(t, e.time);
      assert t1.isRunning == e.StartAt?;
      ViewTimeConserved(t1, evs[1..], e.time);
      assert LastTime(evs[1..], e.time) == LastTime(evs, from);
    }
  }

  // ---------------------------------------------------------------------------
  // Queries answered by the gateway
  // ---------------------------------------------------------------------------

  function Max(a: int, b: int): int { if a < b then b else a }

  /** `q` is `Math.floor(ms / 1000)`. */
  predicate WholeSeconds(q: int, ms: int)
  {
    q * 1000 <= ms < q * 1000 + 1000
  }

  datatype Category = Gentle | Warning | Strict

  /** `getLockScreenData`'s choice of message category by the day's extension count. */
  function CategoryFor(extensionCount: int): (c: Category)
    ensures c == Gentle <==> extensionCount <= 4
    ensures c == Warning <==> 5 <= extensionCount <= 9
    ensures c == Strict <==> 10 <= extensionCount
  {
    if extensionCount <= 4 then Gentle
    else if extensionCount <= 9 then Warning
    else Strict
  }

  function Severity(c: Category): nat
  {
    match c
    case Gentle => 0
    case Warning => 1
    case Strict => 2
  }

  /** More extensions never pick a gentler category. */
  lemma CategoryMonotone(a: int, b: int)
    requires a <= b
    ensures Severity(CategoryFor(a)) <= Severity(CategoryFor(b))
  {
  }

  /** `Array.prototype.slice(from, to)` with both ends clamped to the length. */
  function Slice(lines: seq<string>, from: nat, to: nat): seq<string>
    requires from <= to
  {
    var a := if from < |lines| then from else |lines|;
    var b := if to < |lines| then to else |lines|;
    lines[a..b]
  }

  /**
   * `loadMessages` once `messages.txt` has been split into its non-blank lines:
   * lines 1-5 are gentle, 6-10 warning, 11-15 strict.
   */
  function MessagesFromLines(lines: seq<string>): (m: map<Category, seq<string>>)
    ensures m.Keys == {Gentle, Warning, Strict}
    ensures |m[Gentle]| <= 5 && |m[Warning]| <= 5 && |m[Strict]| <= 5
    ensures m[Gentle] + m[Warning] + m[Strict] == lines[..if |lines| < 15 then |lines| else 15]
    ensures |m[Warning]| > 0 ==> |m[Gentle]| == 5
    ensures |m[Strict]| > 0 ==> |m[Warning]| == 5
  {
    map[Gentle := Slice(lines, 0, 5), Warning := Slice(lines, 5, 10), Strict := Slice(lines, 10, 15)]
  }

  /** The built-in messages `loadMessages` falls back to when `messages.txt` cannot be read. */
  const FALLBACK_MESSAGES: map<Category, seq<string>> := map[
    Gentle := ["少し休憩しませんか？"],
    Warning := ["集中しすぎかも？一度リフレッシュしましょう"],
    Strict := ["さすがに見過ぎでは…？一度YouTubeを閉じましょう！"]]

  /**
   * `loadMessages`: `fetched` is the text of `messages.txt`, or `None` when
   * fetching or reading it fails. Every category is always present.
   */
  function LoadMessages(fetched: Option<string>): (m: map<Category, seq<string>>)
    ensures m.Keys == {Gentle, Warning, Strict}
    ensures fetched.None? ==> m == FALLBACK_MESSAGES
    ensures fetched.Some? ==> forall c, line :: c in m && line in m[c] ==>
      !Text.IsBlank(line) && line in Text.SplitOn(fetched.value, '\n')
    ensures fetched.Some? ==>
      var lines := Text.NonBlank(Text.SplitOn(fetched.value, '\n'));
      && m[Gentle] + m[Warning] + m[Strict] == lines[..if |lines| < 15 then |lines| else 15]
      && |m[Gentle]| <= 5 && |m[Warning]| <= 5 && |m[Strict]| <= 5
      && (|m[Warning]| > 0 ==> |m[Gentle]| == 5)
      && (|m[Strict]| > 0 ==> |m[Warning]| == 5)
  {
    if fetched.None? then FALLBACK_MESSAGES
    else MessagesFromLines(Text.NonBlank(Text.SplitOn(fetched.value, '\n')))
  }

  /**
   * `messages[category] || messages.gentle`: a category falls back to the gentle
   * list only when it is missing (an empty list is truthy and is kept).
   */
  function CategoryMessages(messages: map<Category, seq<string>>, c: Category): (r: Option<seq<string>>)
    ensures r.Some? <==> c in messages || Gentle in messages
    ensures c in messages ==> r == Some(messages[c])
    ensures c !in messages && Gentle in messages ==> r == Some(messages[Gentle])
  {
    if c in messages then Some(messages[c])
    else if Gentle in messages then Some(messages[Gentle])
    else None
  }

  /**
   * With the messages `loadMessages` returns, a category never falls back to the
   * gentle list: even an empty category is used as it is.
   */
  lemma LoadedMessagesUseOwnCategory(fetched: Option<string>, c: Category)
    ensures CategoryMessages(LoadMessages(fetched), c) == Some(LoadMessages(fetched)[c])
  {
  }

  datatype Response =
    | Status(isRunning: bool, remainingTime: int, settings: Settings, dailyViewTime: int)
    | Success
    | LockScreenData(message: Option<string>, currentViewTime: int, dailyViewTime: int, extensionCount: int)
    | Error(error: string)

  /** `getTimerStatus`: remaining whole seconds of the budget; reads the state only. */
  function TimerStatus(s: Settings, t: TimerState, now: int): (r: Response)
    ensures r.Status? && r.isRunning == t.isRunning && r.settings == s
    ensures r.dailyViewTime == s.dailyStats.totalViewTime
    ensures Consistent(t) && (t.isRunning || t.elapsedTime > 0) ==>
      WholeSeconds(r.remainingTime, Max(0, s.timerMs - ViewTime(t, now)))
    ensures !t.isRunning && t.elapsedTime <= 0 ==> WholeSeconds(r.remainingTime, s.timerMs)
    ensures Consistent(t) && 0 <= ViewTime(t, now) && 0 <= s.timerMs ==>
      0 <= r.remainingTime && r.remainingTime * 1000 <= s.timerMs
  {
    var totalTime := s.timerMs;
    var remaining :=
      if t.isRunning && t.startTime.Some? then
        Max(0, totalTime - (t.elapsedTime + (now - t.startTime.value)))
      else if !t.isRunning && t.elapsedTime > 0 then
        Max(0, totalTime - t.elapsedTime)
      else
        totalTime;
    Status(t.isRunning, remaining / 1000, s, s.dailyStats.totalViewTime)
  }

  /**
   * `getLockScreenData`, with the loaded messages and the random draw as
   * parameters: `roll` stands for `Math.random()`, and picks entry
   * `roll % length`. An empty list yields no message (`undefined`); a map with
   * neither the category nor the gentle list makes the code throw, which the
   * gateway answers with an error.
   */
  function LockData(s: Settings, t: TimerState, now: int,
                    messages: map<Category, seq<string>>, roll: nat): (r: Response)
    ensures r.LockScreenData? || r.Error?
    ensures r.LockScreenData? <==> CategoryMessages(messages, CategoryFor(s.dailyStats.extensionCount)).Some?
    ensures r.LockScreenData? ==>
      var list := CategoryMessages(messages, CategoryFor(s.dailyStats.extensionCount)).value;
      && (r.message.Some? <==> |list| > 0)
      && (r.message.Some? ==> r.message.value in list)
      && WholeSeconds(r.currentViewTime, ViewTime(t, now))
      && WholeSeconds(r.dailyViewTime, s.dailyStats.totalViewTime)
      && r.extensionCount == s.dailyStats.extensionCount
  {
    var extensionCount := s.dailyStats.extensionCount;
    var category := CategoryFor(extensionCount);
    match CategoryMessages(messages, category)
    case None => Error(TYPE_ERROR)
    case Some(list) =>
      var message := if |list| == 0 then None else Some(list[roll % |list|]);
      var currentViewTime := t.elapsedTime + (if t.startTime.Some? then now - t.startTime.value else 0);
      LockScreenData(message, currentViewTime / 1000, s.dailyStats.totalViewTime / 1000, extensionCount)
  }

  // ---------------------------------------------------------------------------
  // Expiry actions, settings updates, daily reset
  // ---------------------------------------------------------------------------

  function LockEffects(tabs: seq<TabId>): (r: seq<Effect>)
    ensures |r| == |tabs| && forall i :: 0 <= i < |tabs| ==> r[i] == InjectLockScreen(tabs[i])
  {
    seq(|tabs|, i requires 0 <= i < |tabs| => InjectLockScreen(tabs[i]))
  }

  function RedirectEffects(tabs: seq<TabId>): (r: seq<Effect>)
    ensures |r| == |tabs| && forall i :: 0 <= i < |tabs| ==> r[i] == Navigate(tabs[i], HOME_URL)
  {
    seq(|tabs|, i requires 0 <= i < |tabs| => Navigate(tabs[i], HOME_URL))
  }

  /**
   * What expiry does to the tracked tabs: the action is read from the settings at
   * expiry; `lock` injects the lock screen, `redirect` navigates home, and any
   * other value does neither.
   */
  function ActionEffects(action: string, tabs: seq<TabId>): (r: seq<Effect>)
    ensures |r| == (if action == LOCK || action == REDIRECT then |tabs| else 0)
    ensures forall e :: e in r ==> e.tab in tabs
    ensures forall e :: e in r ==> (e.InjectLockScreen? <==> action == LOCK)
    ensures forall e :: e in r ==> (e.Navigate? <==> action == REDIRECT) && (e.Navigate? ==> e.url == HOME_URL)
  {
    if action == LOCK then LockEffects(tabs)
    else if action == REDIRECT then RedirectEffects(tabs)
    else []
  }

  /** The fields of an `updateSettings` message that the popup sends; absent fields are `None`. */
  datatype Patch = Patch(
    timerMs: Option<int>,
    actionOnTimeout: Option<string>,
    isTimerAlwaysDisabled: Option<bool>,
    todayOffUntil: Option<Option<int>>)

  const NO_PATCH: Patch := Patch(None, None, None, None)

  /** `Object.assign(currentSettings, patch)`: supplied fields replace, the rest stay. */
  function ApplyPatch(s: Settings, p: Patch): (r: Settings)
    ensures r.tempDisableForTab == s.tempDisableForTab && r.dailyStats == s.dailyStats
    ensures r.timerMs == OrElse(p.timerMs, s.timerMs)
    ensures r.actionOnTimeout == OrElse(p.actionOnTimeout, s.actionOnTimeout)
    ensures r.isTimerAlwaysDisabled == OrElse(p.isTimerAlwaysDisabled, s.isTimerAlwaysDisabled)
    ensures r.todayOffUntil == OrElse(p.todayOffUntil, s.todayOffUntil)
    ensures p == NO_PATCH ==> r == s
  {
    Settings(
      if p.timerMs.Some? then p.timerMs.value else s.timerMs,
      if p.actionOnTimeout.Some? then p.actionOnTimeout.value else s.actionOnTimeout,
      if p.isTimerAlwaysDisabled.Some? then p.isTimerAlwaysDisabled.value else s.isTimerAlwaysDisabled,
      if p.todayOffUntil.Some? then p.todayOffUntil.value else s.todayOffUntil,
      s.tempDisableForTab,
      s.dailyStats)
  }

  /** The settings `performDailyReset` leaves. */
  function DailyReset(s: Settings, now: int): (r: Settings)
    ensures r.dailyStats == DailyStats(0, 0, Some(now))
    ensures r.todayOffUntil == if s.todayOffUntil.Some? && s.todayOffUntil.value < now then None
                               else s.todayOffUntil
    ensures r.(dailyStats := s.dailyStats, todayOffUntil := s.todayOffUntil) == s
  {
    var reset := s.(dailyStats := DailyStats(0, 0, Some(now)));
    if reset.todayOffUntil.Some? && reset.todayOffUntil.value < now then reset.(todayOffUntil := None)
    else reset
  }

  /**
   * `checkDailyReset`'s condition as written: never reset yet, or
   * `shouldResetToday`, which asks whether the local date has changed.
   */
  function DailyResetDue(s: Settings, now: int): (due: bool)
    ensures due <==> (s.dailyStats.lastResetDate.None? ||
                      now / LocalTime.DAY_MS > s.dailyStats.lastResetDate.value / LocalTime.DAY_MS)
  {
    s.dailyStats.lastResetDate.None? || LocalTime.ShouldResetToday(s.dailyStats.lastResetDate.value, now)
  }

  /** As written, once reset at `now`, no further reset is due until the next midnight. */
  lemma DailyResetSettlesAsWritten(s: Settings, now: int, later: int)
    requires now <= later < (now / LocalTime.DAY_MS + 1) * LocalTime.DAY_MS
    ensures !DailyResetDue(DailyReset(s, now), later)
  {
    var q := now / LocalTime.DAY_MS;
    assert q * LocalTime.DAY_MS <= later < (q + 1) * LocalTime.DAY_MS;
    assert later / LocalTime.DAY_MS == q;
  }

  /**
   * The corrected condition: never reset yet, or a 04:00 boundary has passed
   * since the last reset.
   */
  function DailyResetDueFixed(s: Settings, now: int): (due: bool)
    ensures due <==> (s.dailyStats.lastResetDate.None? ||
                      exists k :: s.dailyStats.lastResetDate.value < LocalTime.Boundary(k) <= now)
  {
    s.dailyStats.lastResetDate.None? || LocalTime.ResetDue(s.dailyStats.lastResetDate.value, now)
  }

  /** With the corrected condition, once reset at `now`, no further reset is due until the next 04:00. */
  lemma DailyResetSettles(s: Settings, now: int, later: int)
    requires now <= later < LocalTime.NextFourAm(now)
    ensures !DailyResetDueFixed(DailyReset(s, now), later)
  {
    LocalTime.ResetNotDueAgainBeforeNextBoundary(now, later);
  }

  /**
   * A suppressed first tab keeps the timer from starting however often tabs are
   * re-tracked, because adding to a Set never changes its first element.
   */
  lemma SuppressionSurvivesRetracking(s: Settings, t: TimerState, tabId: TabId, now: int)
    requires FirstTabSuppressed(s, t)
    ensures !ShouldStartTimer(s, t.(activeShortsTabs := Add(t.activeShortsTabs, tabId)), now)
  {
    AddKeepsFirst(t.activeShortsTabs, tabId);
  }

  /** The budget cycle `extendTimer` grants: one budget's worth is taken off, never below 0. */
  function ExtendedTimer(t: TimerState, budget: int): (r: TimerState)
    ensures r.elapsedTime >= 0
    ensures r.elapsedTime == if t.elapsedTime >= budget then t.elapsedTime - budget else 0
    ensures r.(elapsedTime := t.elapsedTime) == t
  {
    t.(elapsedTime := Max(0, t.elapsedTime - budget))
  }

  /**
   * How `settings.tempDisableForTab` reaches the popup inside a `getStatus`
   * response. Chrome's message channel serialises responses as JSON, and a Set
   * has no enumerable properties, so it arrives as an empty object.
   */
  datatype WireValue = WireAbsent | WireArray(items: seq<TabId>) | WireObject

  /** As written: the live Set is sent. */
  function SuppressionOnWire(tabs: seq<TabId>): (w: WireValue)
    ensures w.WireObject?
  {
    WireObject
  }

  /** Corrected: the Set is sent as an array, as `saveSettings` already does for storage. */
  function SuppressionOnWireFixed(tabs: seq<TabId>): (w: WireValue)
    ensures w.WireArray? && forall tab :: tab in w.items <==> tab in tabs
  {
    WireArray(tabs)
  }

  // ---------------------------------------------------------------------------
  // The coordinator
  // ---------------------------------------------------------------------------

  class Extension {
    var currentSettings: Settings
    var timerState: TimerState
    /** `chrome.storage.local`. */
    var storage: Stored
    /** When the `shortsTimer` alarm will fire, if scheduled. */
    var shortsTimerAlarm: Option<int>
    /** When the periodic `dailyReset` alarm next fires, if scheduled. */
    var dailyResetAlarm: Option<int>
    /** Lock-screen injections and redirects performed, in order. */
    var effects: seq<Effect>

    ghost predicate Valid()
      reads this
    {
      && Consistent(timerState)
      && (timerState.startTime.Some? ==> timerState.startTime.value > 0)
      && (shortsTimerAlarm.Some? <==> timerState.isRunning)
      && NoDup(timerState.activeShortsTabs)
      && NoDup(currentSettings.tempDisableForTab)
    }

    /** The state of a freshly loaded background script, over what storage already holds. */
    constructor (stored: Stored)
      ensures Valid()
      ensures currentSettings == DEFAULT_SETTINGS && timerState == INITIAL_TIMER
      ensures storage == stored && shortsTimerAlarm.None? && dailyResetAlarm.None? && effects == []
    {
      currentSettings := DEFAULT_SETTINGS;
      timerState := INITIAL_TIMER;
      storage := stored;
      shortsTimerAlarm := None;
      dailyResetAlarm := None;
      effects := [];
    }

    method SaveSettings()
      modifies this`storage
      ensures storage == Saved(currentSettings)
    {
      storage := Saved(currentSettings);
    }

    method LoadSettings()
      requires Valid()
      modifies this`currentSettings
      ensures Valid()
      ensures currentSettings == Loaded(storage)
    {
      currentSettings := Loaded(storage);
    }

    /** `initializeSettings`: load over the defaults, then write every key back. */
    method InitializeSettings()
      requires Valid()
      modifies this`currentSettings, this`storage
      ensures Valid()
      ensures currentSettings == Loaded(old(storage)) && storage == Saved(currentSettings)
    {
      LoadSettings();
      SaveSettings();
    }

    /** `onInstalled`. */
    method OnInstalled(now: int)
      requires Valid()
      modifies this
      ensures Valid()
      ensures currentSettings == Loaded(old(storage)) && storage == Saved(currentSettings)
      ensures dailyResetAlarm == Some(LocalTime.NextFourAm(now))
      ensures timerState == old(timerState) && shortsTimerAlarm == old(shortsTimerAlarm)
      ensures effects == old(effects)
    {
      InitializeSettings();
      SetupDailyReset(now);
    }

    /** `onStartup`: load, reset the day's statistics if due, schedule the next 04:00. */
    method OnStartup(now: int)
      requires Valid()
      modifies this
      ensures Valid()
      ensures var loaded := Loaded(old(storage));
        && currentSettings == (if DailyResetDue(loaded, now) then DailyReset(loaded, now) else loaded)
        && storage == (if DailyResetDue(loaded, now) then Saved(currentSettings) else old(storage))
      ensures dailyResetAlarm == Some(LocalTime.NextFourAm(now))
      ensures timerState == old(timerState) && shortsTimerAlarm == old(shortsTimerAlarm)
      ensures effects == old(effects)
    {
      LoadSettings();
      CheckDailyReset(now);
      SetupDailyReset(now);
    }

    /** `startTimer`: a no-op while running. */
    method StartTimer(now: int)
      requires Valid() && now > 0
      modifies this`timerState, this`shortsTimerAlarm
      ensures Valid()
      ensures timerState == StartedTimer(old(timerState), now)
      ensures shortsTimerAlarm ==
        if old(timerState.isRunning) then old(shortsTimerAlarm)
        else Some(ExpiryTime(currentSettings, old(timerState), now))
    {
      if timerState.isRunning {
        return;
      }
      timerState := timerState.(isRunning := true, startTime := Some(now));
      var remainingTime := currentSettings.timerMs - timerState.elapsedTime;
      shortsTimerAlarm := Some(now + remainingTime);
    }

    /** `pauseTimer`: a no-op while stopped. */
    method PauseTimer(now: int)
      requires Valid()
      modifies this`timerState, this`shortsTimerAlarm
      ensures Valid()
      ensures timerState == PausedTimer(old(timerState), now)
      ensures shortsTimerAlarm.None?
    {
      if !timerState.isRunning {
        return;
      }
      timerState := timerState.(isRunning := false);
      if timerState.startTime.Some? {
        timerState := timerState.(elapsedTime := timerState.elapsedTime + (now - timerState.startTime.value),
                                  startTime := None);
      }
      shortsTimerAlarm := None;
    }

    /** `resetTimer`. */
    method ResetTimer()
      requires Valid()
      modifies this`timerState, this`shortsTimerAlarm
      ensures Valid()
      ensures timerState == ResetTimerState(old(timerState)) && shortsTimerAlarm.None?
    {
      timerState := timerState.(isRunning := false, startTime := None, elapsedTime := 0);
      shortsTimerAlarm := None;
    }

    /** `startTimerIfNeeded`. */
    method StartTimerIfNeeded(now: int)
      requires Valid() && now > 0
      modifies this`timerState, this`shortsTimerAlarm
      ensures Valid()
      ensures var go := ShouldStartTimer(currentSettings, old(timerState), now);
        && timerState == (if go then StartedTimer(old(timerState), now) else old(timerState))
        && shortsTimerAlarm ==
           (if go then Some(ExpiryTime(currentSettings, old(timerState), now)) else old(shortsTimerAlarm))
    {
      if ShouldStartTimer(currentSettings, timerState, now) {
        StartTimer(now);
      }
    }

    /** A tab shows Shorts: track it and start the timer if the guard allows. */
    method TrackTab(tabId: TabId, now: int)
      requires Valid() && now > 0
      modifies this`timerState, this`shortsTimerAlarm
      ensures Valid()
      ensures var t1 := old(timerState).(activeShortsTabs := Add(old(timerState.activeShortsTabs), tabId));
        var go := ShouldStartTimer(currentSettings, t1, now);
        && timerState == (if go then StartedTimer(t1, now) else t1)
        && shortsTimerAlarm == (if go then Some(ExpiryTime(currentSettings, t1, now)) else old(shortsTimerAlarm))
    {
      timerState := timerState.(activeShortsTabs := Add(timerState.activeShortsTabs, tabId));
      StartTimerIfNeeded(now);
    }

    /** A tab left Shorts or closed: forget it everywhere, pause once no tab is tracked. */
    method UntrackTab(tabId: TabId, now: int)
      requires Valid()
      modifies this`timerState, this`shortsTimerAlarm, this`currentSettings, this`storage
      ensures Valid()
      ensures currentSettings == old(currentSettings).(tempDisableForTab :=
                Delete(old(currentSettings.tempDisableForTab), tabId))
      ensures storage == Saved(currentSettings)
      ensures var t1 := old(timerState).(activeShortsTabs := Delete(old(timerState.activeShortsTabs), tabId));
        && timerState == (if |t1.activeShortsTabs| == 0 then PausedTimer(t1, now) else t1)
        && shortsTimerAlarm == (if |t1.activeShortsTabs| == 0 then None else old(shortsTimerAlarm))
    {
      timerState := timerState.(activeShortsTabs := Delete(timerState.activeShortsTabs, tabId));
      currentSettings := currentSettings.(tempDisableForTab := Delete(currentSettings.tempDisableForTab, tabId));
      SaveSettings();
      if |timerState.activeShortsTabs| == 0 {
        PauseTimer(now);
      }
    }

    /** `handleTabUpdate`: a tab finished loading `url`. */
    method HandleTabUpdate(tabId: TabId, url: Option<string>, now: int)
      requires Valid() && now > 0
      modifies this
      ensures Valid()
      ensures IsYouTubeShorts(url) ==>
        && currentSettings == old(currentSettings) && storage == old(storage)
        && (var t1 := old(timerState).(activeShortsTabs := Add(old(timerState.activeShortsTabs), tabId));
            var go := ShouldStartTimer(currentSettings, t1, now);
            && timerState == (if go then StartedTimer(t1, now) else t1)
            && shortsTimerAlarm == (if go then Some(ExpiryTime(currentSettings, t1, now)) else old(shortsTimerAlarm)))
      ensures !IsYouTubeShorts(url) ==>
        && timerState.activeShortsTabs == Delete(old(timerState.activeShortsTabs), tabId)
        && currentSettings == old(currentSettings).(tempDisableForTab :=
             Delete(old(currentSettings.tempDisableForTab), tabId))
        && storage == Saved(currentSettings)
        && timerState == (if |timerState.activeShortsTabs| == 0
                          then PausedTimer(old(timerState), now).(activeShortsTabs := [])
                          else old(timerState).(activeShortsTabs := timerState.activeShortsTabs))
        && shortsTimerAlarm == (if |timerState.activeShortsTabs| == 0 then None else old(shortsTimerAlarm))
      ensures effects == old(effects) && dailyResetAlarm == old(dailyResetAlarm)
    {
      if IsYouTubeShorts(url) {
        TrackTab(tabId, now);
      } else {
        UntrackTab(tabId, now);
      }
    }

    /** `handleTabActivation`: only a Shorts URL has an effect. */
    method HandleTabActivation(tabId: TabId, url: Option<string>, now: int)
      requires Valid() && now > 0
      modifies this
      ensures Valid()
      ensures IsYouTubeShorts(url) ==>
        && currentSettings == old(currentSettings) && storage == old(storage)
        && (var t1 := old(timerState).(activeShortsTabs := Add(old(timerState.activeShortsTabs), tabId));
            var go := ShouldStartTimer(currentSettings, t1, now);
            && timerState == (if go then StartedTimer(t1, now) else t1)
            && shortsTimerAlarm == (if go then Some(ExpiryTime(currentSettings, t1, now)) else old(shortsTimerAlarm)))
      ensures !IsYouTubeShorts(url) ==>
        && timerState == old(timerState) && shortsTimerAlarm == old(shortsTimerAlarm)
        && currentSettings == old(currentSettings) && storage == old(storage)
      ensures effects == old(effects) && dailyResetAlarm == old(dailyResetAlarm)
    {
      if IsYouTubeShorts(url) {
        TrackTab(tabId, now);
      }
    }

    /** `handleTabRemoved`. */
    method HandleTabRemoved(tabId: TabId, now: int)
      requires Valid()
      modifies this
      ensures Valid()
      ensures tabId !in timerState.activeShortsTabs && tabId !in currentSettings.tempDisableForTab
      ensures timerState.activeShortsTabs == Delete(old(timerState.activeShortsTabs), tabId)
      ensures currentSettings == old(currentSettings).(tempDisableForTab :=
                Delete(old(currentSettings.tempDisableForTab), tabId))
      ensures storage == Saved(currentSettings)
      ensures |timerState.activeShortsTabs| == 0 ==>
        timerState == PausedTimer(old(timerState), now).(activeShortsTabs := [])
      ensures |timerState.activeShortsTabs| > 0 ==>
        timerState == old(timerState).(activeShortsTabs := timerState.activeShortsTabs)
        && shortsTimerAlarm == old(shortsTimerAlarm)
      ensures effects == old(effects) && dailyResetAlarm == old(dailyResetAlarm)
    {
      UntrackTab(tabId, now);
    }

    /** `showLockScreen`: inject the lock screen into every tracked tab. */
    method ShowLockScreen()
      modifies this`effects
      ensures effects == old(effects) + LockEffects(timerState.activeShortsTabs)
    {
      var activeTabs := timerState.activeShortsTabs;
      for i := 0 to |activeTabs|
        invariant effects == old(effects) + LockEffects(activeTabs[..i])
      {
        assert activeTabs[..i + 1] == activeTabs[..i] + [activeTabs[i]];
        effects := effects + [InjectLockScreen(activeTabs[i])];
      }
      assert activeTabs[..|activeTabs|] == activeTabs;
    }

    /** `redirectToYouTubeHome`: navigate every tracked tab to the YouTube home page. */
    method RedirectToYouTubeHome()
      modifies this`effects
      ensures effects == old(effects) + RedirectEffects(timerState.activeShortsTabs)
    {
      var activeTabs := timerState.activeShortsTabs;
      for i := 0 to |activeTabs|
        invariant effects == old(effects) + RedirectEffects(activeTabs[..i])
      {
        assert activeTabs[..i + 1] == activeTabs[..i] + [activeTabs[i]];
        effects := effects + [Navigate(activeTabs[i], HOME_URL)];
      }
      assert activeTabs[..|activeTabs|] == activeTabs;
    }

    /**
     * `handleTimerExpired`: credit the cycle's view time to the day, run the
     * configured action, reset the timer; the tracked tabs stay.
     */
    method HandleTimerExpired(now: int)
      requires Valid()
      modifies this
      ensures Valid()
      ensures currentSettings == old(currentSettings).(dailyStats := old(currentSettings.dailyStats).(
                totalViewTime := old(currentSettings.dailyStats.totalViewTime) + ViewTime(old(timerState), now)))
      ensures storage == Saved(currentSettings)
      ensures effects == old(effects) +
        ActionEffects(old(currentSettings.actionOnTimeout), old(timerState.activeShortsTabs))
      ensures timerState == ResetTimerState(old(timerState)) && shortsTimerAlarm.None?
      ensures dailyResetAlarm == old(dailyResetAlarm)
    {
      var totalViewTime := timerState.elapsedTime +
        (if timerState.startTime.Some? then now - timerState.startTime.value else 0);
      currentSettings := currentSettings.(dailyStats := currentSettings.dailyStats.(
        totalViewTime := currentSettings.dailyStats.totalViewTime + totalViewTime));
      SaveSettings();
      if currentSettings.actionOnTimeout == LOCK {
        ShowLockScreen();
      } else if currentSettings.actionOnTimeout == REDIRECT {
        RedirectToYouTubeHome();
      }
      ResetTimer();
    }

    /** `setupDailyReset`: the `dailyReset` alarm first fires at the next 04:00, then daily. */
    method SetupDailyReset(now: int)
      modifies this`dailyResetAlarm
      ensures dailyResetAlarm == Some(LocalTime.NextFourAm(now))
    {
      var next4AM := LocalTime.FourAmOf(now);
      if next4AM <= now {
        next4AM := next4AM + LocalTime.DAY_MS;
      }
      dailyResetAlarm := Some(next4AM);
    }

    /** `performDailyReset`: the timer itself is left alone. */
    method PerformDailyReset(now: int)
      requires Valid()
      modifies this`currentSettings, this`storage
      ensures Valid()
      ensures currentSettings == DailyReset(old(currentSettings), now)
      ensures storage == Saved(currentSettings)
    {
      currentSettings := currentSettings.(dailyStats := DailyStats(0, 0, Some(now)));
      if currentSettings.todayOffUntil.Some? && currentSettings.todayOffUntil.value < now {
        currentSettings := currentSettings.(todayOffUntil := None);
      }
      SaveSettings();
    }

    /** `checkDailyReset`, with `shouldResetToday` as written. */
    method CheckDailyReset(now: int)
      requires Valid()
      modifies this`currentSettings, this`storage
      ensures Valid()
      ensures DailyResetDue(old(currentSettings), now) ==>
        currentSettings == DailyReset(old(currentSettings), now) && storage == Saved(currentSettings)
      ensures !DailyResetDue(old(currentSettings), now) ==>
        currentSettings == old(currentSettings) && storage == old(storage)
    {
      var lastReset := currentSettings.dailyStats.lastResetDate;
      if lastReset.None? || LocalTime.ShouldResetToday(lastReset.value, now) {
        PerformDailyReset(now);
      }
    }

    /**
     * The alarm listener. `name` is the alarm that fired; Chrome moves the
     * periodic `dailyReset` alarm on by its period, one day, as it fires.
     */
    method HandleAlarm(name: string, now: int)
      requires Valid()
      modifies this
      ensures Valid()
      ensures name == SHORTS_TIMER_ALARM ==>
        && currentSettings == old(currentSettings).(dailyStats := old(currentSettings.dailyStats).(
             totalViewTime := old(currentSettings.dailyStats.totalViewTime) + ViewTime(old(timerState), now)))
        && storage == Saved(currentSettings)
        && effects == old(effects) +
             ActionEffects(old(currentSettings.actionOnTimeout), old(timerState.activeShortsTabs))
        && timerState == ResetTimerState(old(timerState)) && shortsTimerAlarm.None?
        && dailyResetAlarm == old(dailyResetAlarm)
      ensures name == DAILY_RESET_ALARM ==>
        && currentSettings == DailyReset(old(currentSettings), now)
        && storage == Saved(currentSettings)
        && timerState == old(timerState) && shortsTimerAlarm == old(shortsTimerAlarm)
        && effects == old(effects)
        && dailyResetAlarm == (if old(dailyResetAlarm).Some?
                               then Some(old(dailyResetAlarm).value + LocalTime.DAY_MS) else None)
      ensures name != SHORTS_TIMER_ALARM && name != DAILY_RESET_ALARM ==> unchanged(this)
    {
      if name == SHORTS_TIMER_ALARM {
        HandleTimerExpired(now);
      } else if name == DAILY_RESET_ALARM {
        if dailyResetAlarm.Some? {
          dailyResetAlarm := Some(dailyResetAlarm.value + LocalTime.DAY_MS);
        }
        PerformDailyReset(now);
      }
    }

    /**
     * `extendTimer`: one more extension today, one budget taken off the
     * elapsed time, the alarm rescheduled only if the timer runs.
     */
    method ExtendTimer(now: int)
      requires Valid()
      modifies this`currentSettings, this`storage, this`timerState, this`shortsTimerAlarm
      ensures Valid()
      ensures currentSettings == old(currentSettings).(dailyStats := old(currentSettings.dailyStats).(
                extensionCount := old(currentSettings.dailyStats.extensionCount) + 1))
      ensures storage == Saved(currentSettings)
      ensures timerState == ExtendedTimer(old(timerState), currentSettings.timerMs)
      ensures shortsTimerAlarm ==
        if timerState.isRunning then Some(now + (currentSettings.timerMs - timerState.elapsedTime))
        else None
    {
      currentSettings := currentSettings.(dailyStats := currentSettings.dailyStats.(
        extensionCount := currentSettings.dailyStats.extensionCount + 1));
      SaveSettings();
      var extensionTime := currentSettings.timerMs;
      timerState := timerState.(elapsedTime := Max(0, timerState.elapsedTime - extensionTime));
      if timerState.isRunning {
        var remainingTime := currentSettings.timerMs - timerState.elapsedTime;
        shortsTimerAlarm := Some(now + remainingTime);
      }
    }

    /** The `tempDisableForTab` request: suppress the first tracked tab and pause. */
    method TempDisableFirstTab(now: int)
      requires Valid()
      modifies this`currentSettings, this`storage, this`timerState, this`shortsTimerAlarm
      ensures Valid()
      ensures var first := First(old(timerState.activeShortsTabs));
        if first.Some? && first.value != 0 then
          && currentSettings == old(currentSettings).(tempDisableForTab :=
               Add(old(currentSettings.tempDisableForTab), first.value))
          && storage == Saved(currentSettings)
          && timerState == PausedTimer(old(timerState), now)
          && shortsTimerAlarm.None?
        else
          && currentSettings == old(currentSettings) && storage == old(storage)
          && timerState == old(timerState) && shortsTimerAlarm == old(shortsTimerAlarm)
    {
      var activeTab := First(timerState.activeShortsTabs);
      if activeTab.Some? && activeTab.value != 0 {
        currentSettings := currentSettings.(tempDisableForTab := Add(currentSettings.tempDisableForTab, activeTab.value));
        SaveSettings();
        PauseTimer(now);
      }
    }

    /**
     * `handleMessage`. `fetched` is what reading `messages.txt` gives and `roll`
     * the random draw; both are only used by `getLockScreenData`.
     */
    method HandleMessage(kind: string, patch: Patch, now: int,
                         fetched: Option<string>, roll: nat) returns (response: Response)
      requires Valid()
      modifies this
      ensures Valid()
      ensures kind == "getStatus" ==>
        response == TimerStatus(old(currentSettings), old(timerState), now) && unchanged(this)
      ensures kind == "updateSettings" ==>
        && response == Success
        && currentSettings == ApplyPatch(old(currentSettings), patch)
        && storage == Saved(currentSettings)
        && timerState == old(timerState) && shortsTimerAlarm == old(shortsTimerAlarm)
        && dailyResetAlarm == old(dailyResetAlarm) && effects == old(effects)
      ensures kind == "extendTimer" ==>
        && response == Success
        && currentSettings == old(currentSettings).(dailyStats := old(currentSettings.dailyStats).(
             extensionCount := old(currentSettings.dailyStats.extensionCount) + 1))
        && storage == Saved(currentSettings)
        && timerState == ExtendedTimer(old(timerState), currentSettings.timerMs)
        && shortsTimerAlarm ==
           (if timerState.isRunning then Some(now + (currentSettings.timerMs - timerState.elapsedTime)) else None)
        && dailyResetAlarm == old(dailyResetAlarm) && effects == old(effects)
      ensures kind == "goToYouTubeHome" ==>
        && response == Success
        && effects == old(effects) + RedirectEffects(old(timerState.activeShortsTabs))
        && currentSettings == old(currentSettings) && storage == old(storage)
        && timerState == old(timerState) && shortsTimerAlarm == old(shortsTimerAlarm)
        && dailyResetAlarm == old(dailyResetAlarm)
      ensures kind == "tempDisableForTab" ==>
        && response == Success
        && (var first := First(old(timerState.activeShortsTabs));
            if first.Some? && first.value != 0 then
              && currentSettings == old(currentSettings).(tempDisableForTab :=
                   Add(old(currentSettings.tempDisableForTab), first.value))
              && FirstTabSuppressed(currentSettings, timerState)
              && storage == Saved(currentSettings)
              && timerState == PausedTimer(old(timerState), now)
              && shortsTimerAlarm.None?
            else
              && currentSettings == old(currentSettings) && storage == old(storage)
              && timerState == old(timerState) && shortsTimerAlarm == old(shortsTimerAlarm))
        && dailyResetAlarm == old(dailyResetAlarm) && effects == old(effects)
      ensures kind == "getLockScreenData" ==>
        && response == LockData(old(currentSettings), old(timerState), now, LoadMessages(fetched), roll)
        && response.LockScreenData? && unchanged(this)
      ensures kind !in {"getStatus", "updateSettings", "extendTimer", "goToYouTubeHome",
                        "tempDisableForTab", "getLockScreenData"} ==>
        response == Error(UNKNOWN_MESSAGE) && unchanged(this)
    {
      if kind == "getStatus" {
        response := TimerStatus(currentSettings, timerState, now);
      } else if kind == "updateSettings" {
        currentSettings := ApplyPatch(currentSettings, patch);
        SaveSettings();
        response := Success;
      } else if kind == "extendTimer" {
        ExtendTimer(now);
        response := Success;
      } else if kind == "goToYouTubeHome" {
        RedirectToYouTubeHome();
        response := Success;
      } else if kind == "tempDisableForTab" {
        TempDisableFirstTab(now);
        response := Success;
      } else if kind == "getLockScreenData" {
        var messages := LoadMessages(fetched);
        response := LockData(currentSettings, timerState, now, messages, roll);
      } else {
        response := Error(UNKNOWN_MESSAGE);
      }
    }
  }

  // ---------------------------------------------------------------------------
  // Scenarios
  // ---------------------------------------------------------------------------

  /**
   * Five-minute budget with redirect: two minutes on Shorts, away, back for
   * three more minutes, then expiry sends the tab home and the cycle restarts
   * from zero without counting an extension.
   */
  method RedirectScenario()
  {
    var shorts := "https://www." + SHORTS_PATTERN + "abc";
    assert shorts[12..31] == SHORTS_PATTERN;
    assert Text.OccursAt(shorts, SHORTS_PATTERN, 12);
    var elsewhere := "chrome://newtab/";

    var ext := new Extension(EMPTY_STORAGE);
    ext.OnInstalled(1000);
    assert ext.currentSettings == DEFAULT_SETTINGS;
    var r := ext.HandleMessage("updateSettings", Patch(Some(5 * MINUTE_MS), Some(REDIRECT), None, None), 1000, None, 0);
    assert ext.currentSettings.timerMs == 5 * MINUTE_MS;

    var t0 := 10_000;
    ext.HandleTabUpdate(7, Some(shorts), t0);
    assert ext.timerState.activeShortsTabs == [7] && ext.timerState.isRunning;
    assert ext.currentSettings.timerMs == 5 * MINUTE_MS;

    var t1 := t0 + 2 * MINUTE_MS;
    ext.HandleTabUpdate(7, Some(elsewhere), t1);
    assert !ext.timerState.isRunning && ext.timerState.elapsedTime == 2 * MINUTE_MS;
    assert ext.currentSettings.actionOnTimeout == REDIRECT;

    assert ext.timerState.activeShortsTabs == [] && ext.currentSettings.tempDisableForTab == [];
    assert ext.currentSettings.todayOffUntil.None? && !ext.currentSettings.isTimerAlwaysDisabled;
    assert ext.currentSettings.timerMs == 5 * MINUTE_MS;
    ext.HandleTabActivation(7, Some(shorts), t1);
    assert ext.timerState.isRunning && ext.shortsTimerAlarm == Some(t1 + 3 * MINUTE_MS);

    var t2 := t1 + 3 * MINUTE_MS;
    ext.HandleAlarm(SHORTS_TIMER_ALARM, t2);
    assert ext.effects == [Navigate(7, HOME_URL)];
    assert ext.timerState.elapsedTime == 0 && !ext.timerState.isRunning;
    assert ext.currentSettings.dailyStats.totalViewTime == 5 * MINUTE_MS;
    assert ext.currentSettings.dailyStats.extensionCount == 0;
  }

  /** Seven extensions today select the warning messages. */
  method WarningScenario()
  {
    var ext := new Extension(EMPTY_STORAGE.(dailyStats := Some(DailyStats(0, 7, None))));
    ext.LoadSettings();
    var r := ext.HandleMessage("getLockScreenData", NO_PATCH, 1000, None, 0);
    assert r.extensionCount == 7;
    assert r.message == Some("集中しすぎかも？一度リフレッシュしましょう");
  }

  /** Suppressing the tab pauses the timer, and activating that tab again does not restart it. */
  method SuppressionScenario()
  {
    var shorts := "https://www." + SHORTS_PATTERN + "abc";
    assert shorts[12..31] == SHORTS_PATTERN;
    assert Text.OccursAt(shorts, SHORTS_PATTERN, 12);
    var ext := new Extension(EMPTY_STORAGE);
    ext.HandleTabUpdate(3, Some(shorts), 1000);
    assert ext.timerState.isRunning;
    var r := ext.HandleMessage("tempDisableForTab", NO_PATCH, 2000, None, 0);
    assert !ext.timerState.isRunning && ext.timerState.elapsedTime == 1000;
    ext.HandleTabActivation(3, Some(shorts), 3000);
    assert !ext.timerState.isRunning;
  }

  /** A second check on the same day after a reset leaves the statistics alone. */
  method DailyResetScenario()
  {
    var ext := new Extension(EMPTY_STORAGE);
    var now := 10 * LocalTime.DAY_MS + 9 * LocalTime.HOUR_MS;
    ext.CheckDailyReset(now);
    assert ext.currentSettings.dailyStats == DailyStats(0, 0, Some(now));
    var r := ext.HandleMessage("extendTimer", NO_PATCH, now + 1, None, 0);
    var stats := ext.currentSettings.dailyStats;
    DailyResetSettlesAsWritten(DEFAULT_SETTINGS, now, now + LocalTime.HOUR_MS);
    ext.CheckDailyReset(now + LocalTime.HOUR_MS);
    assert ext.currentSettings.dailyStats == stats;
  }
}

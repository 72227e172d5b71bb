# YouTube Shorts Blocker — a verified model of the viewing timer

The extension times how long a user watches YouTube Shorts. Once a configurable
budget (20 minutes by default) is used up, it either locks the Shorts tabs behind
an overlay or sends them to the YouTube home page. The budget can be extended from
the lock screen. The timer can be switched off for good, until tomorrow 04:00, or
for one tab. Viewing time and extensions are counted per day, and the count starts
again at 04:00.

This project models, in Dafny:

- **`Background`** (`background.dfy`) — the state machine in `background.js`, as
  the class `Extension`. It holds:
  - the settings (`currentSettings`) and the timer (`timerState`);
  - `chrome.storage.local`, the two alarms, and a log of the lock-screen
    injections and redirects.

  Every handler is a method whose contract gives the whole new state in terms of
  specification functions of the old state: `StartedTimer`, `PausedTimer`,
  `ResetTimerState`, `ExtendedTimer`, `DailyReset`, `ApplyPatch`, `Saved`,
  `Loaded`. Lemmas then prove what those functions promise:
  - start and pause conserve viewing time;
  - start and pause are idempotent;
  - an alarm set at start fires exactly when the budget is used up;
  - saving and loading round-trip the settings;
  - as written, a daily reset is not repeated on the same local date; with the
    corrected check, not before the next 04:00;
  - a suppressed first tab stays suppressed when tabs are re-tracked;
  - more extensions never pick a gentler message category.

  The file also has scenario methods: the five-minute redirect walk-through,
  seven extensions selecting the warning messages, suppression, and a repeated
  daily check.
- **`Popup`** (`popup.dfy`) — the pure parts of `popup.js`:
  - `formatTime` and `formatDuration`;
  - normalisation of the budget input and of the −5/+5 buttons;
  - the priority order of the status line;
  - the test of whether the active tab is suppressed.
- **`LockScreen`** (`lockscreen.dfy`) — the pure parts of `lock_screen.js`:
  `formatTime`, the keyboard filter, and the extension-count line.
- Support modules:
  - `JsSet` (`jsset.dfy`): a JavaScript `Set` as a duplicate-free sequence in
    insertion order. "The first tracked tab" is `Array.from(set)[0]`, so the
    order matters.
  - `LocalTime` (`localtime.dfy`): the 04:00 arithmetic.
  - `Clock` (`clock.dfy`): the shared hours/minutes/seconds rendering, with a
    reader that proves the rendering can be read back.
  - `Text` (`text.dfy`): decimal rendering, `includes`, `padStart`, `split`,
    `trim`.
  - `Wrappers` (`wrappers.dfy`): `Option`.

Conventions:
- Times are integer milliseconds on the local clock. The clock reading `now` is a
  parameter of every handler and is positive, as `Date.now()` is.
- The budget `timerMinutes` is held as `timerMs = timerMinutes * 60 * 1000`. This
  is exact for whole minutes and for the 0.1-minute debug steps alike.
- Handlers run one at a time, each to completion.

Behaviour of the code that the model keeps as written (no change intended):

- `extendTimer` on a running timer subtracts one budget from `elapsedTime` only.
  The time already spent in the running session is ignored when it reschedules
  the alarm, so the alarm can fire later than the remaining time the popup shows.
  After expiry, `elapsedTime` is already 0, so an extension only increments the
  count.
- The start guard looks only at the first tracked tab. Suppressing a tab that is
  not first does not stop the timer from starting.
- Tab id 0 is falsy. It is never treated as suppressed and can never be suppressed.
- The daily reset clears the statistics and a past `todayOffUntil`. It does not
  touch the running timer.

## Model

| member | source | states |
|---|---|---|
| Text.Includes | background.js:60-62 | `s.includes(p)` holds exactly when some position of `s` starts an occurrence of `p` |
| Text.NatToString | popup.js:191-197 | `${n}` of a whole number is a non-empty run of decimal digits with no leading zero (it starts with 0 only for 0 itself), one digit below 10 and two below 100 |
| Text.ParseNatToString | popup.js:191-197 | the decimal text of `n` reads back as `n` |
| Text.PadStart2 | popup.js:182 | `padStart(2, '0')`: the result is the text with leading zeros in front; texts shorter than 2 come out with length 2, longer ones unchanged |
| Text.SplitOn | background.js:385 | `split('\n')` gives at least one piece, and no piece contains the separator |
| Text.JoinSplitOn | background.js:385 | joining the pieces of `split` with the separator gives the text back |
| Text.NonBlank | background.js:385 | `filter(line => line.trim())` keeps exactly the lines with a non-white-space character; a single line is kept exactly when it is not blank |
| Text.NonBlankAppend | background.js:385 | the filter works line by line and keeps the order: filtering a concatenation is the concatenation of the filtered parts |
| Text.TrimStart | background.js:385 | `trimStart` leaves a suffix that starts with a visible character (or is empty) and drops only white space |
| Text.TrimEnd | background.js:385 | `trimEnd` leaves a prefix that ends with a visible character (or is empty) and drops only white space |
| Text.Trim | background.js:385 | `trim` gives the slice of the text left once the white space and line terminators at both ends are cut off: only such characters lie around it, and it neither starts nor ends with one |
| Text.TrimEmptyIffBlank | background.js:385 | `line.trim()` is the empty, falsy string exactly when every character of the line is white space or a line terminator |
| JsSet.Add | background.js:81 | `Set.add` adds the element, keeps the set duplicate-free, and appends only a new element |
| JsSet.Delete | background.js:84 | `Set.delete` removes exactly that element, keeps the others, leaves a set without it unchanged, and keeps the first element unless it was removed |
| JsSet.DeleteAt | background.js:84 | deleting a member of a duplicate-free set cuts it out at its place: the elements before and after it keep their order |
| JsSet.First | background.js:124 | `Array.from(set)[0]` is defined exactly when the set is non-empty, and is the element inserted first |
| JsSet.FromArray | background.js:49-51 | `new Set(array)` is duplicate-free with the same members as the array |
| JsSet.FromArrayOfNoDup | background.js:54-58 | a Set saved as an array and rebuilt is the same Set, in the same order |
| JsSet.AddKeepsFirst | background.js:124-127 | adding to a non-empty Set never changes its first element |
| LocalTime.FourAmOf | background.js:216-217 | `setHours(4, 0, 0, 0)` gives 04:00 of the same local date |
| LocalTime.NextFourAm | background.js:214-221 | the `dailyReset` alarm is scheduled after `now`, at most one day later, on a 04:00 boundary |
| LocalTime.NextFourAmIsNext | background.js:214-221 | no 04:00 boundary lies between `now` and the scheduled one |
| LocalTime.ShouldResetToday | background.js:236-244 | as written, a reset is due exactly when the local calendar date has advanced |
| LocalTime.ShouldResetTodayMisplacesBoundary | background.js:236-244 | 03:00→05:00 crosses 04:00 but gets no reset; 23:00→01:00 crosses none but gets one |
| LocalTime.ResetDue | background.js:231 | the corrected check is due exactly when a 04:00 boundary lies after the last reset and at or before now |
| LocalTime.ResetNotDueAgainBeforeNextBoundary | background.js:246-253 | after a reset stamped at `stamp`, none is due again before the next 04:00 |
| Clock.Split | popup.js:186-189 | hours, minutes and seconds with minutes and seconds below 60 recompose to the total |
| Clock.Render | popup.js:191-197 | the text ends in 秒, has 分 exactly when there are hours or minutes, and has the hour unit exactly when there are hours; the digits are fixed by `Clock.RenderRoundTrip` |
| Clock.RenderRoundTrip | lock_screen.js:285-297 | the rendered duration reads back as the number of seconds it was made from, under a reader that accepts only numbers without leading zeros, minutes and seconds below 60, no zero hours and no zero minutes without hours |
| Clock.ParseRefusesOtherForms | lock_screen.js:285-297 | that reader refuses `1分65秒`, `05秒` and `0分5秒`, texts no formatter writes |
| Background.Loaded | background.js:45-52 | every stored key overrides its default and every absent key keeps it; an absent Set is empty; a stored array becomes a duplicate-free Set with the same members, in the same order when it had no duplicates; empty storage gives the defaults |
| Background.Saved | background.js:54-58 | `saveSettings` writes every key with the setting's value, the suppression Set as an array of its elements in insertion order |
| Background.LoadSaveRoundTrip | background.js:54-58 | loading what `saveSettings` wrote gives back the same settings |
| Background.IsYouTubeShorts | background.js:60-62 | a URL counts exactly when present and containing `youtube.com/shorts/` |
| Background.ShouldStartTimer | background.js:117-130 | the timer may start exactly when not always-off, not off today, the first tracked tab is not suppressed, some tab is tracked, and it is stopped |
| Background.ViewTime | background.js:176 | with no session start recorded the view time is `elapsedTime`; a session started at or before `now` only adds to it |
| Background.ViewTimeAdvance | background.js:176 | a running timer's view time grows one for one with the clock; a stopped timer's stands still |
| Background.StartedTimer | background.js:132-142 | starting leaves a running timer with the same tabs and the same view time at `now`; a running timer is unchanged |
| Background.PausedTimer | background.js:144-155 | pausing leaves a stopped timer with the same tabs and the same view time at `now`; a stopped timer is unchanged |
| Background.ResetTimerState | background.js:157-163 | a reset timer is stopped, has viewed nothing, and keeps its tabs |
| Background.ExpiryTime | background.js:136-139 | the alarm set when a stopped timer starts is due at the instant its view time reaches the budget |
| Background.StartThenPause | background.js:132-155 | start at t0 then pause at t1 adds exactly t1 − t0 to `elapsedTime` and keeps the tabs |
| Background.PauseAndStartIdempotent | background.js:133-145 | pausing twice is pausing once; starting twice is starting once |
| Background.ViewTimeConserved | background.js:135-151 | over any sequence of starts and pauses, view time grows by exactly the wall-clock time spent running |
| Background.CategoryFor | background.js:359-366 | gentle for at most 4 extensions, warning for 5 to 9, strict for 10 or more |
| Background.CategoryMonotone | background.js:359-366 | more extensions never pick a gentler category |
| Background.MessagesFromLines | background.js:387-391 | the three categories each hold at most 5 lines, together are the first 15 lines in order, and a category gets lines only once the one before it has 5 |
| Background.LoadMessages | background.js:381-400 | every category is present; a failed fetch gives the built-in messages; otherwise the categories, gentle then warning then strict, are the first 15 non-blank lines of the file in order, 5 to a category, filled in that order |
| Background.CategoryMessages | background.js:368 | `messages[category] \|\| messages.gentle`: the category's list when present, else the gentle list, else nothing |
| Background.LoadedMessagesUseOwnCategory | background.js:368-390 | with the messages `loadMessages` returns, every category is present, so the gentle fallback is never taken |
| Background.TimerStatus | background.js:316-337 | remaining whole seconds of the budget less the view time (at least 0); the full budget when stopped with nothing elapsed; state passes through |
| Background.LockData | background.js:355-379 | the message comes from the category's list, else from the gentle list; there is none exactly when the list is empty; view times in whole seconds; the count is today's |
| Background.LockEffects | background.js:189-201 | one lock-screen injection per tracked tab, in order |
| Background.RedirectEffects | background.js:203-212 | one navigation to the home page per tracked tab, in order |
| Background.ActionEffects | background.js:180-184 | `lock` only injects, `redirect` only navigates home, any other action does nothing, and only tracked tabs are touched |
| Background.ApplyPatch | background.js:277 | supplied fields replace, absent fields and the suppression Set and statistics stay |
| Background.DailyReset | background.js:246-261 | statistics zeroed and stamped with `now`; `todayOffUntil` cleared exactly when already past; nothing else changes |
| Background.DailyResetDue | background.js:227-243 | as written, a reset is due exactly when none has been recorded or the local date has advanced since the last one |
| Background.DailyResetSettlesAsWritten | background.js:227-261 | as written, after a reset at `now` no reset is due again until the next midnight |
| Background.DailyResetDueFixed | background.js:231 | corrected, a reset is due exactly when none has been recorded or a 04:00 boundary lies after the last one and at or before `now` |
| Background.DailyResetSettles | background.js:227-261 | with the corrected check, after a reset at `now` no reset is due again before the next 04:00 |
| Background.SuppressionSurvivesRetracking | background.js:124-127 | while the first tracked tab is suppressed, tracking any tab again does not let the timer start |
| Background.ExtendedTimer | background.js:343-344 | the elapsed time drops by one budget but never below 0; nothing else changes |
| Background.SuppressionOnWire | background.js:331-336 | as written, whatever the suppression Set holds, the popup receives a plain object with no elements, never an array |
| Background.SuppressionOnWireFixed | background.js:56 | the corrected status sends the suppression Set as an array with the same members |
| Background.Extension.constructor | background.js:15-21 | the script starts with the default settings, a stopped empty timer, and no alarms |
| Background.Extension.SaveSettings | background.js:54-58 | storage holds exactly the saved form of the settings |
| Background.Extension.LoadSettings | background.js:45-52 | the settings become what loading storage gives |
| Background.Extension.InitializeSettings | background.js:34-43 | settings loaded from the old storage, then written back |
| Background.Extension.OnInstalled | background.js:23-26 | settings initialised and the daily alarm set for the next 04:00; the timer is untouched |
| Background.Extension.OnStartup | background.js:28-32 | settings loaded; if `shouldResetToday` (as written) or a missing stamp makes a reset due, they are reset and saved, otherwise storage is untouched; daily alarm set for the next 04:00; the timer untouched |
| Background.Extension.StartTimer | background.js:132-142 | a no-op while running; otherwise it starts at `now` with the alarm due when the budget is used up |
| Background.Extension.PauseTimer | background.js:144-155 | the timer becomes the paused timer and the alarm is cleared |
| Background.Extension.ResetTimer | background.js:157-163 | the timer is reset and the alarm cleared |
| Background.Extension.StartTimerIfNeeded | background.js:111-115 | the timer starts exactly when the start guard holds |
| Background.Extension.TrackTab | background.js:95-98 | the tab is added to the tracked Set, then the start guard runs |
| Background.Extension.UntrackTab | background.js:101-108 | the tab leaves both Sets, settings are saved, and the timer pauses exactly when no tab is left |
| Background.Extension.HandleTabUpdate | background.js:79-92 | a Shorts URL tracks the tab and may start the timer; any other URL untracks and unsuppresses it and saves, and pauses and clears the alarm once nothing is tracked, else keeps timer and alarm |
| Background.Extension.HandleTabActivation | background.js:94-99 | a Shorts URL tracks the tab; any other URL changes nothing |
| Background.Extension.HandleTabRemoved | background.js:101-109 | the tab is in neither Set afterwards; the timer pauses exactly when no tab is left |
| Background.Extension.ShowLockScreen | background.js:189-201 | the lock screen is injected into every tracked tab, in order |
| Background.Extension.RedirectToYouTubeHome | background.js:203-212 | every tracked tab is sent to the home page, in order |
| Background.Extension.HandleTimerExpired | background.js:173-187 | the day's total grows by the cycle's view time; the configured action runs; the timer resets with its tabs kept |
| Background.Extension.SetupDailyReset | background.js:214-225 | the daily alarm is set for the next 04:00 |
| Background.Extension.PerformDailyReset | background.js:246-261 | settings become the daily-reset settings and are saved; the timer is untouched |
| Background.Extension.CheckDailyReset | background.js:227-243 | as written: a reset happens and is saved exactly when none has been recorded or the local date has advanced; otherwise nothing changes |
| Background.Extension.HandleAlarm | background.js:165-171 | `shortsTimer` runs expiry (day total, save, action, reset timer and alarm); `dailyReset` runs the daily reset and saves, the periodic alarm moving on by a day; other names change nothing at all |
| Background.Extension.ExtendTimer | background.js:339-353 | one more extension today, one budget off the elapsed time, the alarm rescheduled only while running |
| Background.Extension.TempDisableFirstTab | background.js:292-300 | a truthy first tracked tab is suppressed, saved and the timer paused; otherwise nothing changes |
| Background.Extension.HandleMessage | background.js:268-314 | each of the six request kinds does what its handler does, with the whole new state (settings, storage, timer, both alarms, effects) stated per kind; any other kind gets `Unknown message type` and changes nothing |
| Popup.FormatTime | popup.js:179-183 | at least four characters, the third from the end a colon |
| Popup.FormatTimeDenotes | popup.js:179-183 | read back by `ReadClock` (a number without leading zeros, a colon, exactly two digits under 60), the text gives the input seconds again |
| Popup.ColonDenotes | popup.js:180-182 | minutes, a colon and the seconds padded to two digits read back as minutes × 60 + seconds |
| Clock.NumberOfPadded | popup.js:182 | a number under 100 padded to two digits is exactly two digits and reads back as itself |
| Popup.FormatDuration | popup.js:185-198 | the text reads back, under the strict reader of `Clock.RenderRoundTrip` (minutes and seconds below 60, no leading zeros), as the whole seconds of the input; 時 appears exactly from an hour on, 分 exactly from a minute on |
| Popup.CeilToStep | popup.js:234 | a multiple of 5, at least the value and less than 5 above it |
| Popup.NormalizeMinutes | popup.js:228-237 | not a number or below 5 gives 5, above 720 gives 720, otherwise rounds up; always a multiple of 5 in 5..720 |
| Popup.NormalizeMultiple | popup.js:228-237 | every multiple of 5 in 5..720 is kept as it is |
| Popup.NormalizeIdempotent | popup.js:228-237 | normalising twice is normalising once |
| Popup.NormalizeDebugMinutes | popup.js:219-226 | in debug mode not a number or below 0.1 gives 0.1, above 720 gives 720, anything in between is sent unchanged |
| Popup.AdjustMinutes | popup.js:204-207 | not-a-number propagates; value plus step is kept when in min..720, above 720 gives 720, below min gives min |
| Popup.AdjustKeepsNormalized | popup.js:204-207 | outside debug mode ±5 from a normalised value gives a normalised value |
| Popup.IsCurrentTabTempDisabled | popup.js:75-89 | true only for an active tab and an array list, and then exactly when the list holds the tab's id |
| Popup.StatusLabel | popup.js:91-111 | always-off, then today-off, then tab-suppressed, then running with time left, then expired, then stopped |
| Popup.SuppressedTabShownAsRunning | popup.js:78-83 | with tab 5 suppressed and active, the list as sent gives the running label while the array form gives the tab-off label |
| Popup.PopupLabelAsWritten | popup.js:78-83 | with the status as sent, the tab-off label never shows |
| Popup.PopupLabel | popup.js:91-111 | with the list sent as an array, tab-off shows exactly when the active tab is suppressed and the timer is not off for good or today |
| Popup.OffLabelsAgreeWithGuard | popup.js:93-98 | whenever the popup shows always-off or today-off, the background's start guard is false |
| Popup.RunningTimerShowsRemaining | popup.js:102-104 | a running timer with at least a second left shows the remaining whole seconds |
| Popup.UsedBudgetShowsExpired | popup.js:105-107 | a timer whose budget is used up shows as expired |
| LockScreen.FormatTime | lock_screen.js:285-297 | the text reads back, under the strict reader of `Clock.RenderRoundTrip` (minutes and seconds below 60, no leading zeros), as the seconds; 時間 appears exactly from an hour on, 分 exactly from a minute on |
| LockScreen.BlockKeyboardEvent | lock_screen.js:275-283 | F5, F12 and Ctrl+Shift+I pass; every other key is both stopped and default-prevented |
| LockScreen.ExtensionCountLine | lock_screen.js:77 | the line is empty exactly when the count is not positive; otherwise it carries the count, which reads back |

## Findings

| source | as written | input that shows it | evidently intended | confidence | as-written member | corrected member |
|---|---|---|---|---|---|---|
| background.js:236-244 | `shouldResetToday` compares 04:00 of the two calendar dates, so it asks whether the date changed | last reset 03:00, check at 05:00 the same day: no reset, though 04:00 passed. Last reset 23:00, check 01:00 the next night: reset, though no 04:00 passed | a reset is due when a 04:00 boundary lies after the last reset | not executed; medium | LocalTime.ShouldResetTodayMisplacesBoundary | Background.DailyResetDueFixed |
| background.js:331-336 | `getTimerStatus` returns `settings: currentSettings` with the suppression Set inside. Chrome's message channel serialises a Set as `{}` | tab 5 active and suppressed: the popup gets `{}`, treats it as an empty list, and shows the running label | send the Set as an array, as `saveSettings` does, so the popup can show 今回のみタイマーOFF | not executed; medium | Popup.SuppressedTabShownAsRunning | Popup.PopupLabel |

`CheckDailyReset` and `OnStartup` keep `shouldResetToday` as written (`Background.DailyResetDue`); the corrected check is `Background.DailyResetDueFixed`, and `Background.DailyResetSettles` proves what it promises. The popup's `PopupLabel` reads the corrected wire form; `PopupLabelAsWritten` reads the form actually sent.

## Left out

- Chrome APIs are replaced by fields and parameters:
  - `chrome.storage` is the field `storage`;
  - the two alarms are fields holding their due time, and `delayInMinutes` fractions are not modelled;
  - script injection and tab navigation are entries in `effects`;
  - `chrome.tabs.get` and `chrome.tabs.query` results are parameters.
- Failures of the Chrome calls (the per-tab `try/catch` blocks) are not modelled; each call is taken to succeed.
- `fetch` of `messages.txt` is a parameter, and `Math.random` is the parameter `roll`. The message is entry `roll % length`, so every entry can be chosen.
- The outer `catch` of `handleMessage` is reached in the model only through `LockData`'s missing-category path. `LoadMessages` always supplies all three categories, so `HandleMessage` never reaches it.
- The `timerMinutes` key: the budget is modelled in milliseconds. JavaScript floating-point rounding of `timerMinutes * 60 * 1000` is not modelled.
- Time zones and daylight-saving changes: days are exactly 24 hours of local time. `toISOString` round-trips are taken to be exact.
- `getTomorrowAt4AM` and the today-off toggle (popup.js:291-301, 359-364): calendar arithmetic on `Date` that the background only reads back through `todayOffUntil`.
- Interleaving at `await` points, and the worker being shut down between events: each handler is atomic and the state persists. A restarted worker would lose the in-memory timer and also re-run the top-level `{ ...DEFAULT_SETTINGS }` (background.js:15). Only `onStartup` and `onInstalled` reload storage, so the settings would revert to the defaults, and the next `saveSettings` would write those defaults back over the stored ones.
- Aliasing of `DEFAULT_SETTINGS`: `{ ...DEFAULT_SETTINGS }` shares the `dailyStats` object and the Set with the defaults. The model copies values.
- `debugMode` and `sessionHistory` in `updateSettings` requests, and `consecutiveExtensionCount`: `Patch` carries only the four settings the background reads. The background never supplies `consecutiveExtensionCount`, so the popup always shows `0回` for it and the lock screen never shows its line.
- DOM and CSS: element updates, the overlay, the history list, the debug export, and the listeners that add or remove the lock screen.
- `content.js` and the build scripts are not part of this model.
- `toFixed(1)` in debug mode only changes what the input shows. The value sent is unrounded, and that is what the model returns.
- The error text of the outer `catch`: `TYPE_ERROR` stands for the message of the `TypeError` thrown when no message list exists; the exact engine wording is not modelled.
- Minutes in the popup are Dafny `real`s, not IEEE doubles: rounding in `currentValue + step`, `value / 5` and `delta * 0.1` is not modelled.

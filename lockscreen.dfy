/**
 * The pure parts of the lock screen injected into a tab when the budget is
 * used up: its time formatter, the keyboard filter it installs while shown,
 * and the extension-count line.
 */
module LockScreen {
  import opened Wrappers
  import Text
  import Clock

  const HOUR_MARK: string := "時間"

  /**
   * `formatTime`: whole seconds as hours 時間, minutes 分 and seconds 秒,
   * leading zero units left out.
   */
  function FormatTime(seconds: nat): (r: string)
    ensures Clock.Parse(r, HOUR_MARK) == Some(seconds)
    ensures HOUR_MARK[0] in r <==> seconds >= 3600
    ensures Clock.MINUTE_MARK in r <==> seconds >= 60
    ensures r[|r| - 1] == Clock.SECOND_MARK
  {
    Clock.RenderRoundTrip(seconds, HOUR_MARK);
    Clock.Render(Clock.Split(seconds), HOUR_MARK)
  }

  /** The fields of a keyboard event the filter reads. */
  datatype KeyEvent = KeyEvent(key: string, ctrlKey: bool, shiftKey: bool)

  /** What the filter does to an event: stop its propagation, cancel its default action. */
  datatype Handling = Handling(stopPropagation: bool, preventDefault: bool)

  /**
   * `blockKeyboardEvents`: F5, F12 and Ctrl+Shift+I pass through; every other
   * key event is stopped and its default action cancelled.
   */
  function BlockKeyboardEvent(e: KeyEvent): (h: Handling)
    ensures h.stopPropagation == h.preventDefault
    ensures e.key == "F5" || e.key == "F12" ==> !h.stopPropagation
    ensures e.ctrlKey && e.shiftKey && e.key == "I" ==> !h.stopPropagation
    ensures e.key != "F5" && e.key != "F12" && !(e.ctrlKey && e.shiftKey && e.key == "I") ==> h.preventDefault
  {
    var allowedKeys := ["F5", "F12"];
    var isCtrlShiftI := e.ctrlKey && e.shiftKey && e.key == "I";
    if e.key !in allowedKeys && !isCtrlShiftI then Handling(true, true) else Handling(false, false)
  }

  const EXTENSION_COUNT_PREFIX: string := "本日の延長回数: "
  const TIMES_MARK: string := "回"

  /** The extension-count line of the lock screen: empty unless extended at least once today. */
  function ExtensionCountLine(extensionCount: int): (r: string)
    ensures r != [] <==> extensionCount > 0
    ensures extensionCount > 0 ==>
      && |r| > |EXTENSION_COUNT_PREFIX| + |TIMES_MARK|
      && r[..|EXTENSION_COUNT_PREFIX|] == EXTENSION_COUNT_PREFIX
      && r[|r| - 1..] == TIMES_MARK
      && Clock.Number(r[|EXTENSION_COUNT_PREFIX|..|r| - 1]) == Some(extensionCount)
  {
    if extensionCount > 0 then
      var n := Text.NatToString(extensionCount);
      var r := EXTENSION_COUNT_PREFIX + n + TIMES_MARK;
      assert r[..|EXTENSION_COUNT_PREFIX|] == EXTENSION_COUNT_PREFIX;
      assert r[|EXTENSION_COUNT_PREFIX|..|r| - 1] == n;
      Clock.NumberOfNatToString(extensionCount);
      r
    else ""
  }
}

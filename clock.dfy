/**
 * Durations shown as "<h><hour unit><m>分<s>秒", the shape shared by the
 * popup's `formatDuration` and the lock screen's `formatTime`: the hour part
 * appears only when there are hours, the minute part only when there are hours
 * or minutes. A reader for that text is the inverse used to state what it shows.
 */
module Clock {
  import opened Wrappers
  import opened Text

  const MINUTE_MARK: char := '分'
  const SECOND_MARK: char := '秒'

  datatype Hms = Hms(hours: nat, minutes: nat, seconds: nat)

  /** Whole hours, the minutes left over, and the seconds left over. */
  function Split(total: nat): (r: Hms)
    ensures r.minutes < 60 && r.seconds < 60
    ensures r.hours * 3600 + r.minutes * 60 + r.seconds == total
  {
    Hms(total / 3600, (total % 3600) / 60, total % 60)
  }

  /** A unit text that cannot be mistaken for digits or for the other two marks. */
  predicate IsHourUnit(u: string)
  {
    |u| > 0 && !IsDigit(u[0]) && MINUTE_MARK !in u && SECOND_MARK !in u
  }

  function Render(h: Hms, hourUnit: string): (r: string)
    requires IsHourUnit(hourUnit)
    ensures |r| > 0 && r[|r| - 1] == SECOND_MARK
    ensures MINUTE_MARK in r <==> h.hours > 0 || h.minutes > 0
    ensures hourUnit[0] in r <==> h.hours > 0
  {
    var secs := NatToString(h.seconds);
    if h.hours > 0 then
      NatToString(h.hours) + hourUnit + NatToString(h.minutes) + [MINUTE_MARK] + secs + [SECOND_MARK]
    else if h.minutes > 0 then
      NatToString(h.minutes) + [MINUTE_MARK] + secs + [SECOND_MARK]
    else
      secs + [SECOND_MARK]
  }

  /** `s.indexOf(c)`: the first position holding `c`. */
  function IndexOf(s: string, c: char): (r: Option<nat>)
    ensures r.None? <==> c !in s
    ensures r.Some? ==> r.value < |s| && s[r.value] == c && forall i :: 0 <= i < r.value ==> s[i] != c
  {
    IndexFrom(s, c, 0)
  }

  /** The first position at or after `k` holding `c`. */
  function IndexFrom(s: string, c: char, k: nat): (r: Option<nat>)
    requires k <= |s|
    ensures r.None? ==> forall i :: k <= i < |s| ==> s[i] != c
    ensures r.Some? ==> k <= r.value < |s| && s[r.value] == c && forall i :: k <= i < r.value ==> s[i] != c
    decreases |s| - k
  {
    if k == |s| then None
    else if s[k] == c then Some(k)
    else IndexFrom(s, c, k + 1)
  }

  /** A number as `${n}` writes it: a non-empty run of decimal digits without a leading zero. */
  function Number(s: string): Option<nat>
  {
    if |s| > 0 && AllDigits(s) && (|s| == 1 || s[0] != '0') then Some(ParseDigits(s)) else None
  }

  lemma NumberOfNatToString(n: nat)
    ensures Number(NatToString(n)) == Some(n)
  {
    ParseNatToString(n);
  }

  /** A minutes or seconds field: a number below 60. */
  function Field(s: string): Option<nat>
  {
    var n := Number(s);
    if n.Some? && n.value < 60 then n else None
  }

  lemma FieldOfNatToString(n: nat)
    requires n < 60
    ensures Field(NatToString(n)) == Some(n)
  {
    NumberOfNatToString(n);
  }

  /** Exactly two decimal digits, as `padStart(2, '0')` leaves a number under 100. */
  function TwoDigits(s: string): Option<nat>
  {
    if |s| == 2 && AllDigits(s) then Some(ParseDigits(s)) else None
  }

  /** Padding to two digits keeps the number a value under 100 reads as. */
  lemma NumberOfPadded(n: nat)
    requires n < 100
    ensures |PadStart2(NatToString(n))| == 2
    ensures TwoDigits(PadStart2(NatToString(n))) == Some(n)
  {
    PadStart2Parse(n);
  }

  /**
   * Reads a rendered duration back as a number of seconds. Only the form the
   * formatters write is accepted: numbers without leading zeros, minutes and
   * seconds below 60, no zero hours, and no zero minutes without hours.
   */
  function Parse(s: string, hourUnit: string): Option<nat>
    requires IsHourUnit(hourUnit)
  {
    if |s| == 0 || s[|s| - 1] != SECOND_MARK then None
    else
      var body := s[..|s| - 1];
      match IndexOf(body, MINUTE_MARK)
      case None => Field(body)
      case Some(i) =>
        match (ParseFront(body[..i], hourUnit), Field(body[i + 1..]))
        case (Some(m), Some(sec)) => Some(m * 60 + sec)
        case _ => None
  }

  /** Reads the part before the minute mark as a number of minutes. */
  function ParseFront(front: string, hourUnit: string): Option<nat>
    requires IsHourUnit(hourUnit)
  {
    match IndexOf(front, hourUnit[0])
    case None =>
      var mins := Field(front);
      if mins.Some? && mins.value > 0 then mins else None
    case Some(j) =>
      var n := |hourUnit|;
      if j + n <= |front| && front[j..j + n] == hourUnit then
        match (Number(front[..j]), Field(front[j + n..]))
        case (Some(hrs), Some(mins)) => if hrs > 0 then Some(hrs * 60 + mins) else None
        case _ => None
      else None
  }

  /** Texts the formatters never write are refused: a seconds field of 60, a leading zero, zero minutes. */
  lemma ParseRefusesOtherForms()
    ensures Parse("1分65秒", "時") == None
    ensures Parse("05秒", "時") == None
    ensures Parse("0分5秒", "時") == None
  {
    IndexAfterPrefix("1", MINUTE_MARK, "65");
    assert "1分65秒"[..4] == "1分65";
    assert "1分65"[2..] == "65";
    assert "05秒"[..2] == "05";
    IndexAfterPrefix("0", MINUTE_MARK, "5");
    assert "0分5秒"[..3] == "0分5";
    assert "0分5"[..1] == "0";
  }

  /** In `front + [c] + rest` with no `c` in `front`, the first `c` follows `front`. */
  lemma IndexAfterPrefix(front: string, c: char, rest: string)
    requires c !in front
    ensures IndexOf(front + [c] + rest, c) == Some(|front|)
  {
    var s := front + [c] + rest;
    assert s[..|front|] == front;
    assert s[|front|] == c;
    assert c in s[..|front| + 1];
  }

  /** The rendered text reads back as the number of seconds it was made from. */
  lemma RenderRoundTrip(total: nat, hourUnit: string)
    requires IsHourUnit(hourUnit)
    ensures Parse(Render(Split(total), hourUnit), hourUnit) == Some(total)
  {
    var h := Split(total);
    if h.hours > 0 {
      RenderParsesHours(h, hourUnit, total);
    } else if h.minutes > 0 {
      RenderParsesMinutes(h, hourUnit, total);
    } else {
      RenderParsesSecondsOnly(h, hourUnit, total);
    }
  }

  /** A digit string holds no character other than digits. */
  lemma NotInDigits(s: string, c: char)
    requires AllDigits(s) && !IsDigit(c)
    ensures c !in s
  {
  }

  lemma RenderParsesHours(h: Hms, hourUnit: string, total: nat)
    requires IsHourUnit(hourUnit) && h.hours > 0 && h.minutes < 60 && h.seconds < 60
    requires total == (h.hours * 60 + h.minutes) * 60 + h.seconds
    ensures Parse(Render(h, hourUnit), hourUnit) == Some(total)
  {
    var hs, ms, ss := NatToString(h.hours), NatToString(h.minutes), NatToString(h.seconds);
    NotInDigits(hs, MINUTE_MARK);
    NotInDigits(ms, MINUTE_MARK);
    NotInDigits(hs, hourUnit[0]);
    NumberOfNatToString(h.hours);
    FieldOfNatToString(h.minutes);
    FieldOfNatToString(h.seconds);
    ParseHoursText(Render(h, hourUnit), hs, hourUnit, ms, ss, h.hours, h.minutes, h.seconds, total);
  }

  lemma RenderParsesMinutes(h: Hms, hourUnit: string, total: nat)
    requires IsHourUnit(hourUnit) && h.hours == 0 && 0 < h.minutes < 60 && h.seconds < 60
    requires total == h.minutes * 60 + h.seconds
    ensures Parse(Render(h, hourUnit), hourUnit) == Some(total)
  {
    var ms, ss := NatToString(h.minutes), NatToString(h.seconds);
    NotInDigits(ms, MINUTE_MARK);
    NotInDigits(ms, hourUnit[0]);
    FieldOfNatToString(h.minutes);
    FieldOfNatToString(h.seconds);
    ParseMinutesText(Render(h, hourUnit), hourUnit, ms, ss, h.minutes, h.seconds, total);
  }

  lemma RenderParsesSecondsOnly(h: Hms, hourUnit: string, total: nat)
    requires IsHourUnit(hourUnit) && h.hours == 0 && h.minutes == 0 && h.seconds < 60 && total == h.seconds
    ensures Parse(Render(h, hourUnit), hourUnit) == Some(total)
  {
    var ss := NatToString(h.seconds);
    FieldOfNatToString(h.seconds);
    NotInDigits(ss, MINUTE_MARK);
    ParseSecondsOnly(Render(h, hourUnit), ss, hourUnit, total);
  }

  /** `<h><unit><m>分<s>秒` reads back as its total in seconds. */
  lemma ParseHoursText(r: string, hs: string, hourUnit: string, ms: string, ss: string, hrs: nat, mins: nat, sec: nat, total: nat)
    requires IsHourUnit(hourUnit) && r == hs + hourUnit + ms + [MINUTE_MARK] + ss + [SECOND_MARK]
    requires hourUnit[0] !in hs && MINUTE_MARK !in hs && MINUTE_MARK !in ms
    requires Number(hs) == Some(hrs) && hrs > 0 && Field(ms) == Some(mins) && Field(ss) == Some(sec)
    requires total == (hrs * 60 + mins) * 60 + sec
    ensures Parse(r, hourUnit) == Some(total)
  {
    ParseFrontHours(hs, hourUnit, ms, hrs, mins, hrs * 60 + mins);
    ParseWithMinutes(hs + hourUnit + ms, ss, hourUnit, hrs * 60 + mins, sec, total);
  }

  /** `<m>分<s>秒` reads back as its total in seconds. */
  lemma ParseMinutesText(r: string, hourUnit: string, ms: string, ss: string, mins: nat, sec: nat, total: nat)
    requires IsHourUnit(hourUnit) && r == ms + [MINUTE_MARK] + ss + [SECOND_MARK]
    requires hourUnit[0] !in ms && MINUTE_MARK !in ms
    requires Field(ms) == Some(mins) && mins > 0 && Field(ss) == Some(sec) && total == mins * 60 + sec
    ensures Parse(r, hourUnit) == Some(total)
  {
    ParseFrontMinutes(ms, hourUnit, mins);
    ParseWithMinutes(ms, ss, hourUnit, mins, sec, total);
  }

  /** A minute mark splits the text into the front read by `ParseFront` and the seconds. */
  lemma ParseWithMinutes(front: string, ss: string, hourUnit: string, m: nat, sec: nat, total: nat)
    requires IsHourUnit(hourUnit) && MINUTE_MARK !in front
    requires ParseFront(front, hourUnit) == Some(m) && Field(ss) == Some(sec) && total == m * 60 + sec
    ensures Parse(front + [MINUTE_MARK] + ss + [SECOND_MARK], hourUnit) == Some(total)
  {
    var r := front + [MINUTE_MARK] + ss + [SECOND_MARK];
    var body := r[..|r| - 1];
    assert body == front + [MINUTE_MARK] + ss;
    IndexAfterPrefix(front, MINUTE_MARK, ss);
    assert body[..|front|] == front && body[|front| + 1..] == ss;
  }

  /** Without a minute mark the text before 秒 is read as the seconds. */
  lemma ParseSecondsOnly(r: string, ss: string, hourUnit: string, sec: nat)
    requires IsHourUnit(hourUnit) && r == ss + [SECOND_MARK]
    requires MINUTE_MARK !in ss && Field(ss) == Some(sec)
    ensures Parse(r, hourUnit) == Some(sec)
  {
    assert r[..|r| - 1] == ss;
  }

  /** Hours, the hour unit and minutes read back as minutes in all. */
  lemma ParseFrontHours(hs: string, hourUnit: string, ms: string, hrs: nat, mins: nat, m: nat)
    requires IsHourUnit(hourUnit) && hourUnit[0] !in hs
    requires Number(hs) == Some(hrs) && hrs > 0 && Field(ms) == Some(mins) && m == hrs * 60 + mins
    ensures ParseFront(hs + hourUnit + ms, hourUnit) == Some(m)
  {
    var front := hs + hourUnit + ms;
    var rest := hourUnit[1..] + ms;
    assert front == hs + [hourUnit[0]] + rest;
    IndexAfterPrefix(hs, hourUnit[0], rest);
    var j, n := |hs|, |hourUnit|;
    assert front[j..j + n] == hourUnit;
    assert front[..j] == hs;
    assert front[j + n..] == ms;
    ParseFrontAt(front, hourUnit, j, hrs, mins, m);
  }

  /** When the hour unit first occurs at `j`, the front reads as hours before it and minutes after. */
  lemma ParseFrontAt(front: string, hourUnit: string, j: nat, hrs: nat, mins: nat, m: nat)
    requires IsHourUnit(hourUnit) && IndexOf(front, hourUnit[0]) == Some(j)
    requires j + |hourUnit| <= |front| && front[j..j + |hourUnit|] == hourUnit
    requires Number(front[..j]) == Some(hrs) && hrs > 0 && Field(front[j + |hourUnit|..]) == Some(mins)
    requires m == hrs * 60 + mins
    ensures ParseFront(front, hourUnit) == Some(m)
  {
  }

  /** Minutes alone read back as themselves. */
  lemma ParseFrontMinutes(ms: string, hourUnit: string, mins: nat)
    requires IsHourUnit(hourUnit) && hourUnit[0] !in ms && Field(ms) == Some(mins) && mins > 0
    ensures ParseFront(ms, hourUnit) == Some(mins)
  {
  }
}

/**
 * The time-slot text of the picker: `parseTime` finds the first
 * `h:mm AM`-shaped occurrence in a string, `formatTime` writes one, and the
 * hour and minute choices the picker offers.
 */
module TimePicker {
  import opened Wrappers
  import opened JsText

  datatype Period = AM | PM

  datatype TimeOfDay = TimeOfDay(hour: nat, minute: nat, period: Period)

  /** What `parseTime` returns when the text holds no time. */
  const DefaultTime := TimeOfDay(9, 0, AM)

  function PeriodText(p: Period): string {
    match p
    case AM => "AM"
    case PM => "PM"
  }

  function DigitAt(s: string, i: nat): (d: nat)
    requires i < |s| && IsDigit(s[i])
    ensures d < 10
  {
    (s[i] as int) - ('0' as int)
  }

  /** The first index at or after `i` that is not white space (`\s*`, greedy). */
  function SkipSpaces(s: string, i: nat): (j: nat)
    requires i <= |s|
    ensures i <= j <= |s| && (j < |s| ==> !IsJsSpace(s[j]))
    ensures forall k :: i <= k < j ==> IsJsSpace(s[k])
    decreases |s| - i
  {
    if i < |s| && IsJsSpace(s[i]) then SkipSpaces(s, i + 1) else i
  }

  /** `(AM|PM)` matched case-insensitively at `j`, upper-cased. */
  function PeriodAt(s: string, j: nat): Option<Period> {
    if j + 2 <= |s| && (s[j + 1] == 'm' || s[j + 1] == 'M') then
      if s[j] == 'a' || s[j] == 'A' then Some(AM)
      else if s[j] == 'p' || s[j] == 'P' then Some(PM)
      else None
    else None
  }

  /**
   * The pattern matched from `i` with an hour of `width` digits: the hour,
   * a colon, two minute digits, any white space, then the period.
   */
  function MatchWidth(s: string, i: nat, width: nat): Option<TimeOfDay>
    requires width == 1 || width == 2
  {
    var colon := i + width;
    if colon + 3 <= |s| && IsDigit(s[i]) && (width == 1 || IsDigit(s[i + 1])) && s[colon] == ':'
       && IsDigit(s[colon + 1]) && IsDigit(s[colon + 2]) then
      var hour := if width == 2 then 10 * DigitAt(s, i) + DigitAt(s, i + 1) else DigitAt(s, i);
      var minute := 10 * DigitAt(s, colon + 1) + DigitAt(s, colon + 2);
      match PeriodAt(s, SkipSpaces(s, colon + 3))
      case Some(p) => Some(TimeOfDay(hour, minute, p))
      case None => None
    else None
  }

  /** A match starting at `i`: `\d{1,2}` tries two digits before one. */
  function MatchAt(s: string, i: nat): Option<TimeOfDay> {
    match MatchWidth(s, i, 2)
    case Some(t) => Some(t)
    case None => MatchWidth(s, i, 1)
  }

  /** The leftmost match at or after `i`. */
  function Search(s: string, i: nat): (r: Option<TimeOfDay>)
    requires i <= |s|
    ensures r.None? <==> forall k :: i <= k <= |s| ==> MatchAt(s, k).None?
    ensures r.Some? ==> exists k :: i <= k <= |s| && MatchAt(s, k) == r && forall j :: i <= j < k ==> MatchAt(s, j).None?
    decreases |s| - i
  {
    if MatchAt(s, i).Some? then MatchAt(s, i)
    else if i == |s| then None
    else
      var r := Search(s, i + 1);
      assert r.Some? ==> exists k :: i + 1 <= k <= |s| && MatchAt(s, k) == r && forall j :: i <= j < k ==> MatchAt(s, j).None?;
      r
  }

  /** `parseTime(timeStr)`: the first occurrence, or 9:00 AM when there is none; no range check. */
  function ParseTime(timeStr: string): (t: TimeOfDay)
    ensures (forall k :: 0 <= k <= |timeStr| ==> MatchAt(timeStr, k).None?) ==> t == DefaultTime
    ensures (exists k :: 0 <= k <= |timeStr| && MatchAt(timeStr, k).Some?) ==>
      exists k :: 0 <= k <= |timeStr| && MatchAt(timeStr, k) == Some(t)
                  && forall j :: 0 <= j < k ==> MatchAt(timeStr, j).None?
  {
    Search(timeStr, 0).GetOr(DefaultTime)
  }

  /** `formatTime(hour, minute, period)`: unpadded hour, two-digit minute, a space, the period. */
  function FormatTime(hour: nat, minute: nat, period: Period): string {
    NatToString(hour) + ":" + PadStart(NatToString(minute), 2, '0') + " " + PeriodText(period)
  }

  /** For a two-digit minute the text is the hour, a colon, the two digits, a space and the period. */
  lemma FormatTimeShape(hour: nat, minute: nat, period: Period)
    requires minute < 100
    ensures FormatTime(hour, minute, period) == NatToString(hour) + ":" + TwoDigits(minute) + " " + PeriodText(period)
  {
  }

  /** The period written at `j` reads back. */
  lemma PeriodRoundTrip(s: string, j: nat, p: Period)
    requires j + 2 <= |s| && s[j..j + 2] == PeriodText(p)
    ensures PeriodAt(s, j) == Some(p)
  {
    assert s[j] == s[j..j + 2][0] && s[j + 1] == s[j..j + 2][1];
  }

  /**
   * Reading a written time gives it back, for any hour and minute below 100:
   * the parser does not check that they are in range.
   */
  lemma ParseFormat(hour: nat, minute: nat, period: Period)
    requires hour < 100 && minute < 100
    ensures ParseTime(FormatTime(hour, minute, period)) == TimeOfDay(hour, minute, period)
  {
    FormatTimeShape(hour, minute, period);
    var h, m := NatToString(hour), TwoDigits(minute);
    var s := FormatTime(hour, minute, period);
    NatToStringLength(hour);
    var w := |h|;
    assert s == h + ":" + m + " " + PeriodText(period);
    assert s[w] == ':' && s[w + 1] == m[0] && s[w + 2] == m[1] && s[w + 3] == ' ';
    assert s[w + 4..w + 6] == PeriodText(period);
    assert SkipSpaces(s, w + 3) == w + 4 by {
      assert !IsJsSpace(s[w + 4]) by {
        assert s[w + 4] == PeriodText(period)[0];
      }
      assert SkipSpaces(s, w + 4) == w + 4;
    }
    PeriodRoundTrip(s, w + 4, period);
    if hour < 10 {
      assert s[0] == DigitChar(hour) && !IsDigit(s[1]);
      assert MatchWidth(s, 0, 2).None?;
      assert MatchWidth(s, 0, 1) == Some(TimeOfDay(hour, minute, period));
    } else {
      assert h == NatToString(hour / 10) + [DigitChar(hour % 10)];
      assert s[0] == DigitChar(hour / 10) && s[1] == DigitChar(hour % 10);
      assert MatchWidth(s, 0, 2) == Some(TimeOfDay(hour, minute, period));
    }
    assert MatchAt(s, 0) == Some(TimeOfDay(hour, minute, period));
  }

  /** The first occurrence wins, and a lower-case period is read. */
  lemma FirstOccurrenceExample()
    ensures ParseTime("7:05pm, 8:00 AM") == TimeOfDay(7, 5, PM)
  {
    var s := "7:05pm, 8:00 AM";
    assert s[0] == '7' && s[1] == ':' && s[2] == '0' && s[3] == '5' && s[4] == 'p' && s[5] == 'm';
    assert MatchWidth(s, 0, 2).None?;
    assert DigitAt(s, 0) == 7 && DigitAt(s, 2) == 0 && DigitAt(s, 3) == 5;
    assert SkipSpaces(s, 4) == 4;
    assert PeriodAt(s, 4) == Some(PM);
    assert MatchWidth(s, 0, 1) == Some(TimeOfDay(7, 5, PM));
    assert Search(s, 0) == Some(TimeOfDay(7, 5, PM));
  }

  /** A text without digits, such as `'Anytime'`, reads as 9:00 AM. */
  lemma NoDigitsDefault(s: string)
    requires forall k :: 0 <= k < |s| ==> !IsDigit(s[k])
    ensures ParseTime(s) == DefaultTime
  {
    forall k | 0 <= k <= |s|
      ensures MatchAt(s, k).None?
    {
    }
  }

  /** `HOURS`. */
  const Hours: seq<nat> := [1, 2, 3, 4, 5, 6, 7, 8, 9, 10, 11, 12]

  /** `MINUTES`. */
  const Minutes: seq<nat> := [0, 5, 10, 15, 20, 25, 30, 35, 40, 45, 50, 55]

  /** The picker offers the hours 1 to 12 and the minutes 0 to 55 in steps of five, twelve of each. */
  lemma PickerChoices()
    ensures |Hours| == 12 && forall i :: 0 <= i < 12 ==> Hours[i] == i + 1
    ensures |Minutes| == 12 && forall i :: 0 <= i < 12 ==> Minutes[i] == 5 * i
  {
  }

  /** Every time the picker can produce reads back as itself. */
  lemma PickerRoundTrip(i: nat, j: nat, p: Period)
    requires i < |Hours| && j < |Minutes|
    ensures ParseTime(FormatTime(Hours[i], Minutes[j], p)) == TimeOfDay(Hours[i], Minutes[j], p)
  {
    PickerChoices();
    ParseFormat(Hours[i], Minutes[j], p);
  }
}

/**
 * The streak calendar: one cell per day of the last `weeks` weeks, oldest
 * first, grouped into columns of seven, each coloured by its completion
 * rate.  `keyFor(i)` is the date key of the day `i` days before today.
 */
module StreakCalendar {
  import opened Wrappers
  import opened TaskTypes
  import DayMetrics

  datatype CalendarDay = CalendarDay(date: string, rate: int, isToday: bool)

  /** `stat?.completionRate ?? -1`. */
  function RateOf(stat: Option<DayStats>): int {
    match stat
    case Some(s) => s.completionRate
    case None => -1
  }

  /** The cell for the day `i` days back. */
  function DayEntry(stats: seq<DayStats>, keyFor: nat -> string, i: nat): (d: CalendarDay)
    ensures d.date == keyFor(i) && (d.isToday <==> i == 0)
    ensures DayMetrics.FindStat(stats, keyFor(i)).None? ==> d.rate == -1
    ensures DayMetrics.FindStat(stats, keyFor(i)).Some? ==> d.rate == DayMetrics.FindStat(stats, keyFor(i)).value.completionRate
  {
    CalendarDay(keyFor(i), RateOf(DayMetrics.FindStat(stats, keyFor(i))), i == 0)
  }

  /** `weeks * 7`, no days when it is not positive. */
  function TotalDays(weeks: int): nat {
    if weeks > 0 then weeks * 7 else 0
  }

  /**
   * `calendarData`: `weeks * 7` cells from the oldest day to today; a cell's
   * rate is that of the first stat for its key, or -1; only the last cell,
   * today, is marked as today.
   */
  method CalendarData(stats: seq<DayStats>, weeks: int, keyFor: nat -> string) returns (days: seq<CalendarDay>)
    ensures |days| == TotalDays(weeks)
    ensures forall j :: 0 <= j < |days| ==> days[j] == DayEntry(stats, keyFor, |days| - 1 - j)
    ensures |days| > 0 ==> days[|days| - 1].isToday && days[|days| - 1].date == keyFor(0)
    ensures forall j :: 0 <= j < |days| - 1 ==> !days[j].isToday
  {
    var totalDays := TotalDays(weeks);
    days := [];
    var i: int := totalDays - 1;
    while i >= 0
      invariant -1 <= i < totalDays
      invariant |days| == totalDays - 1 - i
      invariant forall j :: 0 <= j < |days| ==> days[j] == DayEntry(stats, keyFor, totalDays - 1 - j)
    {
      var key := keyFor(i);
      var stat := DayMetrics.FindStat(stats, key);
      days := days + [CalendarDay(key, if stat.Some? then stat.value.completionRate else -1, i == 0)];
      i := i - 1;
    }
  }

  /** `calendarData.slice(i, i + 7)` repeated from 0 in steps of seven. */
  function Chunks(data: seq<CalendarDay>): (cols: seq<seq<CalendarDay>>)
    ensures forall k :: 0 <= k < |cols| ==> 1 <= |cols[k]| <= 7
    ensures forall k :: 0 <= k < |cols| - 1 ==> |cols[k]| == 7
    decreases |data|
  {
    if data == [] then []
    else if |data| <= 7 then [data]
    else [data[..7]] + Chunks(data[7..])
  }

  function Flatten(cols: seq<seq<CalendarDay>>): seq<CalendarDay> {
    if cols == [] then [] else cols[0] + Flatten(cols[1..])
  }

  /** Laid end to end, the columns give back the calendar; there are ⌈n / 7⌉ of them. */
  lemma {:induction false} ChunksFlatten(data: seq<CalendarDay>)
    ensures Flatten(Chunks(data)) == data
    ensures |Chunks(data)| == (|data| + 6) / 7
    decreases |data|
  {
    if |data| > 7 {
      ChunksFlatten(data[7..]);
      assert data[..7] + data[7..] == data;
    } else if data != [] {
      assert Flatten([data]) == data + Flatten([]);
    }
  }

  /** `weekColumns`: consecutive slices of seven cells, the last one possibly shorter. */
  method WeekColumns(data: seq<CalendarDay>) returns (cols: seq<seq<CalendarDay>>)
    ensures cols == Chunks(data)
  {
    cols := [];
    var i := 0;
    while i < |data|
      invariant 0 <= i && (i < |data| ==> i % 7 == 0)
      invariant i <= |data| ==> cols + Chunks(data[i..]) == Chunks(data)
      invariant i > |data| ==> cols == Chunks(data)
      decreases |data| - i
    {
      var hi := if i + 7 < |data| then i + 7 else |data|;
      assert data[i..][..hi - i] == data[i..hi];
      if |data| - i > 7 {
        assert data[i..][7..] == data[i + 7..];
      } else {
        assert data[i..hi] == data[i..];
        assert Chunks(data[i..]) == [data[i..]];
      }
      cols := cols + [data[i..hi]];
      i := i + 7;
    }
    if i == |data| {
      assert data[i..] == [];
    }
  }

  /** The colour classes of a cell, lightest to strongest. */
  datatype CellColor = SurfaceBorder | DangerFaint | WarningFaint | Warning | ToxicFaint | Toxic

  /** `getCellColor(rate, isToday)`; the today flag does not affect the colour. */
  function CellColorOf(rate: int, isToday: bool): (c: CellColor)
    ensures c == SurfaceBorder <==> rate <= 0
    ensures c == Toxic <==> rate >= 100
    ensures c == ToxicFaint <==> 75 <= rate < 100
    ensures c == Warning <==> 50 <= rate < 75
    ensures c == WarningFaint <==> 25 <= rate < 50
    ensures c == DangerFaint <==> 0 < rate < 25
  {
    if rate < 0 then SurfaceBorder
    else if rate >= 100 then Toxic
    else if rate >= 75 then ToxicFaint
    else if rate >= 50 then Warning
    else if rate >= 25 then WarningFaint
    else if rate > 0 then DangerFaint
    else SurfaceBorder
  }

  /** A day without a stat, like a day with rate 0, is drawn as an empty cell. */
  lemma MissingDayIsEmpty(stats: seq<DayStats>, keyFor: nat -> string, i: nat)
    requires DayMetrics.FindStat(stats, keyFor(i)).None?
    ensures CellColorOf(DayEntry(stats, keyFor, i).rate, i == 0) == SurfaceBorder
  {
  }
}

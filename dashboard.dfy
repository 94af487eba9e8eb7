/**
 * What the dashboard widgets compute from today's tasks, today's stats and
 * the streak: the next task, the pending and focused minutes, the urgent
 * count, the streak label and tiers, and the time left until the end of the
 * day with its urgency.
 */
module Dashboard {
  import opened Wrappers
  import opened JsText
  import opened TaskTypes
  import DayMetrics

  // ---------------------------------------------------------------------------
  // Next task
  // ---------------------------------------------------------------------------

  /** An incomplete task of least order at position `i`, and no incomplete one before it with the same order. */
  predicate IsNext(tasks: seq<Task>, i: nat) {
    i < |tasks| && !tasks[i].completed
    && (forall j :: 0 <= j < |tasks| && !tasks[j].completed ==> tasks[i].order <= tasks[j].order)
    && (forall j :: 0 <= j < i && !tasks[j].completed ==> tasks[i].order < tasks[j].order)
  }

  /**
   * The position of the first task of the pending list sorted stably by
   * `order`: the earliest incomplete task among those of least order.
   */
  function NextIndex(tasks: seq<Task>): (r: Option<nat>)
    ensures r.None? <==> forall j :: 0 <= j < |tasks| ==> tasks[j].completed
    ensures r.Some? ==> IsNext(tasks, r.value)
  {
    if tasks == [] then None
    else
      var rest := NextIndex(tasks[1..]);
      if tasks[0].completed then
        if rest.Some? then Some(rest.value + 1) else None
      else if rest.None? || tasks[0].order <= tasks[rest.value + 1].order then Some(0)
      else Some(rest.value + 1)
  }

  /** The next task is determined by its description: only one position is `IsNext`. */
  lemma NextIsUnique(tasks: seq<Task>, i: nat, k: nat)
    requires IsNext(tasks, i) && IsNext(tasks, k)
    ensures i == k
  {
  }

  /** `nextTask`: the first of `tasks.filter(t => !t.completed).sort((a, b) => a.order - b.order)`, or null. */
  function NextTask(tasks: seq<Task>): (r: Option<Task>)
    ensures r.None? <==> forall j :: 0 <= j < |tasks| ==> tasks[j].completed
    ensures r.Some? ==> exists i: nat :: IsNext(tasks, i) && tasks[i] == r.value
  {
    match NextIndex(tasks)
    case Some(i) => Some(tasks[i])
    case None => None
  }

  /** Whatever the order of the others, a lone incomplete task is next. */
  lemma LonePendingIsNext(tasks: seq<Task>, i: nat)
    requires i < |tasks| && !tasks[i].completed
    requires forall j :: 0 <= j < |tasks| && j != i ==> tasks[j].completed
    ensures NextTask(tasks) == Some(tasks[i])
  {
    var k := NextIndex(tasks).value;
    assert IsNext(tasks, k);
  }

  // ---------------------------------------------------------------------------
  // Counts and minute sums
  // ---------------------------------------------------------------------------

  /** `tasks.filter(t => !t.completed).length`. */
  function PendingCount(tasks: seq<Task>): nat {
    if tasks == [] then 0 else (if tasks[0].completed then 0 else 1) + PendingCount(tasks[1..])
  }

  /** Every task is either pending or completed. */
  lemma {:induction false} PendingPlusCompleted(tasks: seq<Task>)
    ensures PendingCount(tasks) + DayMetrics.CompletedCount(tasks) == |tasks|
    decreases |tasks|
  {
    if tasks != [] {
      PendingPlusCompleted(tasks[1..]);
    }
  }

  /** The sum of every task's duration. */
  function SumDurations(tasks: seq<Task>): int {
    if tasks == [] then 0 else tasks[0].duration + SumDurations(tasks[1..])
  }

  /** `totalMinutes`: the durations of the incomplete tasks, summed. */
  function TotalMinutes(tasks: seq<Task>): int {
    if tasks == [] then 0 else (if tasks[0].completed then 0 else tasks[0].duration) + TotalMinutes(tasks[1..])
  }

  /** `focusMinutes`: the durations of the completed tasks, summed. */
  function FocusMinutes(tasks: seq<Task>): int {
    if tasks == [] then 0 else (if tasks[0].completed then tasks[0].duration else 0) + FocusMinutes(tasks[1..])
  }

  /** The minutes left and the minutes focused together are all the minutes planned. */
  lemma {:induction false} MinutesSplit(tasks: seq<Task>)
    ensures TotalMinutes(tasks) + FocusMinutes(tasks) == SumDurations(tasks)
    decreases |tasks|
  {
    if tasks != [] {
      MinutesSplit(tasks[1..]);
    }
  }

  /** With every task done there are no minutes left, and every minute is focused. */
  lemma {:induction false} AllDoneMinutes(tasks: seq<Task>)
    requires forall j :: 0 <= j < |tasks| ==> tasks[j].completed
    ensures TotalMinutes(tasks) == 0 && PendingCount(tasks) == 0
    ensures FocusMinutes(tasks) == SumDurations(tasks)
    decreases |tasks|
  {
    if tasks != [] {
      AllDoneMinutes(tasks[1..]);
    }
  }

  predicate IsUrgent(t: Task) {
    !t.completed && (t.priority == Critical || t.priority == High)
  }

  /** `criticalPending`: incomplete tasks of priority critical or high. */
  function CriticalPending(tasks: seq<Task>): nat {
    if tasks == [] then 0 else (if IsUrgent(tasks[0]) then 1 else 0) + CriticalPending(tasks[1..])
  }

  /** The urgent tasks are among the pending ones, and there is one iff some pending task is critical or high. */
  lemma {:induction false} CriticalPendingBounds(tasks: seq<Task>)
    ensures CriticalPending(tasks) <= PendingCount(tasks)
    ensures CriticalPending(tasks) > 0 <==> exists j :: 0 <= j < |tasks| && IsUrgent(tasks[j])
    decreases |tasks|
  {
    if tasks != [] {
      CriticalPendingBounds(tasks[1..]);
      if CriticalPending(tasks[1..]) > 0 {
        var j :| 0 <= j < |tasks[1..]| && IsUrgent(tasks[1..][j]);
        assert IsUrgent(tasks[j + 1]);
      }
      if exists j :: 0 <= j < |tasks| && IsUrgent(tasks[j]) {
        var j :| 0 <= j < |tasks| && IsUrgent(tasks[j]);
        if j > 0 {
          assert IsUrgent(tasks[1..][j - 1]);
        }
      }
    }
  }

  /** The "left" pill: `todayStats.totalTasks - todayStats.completedTasks`. */
  function LeftCount(stats: DayStats): int {
    stats.totalTasks - stats.completedTasks
  }

  /** For today's own snapshot the "left" pill is the number of pending tasks. */
  lemma LeftIsPending(tasks: seq<Task>, todayKey: string)
    ensures LeftCount(DayMetrics.TodayStats(tasks, todayKey)) == PendingCount(tasks)
  {
    PendingPlusCompleted(tasks);
  }

  /** The widgets are drawn only when there is at least one task. */
  predicate ShowsWidgets(tasks: seq<Task>) {
    |tasks| > 0
  }

  /** When the widgets show and nothing is next, the day is done: no pending task, no minute left. */
  lemma NothingNextMeansDone(tasks: seq<Task>)
    requires ShowsWidgets(tasks) && NextTask(tasks).None?
    ensures PendingCount(tasks) == 0 && TotalMinutes(tasks) == 0 && CriticalPending(tasks) == 0
    ensures DayMetrics.CompletedCount(tasks) == |tasks|
  {
    AllDoneMinutes(tasks);
    PendingPlusCompleted(tasks);
    CriticalPendingBounds(tasks);
  }

  // ---------------------------------------------------------------------------
  // Streak widget
  // ---------------------------------------------------------------------------

  /** `streakLabel`. */
  function StreakLabel(streak: nat): string {
    if streak == 0 then "No streak yet" else if streak == 1 then "1 day" else NatToString(streak) + " days"
  }

  /** Only streaks of two days or more get a plural label. */
  lemma LabelPlural(n: nat)
    ensures |StreakLabel(n)| > 0
    ensures StreakLabel(n)[|StreakLabel(n)| - 1] == 's' <==> n >= 2
  {
  }

  /** The label names the streak: different streaks get different labels. */
  lemma StreakLabelInjective(m: nat, n: nat)
    requires StreakLabel(m) == StreakLabel(n)
    ensures m == n
  {
    LabelPlural(m);
    LabelPlural(n);
    var a, b := StreakLabel(m), StreakLabel(n);
    if m >= 2 && n >= 2 {
      var x, y := NatToString(m), NatToString(n);
      assert |x| == |y|;
      assert x == a[..|x|] && y == b[..|y|];
      NatToStringInjective(m, n);
    }
  }

  /** The tiers that colour the widget: the plain accent, amber from 3 days, orange from 7. */
  datatype StreakTier = Plain | Amber | Orange

  function TierOf(streak: nat): (t: StreakTier)
    ensures t == Orange <==> streak >= 7
    ensures t == Amber <==> 3 <= streak < 7
    ensures t == Plain <==> streak < 3
  {
    if streak >= 7 then Orange else if streak >= 3 then Amber else Plain
  }

  /**
   * The fire line as the widget's literal has it: the fire emoji's UTF-8
   * bytes read once more as text, four characters U+00F0 U+0178 U+201D
   * U+00A5, then " On fire!".
   */
  const FireText := "\U{00F0}\U{0178}\U{201D}\U{00A5} On fire!"

  /** The goal line: the fire line from 7 days, otherwise the days left to a week. */
  function GoalText(streak: nat): string {
    if streak >= 7 then FireText else NatToString(7 - streak) + " to weekly goal"
  }

  /** Below a week the goal line counts down from 7 to 1, and only then does it name a number. */
  lemma GoalCountdown(streak: nat)
    ensures streak < 7 ==> GoalText(streak) == [DigitChar(7 - streak)] + " to weekly goal" && 1 <= 7 - streak <= 7
    ensures streak >= 7 <==> GoalText(streak)[0] == '\U{00F0}'
  {
    if streak < 7 {
      assert NatToString(7 - streak) == [DigitChar(7 - streak)];
    }
  }

  // ---------------------------------------------------------------------------
  // Time left
  // ---------------------------------------------------------------------------

  const MsPerHour := 3600000
  const MsPerMinute := 60000

  /** JavaScript's `%` for a positive divisor: the remainder takes the sign of the dividend. */
  function JsRem(a: int, b: int): (r: int)
    requires b > 0
    ensures a >= 0 ==> 0 <= r < b
    ensures a < 0 ==> -b < r <= 0
    ensures a >= 0 ==> r == a % b
  {
    if a >= 0 then a % b else -((-a) % b)
  }

  /** `Math.floor(x / y)` for a positive `y`: Dafny's `/` already rounds down then. */
  function FloorDiv(a: int, b: int): (q: int)
    requires b > 0
    ensures b * q <= a < b * q + b
  {
    a / b
  }

  /** `hoursLeft` and `minutesLeft` from the milliseconds to the end of the day. */
  function HoursLeft(diffMs: int): int {
    FloorDiv(diffMs, MsPerHour)
  }

  function MinutesLeft(diffMs: int): int {
    FloorDiv(JsRem(diffMs, MsPerHour), MsPerMinute)
  }

  /** For a non-negative difference the hours and minutes are the whole hours and the whole minutes after them. */
  lemma TimeLeftBounds(diffMs: int)
    requires diffMs >= 0
    ensures HoursLeft(diffMs) >= 0 && 0 <= MinutesLeft(diffMs) < 60
    ensures MsPerHour * HoursLeft(diffMs) + MsPerMinute * MinutesLeft(diffMs) <= diffMs
    ensures diffMs < MsPerHour * HoursLeft(diffMs) + MsPerMinute * MinutesLeft(diffMs) + MsPerMinute
  {
    var h, r := diffMs / MsPerHour, diffMs % MsPerHour;
    assert diffMs == MsPerHour * h + r;
    assert JsRem(diffMs, MsPerHour) == r;
  }

  /**
   * The milliseconds from `h:m:s` to 23:59:59 of the same day; the clock's
   * milliseconds are kept by `setHours(23, 59, 59)` and cancel out.
   */
  function MsToEndOfDay(h: nat, m: nat, s: nat): (d: int)
    requires h < 24 && m < 60 && s < 60
    ensures d >= 0
  {
    ((23 - h) * 3600 + (59 - m) * 60 + (59 - s)) * 1000
  }

  /** At `h:m:s` the widget shows `23 - h` hours and `59 - m` minutes. */
  lemma TimeLeftOfClock(h: nat, m: nat, s: nat)
    requires h < 24 && m < 60 && s < 60
    ensures HoursLeft(MsToEndOfDay(h, m, s)) == 23 - h
    ensures MinutesLeft(MsToEndOfDay(h, m, s)) == 59 - m
  {
    var d := MsToEndOfDay(h, m, s);
    var rest := (59 - m) * MsPerMinute + (59 - s) * 1000;
    assert d == MsPerHour * (23 - h) + rest;
    DayMetrics.DivUnique(d, MsPerHour, 23 - h, rest);
    assert JsRem(d, MsPerHour) == rest by {
      assert d % MsPerHour == d - MsPerHour * (d / MsPerHour);
    }
    DayMetrics.DivUnique(rest, MsPerMinute, 59 - m, (59 - s) * 1000);
  }

  datatype Urgency = CriticalUrgency | WarningUrgency | NormalUrgency

  /** `urgency`: critical up to 3 hours left, warning up to 6, normal beyond. */
  function UrgencyOf(hours: int): (u: Urgency)
    ensures u == CriticalUrgency <==> hours <= 3
    ensures u == WarningUrgency <==> 3 < hours <= 6
    ensures u == NormalUrgency <==> hours > 6
  {
    if hours <= 3 then CriticalUrgency else if hours <= 6 then WarningUrgency else NormalUrgency
  }

  /** From 17:00 on the urgency is at least a warning, and from 20:00 on it is critical. */
  lemma UrgencyByClock(h: nat, m: nat, s: nat)
    requires h < 24 && m < 60 && s < 60
    ensures UrgencyOf(HoursLeft(MsToEndOfDay(h, m, s))) == CriticalUrgency <==> h >= 20
    ensures UrgencyOf(HoursLeft(MsToEndOfDay(h, m, s))) == NormalUrgency <==> h < 17
  {
    TimeLeftOfClock(h, m, s);
  }
}

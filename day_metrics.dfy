/**
 * What the provider derives from today's task list and the stored day
 * statistics: today's snapshot with its integer percentage, the per-category
 * tally, and the completion streak.
 */
module DayMetrics {
  import opened Wrappers
  import opened TaskTypes

  /** `tasks.filter(t => t.completed).length`. */
  function CompletedCount(tasks: seq<Task>): (n: nat)
    ensures n <= |tasks|
  {
    if tasks == [] then 0 else (if tasks[0].completed then 1 else 0) + CompletedCount(tasks[1..])
  }

  lemma {:induction false} CompletedCountAppend(a: seq<Task>, b: seq<Task>)
    ensures CompletedCount(a + b) == CompletedCount(a) + CompletedCount(b)
    decreases |a|
  {
    if a == [] {
      assert a + b == b;
    } else {
      assert (a + b)[1..] == a[1..] + b;
      CompletedCountAppend(a[1..], b);
    }
  }

  /** `Math.round(completed / total * 100)` for `total > 0`, as round-half-up on integers. */
  function Percent(completed: nat, total: nat): (rate: nat)
    requires completed <= total && total > 0
    ensures rate <= 100
    ensures 2 * total * rate <= 200 * completed + total < 2 * total * rate + 2 * total
  {
    PercentBounds(completed, total);
    (200 * completed + total) / (2 * total)
  }

  lemma PercentBounds(completed: nat, total: nat)
    requires completed <= total && total > 0
    ensures (200 * completed + total) / (2 * total) <= 100
  {
    assert 200 * completed + total < 2 * total * 101 by {
      assert 200 * completed <= 200 * total;
    }
  }

  lemma DivUnique(a: int, b: int, q: int, r: int)
    requires b > 0 && a == b * q + r && 0 <= r < b
    ensures a / b == q
  {
    var q2, r2 := a / b, a % b;
    assert a == b * q2 + r2;
    if q2 > q {
      MulAtLeast(b, q2 - q);
    } else if q2 < q {
      MulAtLeast(b, q - q2);
    }
  }

  lemma MulAtLeast(b: int, k: int)
    requires b > 0 && k >= 1
    ensures b * k >= b
  {
    assert b * k == b + b * (k - 1);
  }

  /** The rate is exactly 100 when every task is done and exactly 0 when none is. */
  lemma PercentEnds(total: nat)
    requires total > 0
    ensures Percent(total, total) == 100 && Percent(0, total) == 0
  {
    DivUnique(200 * total + total, 2 * total, 100, total);
    DivUnique(200 * 0 + total, 2 * total, 0, total);
  }

  /** `todayStats`. */
  function TodayStats(tasks: seq<Task>, todayKey: string): (s: DayStats)
    ensures s.date == todayKey && s.totalTasks == |tasks| && s.completedTasks == CompletedCount(tasks)
    ensures 0 <= s.completedTasks <= s.totalTasks
    ensures 0 <= s.completionRate <= 100
    ensures tasks == [] ==> s.completionRate == 0
    ensures tasks != [] ==> s.completionRate == Percent(CompletedCount(tasks), |tasks|)
  {
    var total := |tasks|;
    var completed := CompletedCount(tasks);
    DayStats(todayKey, total, completed, if total > 0 then Percent(completed, total) else 0)
  }

  /** The stats upsert: nothing is written for an empty day, otherwise today's snapshot. */
  function StatsToPersist(tasks: seq<Task>, todayKey: string): (r: Option<DayStats>)
    ensures r.None? <==> tasks == []
    ensures r.Some? ==> r.value == TodayStats(tasks, todayKey) && r.value.totalTasks > 0
  {
    if |tasks| == 0 then None else Some(TodayStats(tasks, todayKey))
  }

  // ---------------------------------------------------------------------------
  // Streak
  // ---------------------------------------------------------------------------

  /** The length of the backward walk. */
  const StreakWindow := 365

  /** `stats.find(s => s.date === key)`. */
  function FindStat(stats: seq<DayStats>, key: string): (r: Option<DayStats>)
    ensures r.Some? ==> r.value in stats && r.value.date == key
    ensures r.None? ==> forall s :: s in stats ==> s.date != key
  {
    if stats == [] then None
    else if stats[0].date == key then Some(stats[0])
    else FindStat(stats[1..], key)
  }

  /** A day keeps the streak alive: a stat with at least one task and a positive rate. */
  predicate Qualifies(stat: Option<DayStats>) {
    stat.Some? && stat.value.totalTasks > 0 && stat.value.completionRate > 0
  }

  /** Whether the day `i` days back qualifies; `keyFor(i)` is that day's key. */
  predicate DayCounts(stats: seq<DayStats>, keyFor: nat -> string, i: nat) {
    Qualifies(FindStat(stats, keyFor(i)))
  }

  /** The count the walk adds from offset `i` on. */
  function StreakFrom(stats: seq<DayStats>, keyFor: nat -> string, i: nat): (n: nat)
    requires i <= StreakWindow
    ensures n <= StreakWindow - i
    decreases StreakWindow - i
  {
    if i == StreakWindow then 0
    else if DayCounts(stats, keyFor, i) then 1 + StreakFrom(stats, keyFor, i + 1)
    else if i == 0 then StreakFrom(stats, keyFor, i + 1)
    else 0
  }

  /**
   * `streak`: a walk back from today over at most 365 days that counts
   * qualifying days; today may be missing or empty without ending the walk,
   * any earlier day that does not qualify ends it.
   */
  method Streak(stats: seq<DayStats>, keyFor: nat -> string) returns (count: nat)
    ensures count == StreakFrom(stats, keyFor, 0)
  {
    count := 0;
    var i := 0;
    while i < StreakWindow
      invariant 0 <= i <= StreakWindow
      invariant count + StreakFrom(stats, keyFor, i) == StreakFrom(stats, keyFor, 0)
    {
      var stat := FindStat(stats, keyFor(i));
      if i == 0 && stat.None? {
        i := i + 1;
        continue;
      }
      if stat.Some? && stat.value.totalTasks > 0 && stat.value.completionRate > 0 {
        count := count + 1;
      } else if i > 0 {
        break;
      }
      i := i + 1;
    }
  }

  /** The days from offset `i` that the walk counts are a run of qualifying days ended by one that does not. */
  lemma {:induction false} StreakFromRun(stats: seq<DayStats>, keyFor: nat -> string, i: nat)
    requires 1 <= i <= StreakWindow
    ensures var n := StreakFrom(stats, keyFor, i);
      (forall j :: i <= j < i + n ==> DayCounts(stats, keyFor, j))
      && (i + n < StreakWindow ==> !DayCounts(stats, keyFor, i + n))
    decreases StreakWindow - i
  {
    if i < StreakWindow && DayCounts(stats, keyFor, i) {
      StreakFromRun(stats, keyFor, i + 1);
    }
  }

  /**
   * The streak is at most 365 days.  Today adds one when it qualifies and
   * never ends the walk; after it comes the longest run of qualifying days
   * starting yesterday.
   */
  lemma StreakShape(stats: seq<DayStats>, keyFor: nat -> string)
    ensures StreakFrom(stats, keyFor, 0) <= StreakWindow
    ensures var today := if DayCounts(stats, keyFor, 0) then 1 else 0;
      var run := StreakFrom(stats, keyFor, 0) - today;
      StreakFrom(stats, keyFor, 0) == today + StreakFrom(stats, keyFor, 1)
      && (forall j :: 1 <= j < 1 + run ==> DayCounts(stats, keyFor, j))
      && (1 + run < StreakWindow ==> !DayCounts(stats, keyFor, 1 + run))
  {
    StreakFromRun(stats, keyFor, 1);
  }

  /** Whatever today holds, a streak of qualifying days through yesterday is counted in full. */
  lemma StreakCountsRun(stats: seq<DayStats>, keyFor: nat -> string, k: nat)
    requires k < StreakWindow
    requires forall j :: 1 <= j <= k ==> DayCounts(stats, keyFor, j)
    ensures StreakFrom(stats, keyFor, 0) >= k
  {
    StreakRunLower(stats, keyFor, 1, k);
  }

  lemma {:induction false} StreakRunLower(stats: seq<DayStats>, keyFor: nat -> string, i: nat, k: nat)
    requires 1 <= i <= k + 1 && k < StreakWindow
    requires forall j :: i <= j <= k ==> DayCounts(stats, keyFor, j)
    ensures StreakFrom(stats, keyFor, i) >= k + 1 - i
    decreases k + 1 - i
  {
    if i <= k {
      StreakRunLower(stats, keyFor, i + 1, k);
    }
  }

  // ---------------------------------------------------------------------------
  // Category tally
  // ---------------------------------------------------------------------------

  datatype Tally = Tally(total: nat, completed: nat)

  /** The number of tasks in category `c`. */
  function CountIn(tasks: seq<Task>, c: TaskCategory): nat {
    if tasks == [] then 0 else (if tasks[0].category == c then 1 else 0) + CountIn(tasks[1..], c)
  }

  /** The number of completed tasks in category `c`. */
  function DoneIn(tasks: seq<Task>, c: TaskCategory): (n: nat)
    ensures n <= CountIn(tasks, c)
  {
    if tasks == [] then 0
    else (if tasks[0].category == c && tasks[0].completed then 1 else 0) + DoneIn(tasks[1..], c)
  }

  lemma {:induction false} CountsAppend(a: seq<Task>, t: Task, c: TaskCategory)
    ensures CountIn(a + [t], c) == CountIn(a, c) + (if t.category == c then 1 else 0)
    ensures DoneIn(a + [t], c) == DoneIn(a, c) + (if t.category == c && t.completed then 1 else 0)
    decreases |a|
  {
    if a == [] {
      assert (a + [t])[1..] == [];
    } else {
      assert (a + [t])[1..] == a[1..] + [t];
      CountsAppend(a[1..], t, c);
    }
  }

  lemma {:induction false} CountPositiveHasTask(tasks: seq<Task>, c: TaskCategory)
    ensures CountIn(tasks, c) > 0 <==> exists t :: t in tasks && t.category == c
    decreases |tasks|
  {
    if tasks != [] {
      CountPositiveHasTask(tasks[1..], c);
      if tasks[0].category != c {
        assert forall t :: t in tasks ==> t == tasks[0] || t in tasks[1..];
      }
    }
  }

  /**
   * `categoryStats`: one entry per category that has tasks, counting them and
   * the completed ones.  Categories with no task have no entry.
   */
  method CategoryStats(tasks: seq<Task>) returns (stats: map<TaskCategory, Tally>)
    ensures forall c :: c in stats <==> CountIn(tasks, c) > 0
    ensures forall c :: c in stats ==> stats[c] == Tally(CountIn(tasks, c), DoneIn(tasks, c))
  {
    stats := map[];
    var i := 0;
    while i < |tasks|
      invariant 0 <= i <= |tasks|
      invariant StatsOf(stats, tasks[..i])
    {
      var task := tasks[i];
      var cat := task.category;
      ghost var before := stats;
      if cat !in stats {
        stats := stats[cat := Tally(0, 0)];
      }
      var tally := stats[cat];
      tally := tally.(total := tally.total + 1);
      if task.completed {
        tally := tally.(completed := tally.completed + 1);
      }
      stats := stats[cat := tally];
      assert stats == before[cat := tally];
      TallyStep(before, tasks[..i], task, tally);
      assert tasks[..i + 1] == tasks[..i] + [task];
      i := i + 1;
    }
    assert tasks[..i] == tasks;
  }

  /** `stats` holds exactly the tallies of the categories that occur in `tasks`. */
  ghost predicate StatsOf(stats: map<TaskCategory, Tally>, tasks: seq<Task>) {
    && (forall c :: c in stats <==> CountIn(tasks, c) > 0)
    && (forall c :: c in stats ==> stats[c] == Tally(CountIn(tasks, c), DoneIn(tasks, c)))
  }

  /** Counting one more task bumps its category's entry, creating it at zero first. */
  lemma TallyStep(stats: map<TaskCategory, Tally>, done: seq<Task>, task: Task, tally: Tally)
    requires StatsOf(stats, done)
    requires var prev := if task.category in stats then stats[task.category] else Tally(0, 0);
             tally == Tally(prev.total + 1, prev.completed + (if task.completed then 1 else 0))
    ensures StatsOf(stats[task.category := tally], done + [task])
  {
    forall c ensures CountIn(done + [task], c) == CountIn(done, c) + (if task.category == c then 1 else 0)
      && DoneIn(done + [task], c) == DoneIn(done, c) + (if task.category == c && task.completed then 1 else 0)
    {
      CountsAppend(done, task, c);
    }
  }

  const AllCategories: seq<TaskCategory> := [Work, Health, Personal, Learning, Errands, Social, Creative, Other]

  function SumCounts(tasks: seq<Task>, cs: seq<TaskCategory>): nat {
    if cs == [] then 0 else CountIn(tasks, cs[0]) + SumCounts(tasks, cs[1..])
  }

  function SumDone(tasks: seq<Task>, cs: seq<TaskCategory>): nat {
    if cs == [] then 0 else DoneIn(tasks, cs[0]) + SumDone(tasks, cs[1..])
  }

  function Occurrences(cs: seq<TaskCategory>, c: TaskCategory): nat {
    if cs == [] then 0 else (if cs[0] == c then 1 else 0) + Occurrences(cs[1..], c)
  }

  /** Splitting off the first task of the list in both sums. */
  lemma {:induction false} SumsStep(tasks: seq<Task>, cs: seq<TaskCategory>)
    requires tasks != []
    ensures SumCounts(tasks, cs) == SumCounts(tasks[1..], cs) + Occurrences(cs, tasks[0].category)
    ensures SumDone(tasks, cs) == SumDone(tasks[1..], cs) + (if tasks[0].completed then Occurrences(cs, tasks[0].category) else 0)
    decreases |cs|
  {
    if cs != [] {
      SumsStep(tasks, cs[1..]);
    }
  }

  lemma {:induction false} SumsEmpty(cs: seq<TaskCategory>)
    ensures SumCounts([], cs) == 0 && SumDone([], cs) == 0
    decreases |cs|
  {
    if cs != [] {
      SumsEmpty(cs[1..]);
    }
  }

  /** Each category appears once in the list of all categories. */
  lemma OnceEach(c: TaskCategory)
    ensures Occurrences(AllCategories, c) == 1
  {
    AllIndexed();
    OccurrencesIndexed(AllCategories, 0, c);
  }

  /** The list of all categories follows the union's order. */
  lemma AllIndexed()
    ensures forall i :: 0 <= i < |AllCategories| ==> CategoryIndex(AllCategories[i]) == i
  {
    var cs := AllCategories;
    assert CategoryIndex(cs[0]) == 0 && CategoryIndex(cs[1]) == 1 && CategoryIndex(cs[2]) == 2;
    assert CategoryIndex(cs[3]) == 3 && CategoryIndex(cs[4]) == 4 && CategoryIndex(cs[5]) == 5;
    assert CategoryIndex(cs[6]) == 6 && CategoryIndex(cs[7]) == 7;
  }

  /** In a run of consecutive positions of the union, a category occurs once if its position is in the run. */
  lemma {:induction false} OccurrencesIndexed(cs: seq<TaskCategory>, k: nat, c: TaskCategory)
    requires forall i :: 0 <= i < |cs| ==> CategoryIndex(cs[i]) == k + i
    ensures Occurrences(cs, c) == if k <= CategoryIndex(c) < k + |cs| then 1 else 0
    decreases |cs|
  {
    if cs != [] {
      assert forall i :: 0 <= i < |cs| - 1 ==> cs[1..][i] == cs[i + 1];
      OccurrencesIndexed(cs[1..], k + 1, c);
      CategoryIndexInjective(cs[0], c);
    }
  }

  lemma CategoryIndexInjective(a: TaskCategory, b: TaskCategory)
    ensures CategoryIndex(a) == CategoryIndex(b) ==> a == b
  {
  }

  /**
   * Summed over all categories, the totals give the number of tasks and the
   * completed counts the number of completed tasks.
   */
  lemma {:induction false} TalliesSum(tasks: seq<Task>)
    ensures SumCounts(tasks, AllCategories) == |tasks|
    ensures SumDone(tasks, AllCategories) == CompletedCount(tasks)
    decreases |tasks|
  {
    if tasks == [] {
      SumsEmpty(AllCategories);
    } else {
      TalliesSum(tasks[1..]);
      SumsStep(tasks, AllCategories);
      OnceEach(tasks[0].category);
    }
  }
}

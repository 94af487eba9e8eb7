/**
 * The category chip row: an "All" chip with the number of tasks, one chip
 * per category that has tasks, in the order of the category keys, and the
 * selection each press produces.
 */
module CategoryFilter {
  import opened Wrappers
  import opened TaskTypes
  import Categories
  import DayMetrics

  /** The per-category counts the chips read, as `categoryStats` produces them. */
  type Counts = map<TaskCategory, DayMetrics.Tally>

  /** The `total` of the entries for `keys`; a key without an entry adds nothing. */
  function SumTotals(counts: Counts, keys: seq<TaskCategory>): nat {
    if keys == [] then 0 else (if keys[0] in counts then counts[keys[0]].total else 0) + SumTotals(counts, keys[1..])
  }

  /**
   * `totalAll`: the totals of all entries.  Every key of the map is a
   * category and the category keys list each category once, so summing over
   * them visits each entry once.
   */
  function TotalAll(counts: Counts): nat {
    SumTotals(counts, Categories.CategoryKeys())
  }

  /** `categoryStats(tasks)` as its contract describes it. */
  predicate IsCategoryStats(counts: Counts, tasks: seq<Task>) {
    (forall c :: c in counts <==> DayMetrics.CountIn(tasks, c) > 0)
    && (forall c :: c in counts ==> counts[c] == DayMetrics.Tally(DayMetrics.CountIn(tasks, c), DayMetrics.DoneIn(tasks, c)))
  }

  lemma {:induction false} SumTotalsOfStats(counts: Counts, tasks: seq<Task>, keys: seq<TaskCategory>)
    requires IsCategoryStats(counts, tasks)
    ensures SumTotals(counts, keys) == DayMetrics.SumCounts(tasks, keys)
    decreases |keys|
  {
    if keys != [] {
      SumTotalsOfStats(counts, tasks, keys[1..]);
    }
  }

  /** Fed with the category tally of a task list, the "All" chip shows the number of tasks. */
  lemma TotalAllIsTaskCount(counts: Counts, tasks: seq<Task>)
    requires IsCategoryStats(counts, tasks)
    ensures TotalAll(counts) == |tasks|
  {
    Categories.KeysCoverCategories();
    assert Categories.CategoryKeys() == DayMetrics.AllCategories;
    SumTotalsOfStats(counts, tasks, DayMetrics.AllCategories);
    DayMetrics.TalliesSum(tasks);
  }

  /** Keys listed in the order of the `TaskCategory` union. */
  predicate InUnionOrder(keys: seq<TaskCategory>) {
    forall i, j :: 0 <= i < j < |keys| ==> CategoryIndex(keys[i]) < CategoryIndex(keys[j])
  }

  /** Whether a chip is drawn for `key`: `counts[key]?.total > 0`, false without an entry. */
  predicate HasTasks(counts: Counts, key: TaskCategory) {
    key in counts && counts[key].total > 0
  }

  /** `keys.filter(key => counts[key]?.total > 0)`. */
  function FilterKeys(counts: Counts, keys: seq<TaskCategory>): (r: seq<TaskCategory>)
    ensures |r| <= |keys|
    ensures forall c :: c in r <==> c in keys && HasTasks(counts, c)
    ensures InUnionOrder(keys) ==> InUnionOrder(r)
  {
    if keys == [] then []
    else
      var rest := FilterKeys(counts, keys[1..]);
      assert forall c :: c in keys <==> c == keys[0] || c in keys[1..];
      if HasTasks(counts, keys[0]) then
        assert InUnionOrder(keys) ==> forall c :: c in rest ==> CategoryIndex(keys[0]) < CategoryIndex(c);
        [keys[0]] + rest
      else rest
  }

  /** The category keys are in the order of the union. */
  lemma KeysInUnionOrder()
    ensures InUnionOrder(Categories.CategoryKeys())
  {
    Categories.KeysCoverCategories();
    var keys := Categories.CategoryKeys();
    assert keys[0] == Work && keys[1] == Health && keys[2] == Personal && keys[3] == Learning;
    assert keys[4] == Errands && keys[5] == Social && keys[6] == Creative && keys[7] == Other;
    assert forall i :: 0 <= i < |keys| ==> CategoryIndex(keys[i]) == i;
  }

  /** The chips after "All": exactly the categories with tasks, in the order of the category keys. */
  function VisibleChips(counts: Counts): (r: seq<TaskCategory>)
    ensures forall c :: c in r <==> HasTasks(counts, c)
    ensures InUnionOrder(r)
  {
    Categories.KeysCoverCategories();
    KeysInUnionOrder();
    FilterKeys(counts, Categories.CategoryKeys())
  }

  /** For the tally of a task list, a category has a chip iff some task is in it. */
  lemma ChipsOfStats(counts: Counts, tasks: seq<Task>, c: TaskCategory)
    requires IsCategoryStats(counts, tasks)
    ensures c in VisibleChips(counts) <==> exists t :: t in tasks && t.category == c
  {
    DayMetrics.CountPositiveHasTask(tasks, c);
  }

  /** Pressing the chip of `key`: select it, or clear the selection if it was selected. */
  function PressChip(selected: Option<TaskCategory>, key: TaskCategory): (r: Option<TaskCategory>)
    ensures r.None? <==> selected == Some(key)
    ensures r.Some? ==> r.value == key
  {
    if selected == Some(key) then None else Some(key)
  }

  /** Pressing "All" always clears the selection. */
  function PressAll(selected: Option<TaskCategory>): (r: Option<TaskCategory>)
    ensures r.None?
  {
    None
  }

  /** The "All" chip is highlighted when nothing is selected (`!selected`). */
  predicate AllHighlighted(selected: Option<TaskCategory>) {
    selected.None?
  }

  /** A category chip is highlighted when it is the selection (`selected === key`). */
  predicate ChipHighlighted(selected: Option<TaskCategory>, key: TaskCategory) {
    selected == Some(key)
  }

  /**
   * Exactly one chip is highlighted at any time, and pressing a chip twice
   * from no selection comes back to no selection.
   */
  lemma OneHighlight(selected: Option<TaskCategory>, key: TaskCategory)
    ensures AllHighlighted(selected) <==> forall c :: !ChipHighlighted(selected, c)
    ensures forall c, d :: ChipHighlighted(selected, c) && ChipHighlighted(selected, d) ==> c == d
    ensures PressChip(PressChip(None, key), key) == None
    ensures ChipHighlighted(PressChip(selected, key), key) <==> !ChipHighlighted(selected, key)
  {
    if selected.Some? {
      assert ChipHighlighted(selected, selected.value);
    }
  }
}

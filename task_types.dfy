/**
 * The records of a planned day: tasks with their checklist, the per-day
 * statistics snapshot and the application settings, with the closed string
 * unions of the program (priority, category, toxicity level, theme) as
 * enumerations.  Each union keeps its spelling through a name table, and
 * the lemmas below say that the table lists exactly the union's values.
 */
module TaskTypes {
  import opened Wrappers

  datatype Priority = Low | Medium | High | Critical
  datatype TaskCategory = Work | Health | Personal | Learning | Errands | Social | Creative | Other
  datatype ToxicLevel = Mild | Spicy | Brutal
  datatype Theme = Dark | Light

  /** A checklist item owned by one task. */
  datatype SubTask = SubTask(id: string, title: string, completed: bool)

  /**
   * A unit of planned work for one day.  Every field is required except
   * `completedAt`; `order` is the insertion order within the day.
   */
  datatype Task = Task(
    id: string,
    title: string,
    description: string,
    timeSlot: string,
    duration: int,
    completed: bool,
    priority: Priority,
    category: TaskCategory,
    subtasks: seq<SubTask>,
    notes: string,
    createdAt: string,
    completedAt: Option<string>,
    order: int)

  /** What a caller hands to `addTask`: a task without `id`, `createdAt` and `order`. */
  datatype TaskDraft = TaskDraft(
    title: string,
    description: string,
    timeSlot: string,
    duration: int,
    completed: bool,
    priority: Priority,
    category: TaskCategory,
    subtasks: seq<SubTask>,
    notes: string,
    completedAt: Option<string>)

  /**
   * A `Partial<Task>`: `None` leaves a field as it is.  `completedAt` may be
   * given as `undefined`, which the object spread copies, so it is
   * `Some(None)` there.
   */
  datatype TaskPatch = TaskPatch(
    title: Option<string>,
    description: Option<string>,
    timeSlot: Option<string>,
    duration: Option<int>,
    completed: Option<bool>,
    priority: Option<Priority>,
    category: Option<TaskCategory>,
    subtasks: Option<seq<SubTask>>,
    notes: Option<string>,
    completedAt: Option<Option<string>>)

  const EmptyPatch := TaskPatch(None, None, None, None, None, None, None, None, None, None)

  /** The persisted snapshot of one day: exactly these four fields. */
  datatype DayStats = DayStats(date: string, totalTasks: int, completedTasks: int, completionRate: int)

  datatype AppSettings = AppSettings(
    toxicLevel: ToxicLevel,
    showSubtasks: bool,
    hapticFeedback: bool,
    dailyRecapEnabled: bool,
    theme: Theme)

  const DefaultSettings := AppSettings(Spicy, true, true, true, Dark)

  // ---------------------------------------------------------------------------
  // Spellings of the unions
  // ---------------------------------------------------------------------------

  const PriorityNames: seq<string> := ["low", "medium", "high", "critical"]
  const CategoryNames: seq<string> :=
    ["work", "health", "personal", "learning", "errands", "social", "creative", "other"]
  const ToxicLevelNames: seq<string> := ["mild", "spicy", "brutal"]

  function PriorityIndex(p: Priority): (i: nat)
    ensures i < |PriorityNames|
  {
    match p
    case Low => 0
    case Medium => 1
    case High => 2
    case Critical => 3
  }

  function CategoryIndex(c: TaskCategory): (i: nat)
    ensures i < |CategoryNames|
  {
    match c
    case Work => 0
    case Health => 1
    case Personal => 2
    case Learning => 3
    case Errands => 4
    case Social => 5
    case Creative => 6
    case Other => 7
  }

  function ToxicLevelIndex(l: ToxicLevel): (i: nat)
    ensures i < |ToxicLevelNames|
  {
    match l
    case Mild => 0
    case Spicy => 1
    case Brutal => 2
  }

  function PriorityName(p: Priority): string { PriorityNames[PriorityIndex(p)] }
  function CategoryName(c: TaskCategory): string { CategoryNames[CategoryIndex(c)] }
  function ToxicLevelName(l: ToxicLevel): string { ToxicLevelNames[ToxicLevelIndex(l)] }

  /** Reads a priority spelling; anything outside the union is `None`. */
  function ParsePriority(s: string): (r: Option<Priority>)
    ensures r.Some? ==> PriorityName(r.value) == s
  {
    if s == "low" then Some(Low)
    else if s == "medium" then Some(Medium)
    else if s == "high" then Some(High)
    else if s == "critical" then Some(Critical)
    else None
  }

  /** Reads a category spelling; anything outside the union is `None`. */
  function ParseCategory(s: string): (r: Option<TaskCategory>)
    ensures r.Some? ==> CategoryName(r.value) == s
  {
    if s == "work" then Some(Work)
    else if s == "health" then Some(Health)
    else if s == "personal" then Some(Personal)
    else if s == "learning" then Some(Learning)
    else if s == "errands" then Some(Errands)
    else if s == "social" then Some(Social)
    else if s == "creative" then Some(Creative)
    else if s == "other" then Some(Other)
    else None
  }

  /** Reads a toxicity-level spelling; anything outside the union is `None`. */
  function ParseToxicLevel(s: string): (r: Option<ToxicLevel>)
    ensures r.Some? ==> ToxicLevelName(r.value) == s
  {
    if s == "mild" then Some(Mild)
    else if s == "spicy" then Some(Spicy)
    else if s == "brutal" then Some(Brutal)
    else None
  }

  /** `priority` takes exactly the four values low, medium, high, critical. */
  lemma PriorityUnion(s: string)
    ensures ParsePriority(s).Some? <==> s in PriorityNames
    ensures forall p: Priority :: ParsePriority(PriorityName(p)) == Some(p)
    ensures |PriorityNames| == 4
    ensures forall i, j :: 0 <= i < j < |PriorityNames| ==> PriorityNames[i] != PriorityNames[j]
  {
  }

  /** `TaskCategory` takes exactly the eight values work … other. */
  lemma CategoryUnion(s: string)
    ensures ParseCategory(s).Some? <==> s in CategoryNames
    ensures forall c: TaskCategory :: ParseCategory(CategoryName(c)) == Some(c)
    ensures |CategoryNames| == 8
    ensures forall i, j :: 0 <= i < j < |CategoryNames| ==> CategoryNames[i] != CategoryNames[j]
  {
  }

  /** `ToxicLevel` takes exactly the three values mild, spicy, brutal. */
  lemma ToxicLevelUnion(s: string)
    ensures ParseToxicLevel(s).Some? <==> s in ToxicLevelNames
    ensures forall l: ToxicLevel :: ParseToxicLevel(ToxicLevelName(l)) == Some(l)
    ensures |ToxicLevelNames| == 3
    ensures forall i, j :: 0 <= i < j < |ToxicLevelNames| ==> ToxicLevelNames[i] != ToxicLevelNames[j]
  {
  }
}

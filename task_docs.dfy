/**
 * The mapping between tasks and settings and the documents the database
 * stores for them.  An attribute the document lacks (undefined or null) is
 * `None`; a union-typed attribute holding `''` is `None` as well, since the
 * readers treat both alike.  The system attributes `$id` and `$createdAt`
 * are set by the database and come back with every document.
 */
module TaskDocs {
  import opened Wrappers
  import opened JsText
  import opened TaskTypes
  import SubtaskJson

  /** The attributes written for one task. */
  datatype TaskBody = TaskBody(
    title: string,
    description: Option<string>,
    timeSlot: Option<string>,
    duration: Option<int>,
    completed: Option<bool>,
    priority: Option<Priority>,
    category: Option<TaskCategory>,
    notes: Option<string>,
    createdAt: Option<string>,
    completedAt: Option<string>,
    order: Option<int>,
    dateKey: string,
    subtasksJson: Option<string>)

  /** A stored task document: system attributes and the written ones. */
  datatype TaskDoc = TaskDoc(id: string, systemCreatedAt: string, body: TaskBody)

  /** `taskToDoc(task, dateKey)`; a task's duration is an integer, so `Math.round` keeps it. */
  function TaskToDoc(task: Task, dateKey: string): (b: TaskBody)
    ensures b.dateKey == dateKey && b.order == Some(task.order)
    ensures b.completedAt.Some? && (b.completedAt.value == "" <==> task.completedAt.None? || task.completedAt == Some(""))
    ensures b.subtasksJson == Some(SubtaskJson.Encode(task.subtasks))
  {
    TaskBody(
      task.title,
      Some(OrString(Some(task.description), "")),
      Some(OrString(Some(task.timeSlot), "")),
      Some(task.duration),
      Some(task.completed),
      Some(task.priority),
      Some(task.category),
      Some(OrString(Some(task.notes), "")),
      Some(task.createdAt),
      Some(OrString(task.completedAt, "")),
      Some(task.order),
      dateKey,
      Some(SubtaskJson.Encode(task.subtasks)))
  }

  /**
   * `docToTask(doc)`, with its defaults: '' for the texts, 30 minutes,
   * not completed, medium priority, category other, order 0, the system
   * creation time when `createdAt` is empty, no completion time when it is
   * empty, and no subtasks when the JSON attribute is empty.  `None` where
   * `JSON.parse` of the subtask attribute would throw.
   */
  function DocToTask(doc: TaskDoc): (r: Option<Task>)
    ensures r.Some? ==> r.value.id == doc.id && r.value.title == doc.body.title
    ensures r.Some? ==> r.value.completedAt != Some("")
    ensures r.None? <==> OrString(doc.body.subtasksJson, "") != "" && SubtaskJson.Decode(doc.body.subtasksJson.value).None?
  {
    var b := doc.body;
    var subtasks :=
      if OrString(b.subtasksJson, "") != "" then SubtaskJson.Decode(b.subtasksJson.value) else Some([]);
    match subtasks
    case None => None
    case Some(subs) =>
      Some(Task(
        doc.id,
        b.title,
        OrString(b.description, ""),
        OrString(b.timeSlot, ""),
        b.duration.GetOr(30),
        b.completed.GetOr(false),
        b.priority.GetOr(Medium),
        b.category.GetOr(Other),
        subs,
        OrString(b.notes, ""),
        OrString(b.createdAt, doc.systemCreatedAt),
        if OrString(b.completedAt, "") != "" then b.completedAt else None,
        b.order.GetOr(0)))
  }

  /** What a task looks like after a trip through the database. */
  function Stored(t: Task, systemCreatedAt: string): Task {
    t.(createdAt := if t.createdAt == "" then systemCreatedAt else t.createdAt,
       completedAt := if t.completedAt == Some("") then None else t.completedAt)
  }

  /**
   * A task is written with all of its fields, so reading it back returns it
   * as it was, except that an empty creation time becomes the system one and
   * an empty completion time becomes absent.
   */
  lemma ReadWritten(t: Task, systemCreatedAt: string, dateKey: string)
    ensures DocToTask(TaskDoc(t.id, systemCreatedAt, TaskToDoc(t, dateKey))) == Some(Stored(t, systemCreatedAt))
  {
    SubtaskJson.DecodeEncode(t.subtasks);
  }

  /** The fields `docToTask` can give back unchanged: a creation time, and a completion time only when non-empty. */
  predicate WellFormed(t: Task) {
    t.createdAt != "" && t.completedAt != Some("")
  }

  /** `docToTask(taskToDoc(t))`, with `$id` the task's id, is the task itself exactly when it is well formed. */
  lemma RoundTrip(t: Task, systemCreatedAt: string, dateKey: string)
    requires systemCreatedAt != ""
    ensures DocToTask(TaskDoc(t.id, systemCreatedAt, TaskToDoc(t, dateKey))) == Some(t) <==> WellFormed(t)
  {
    ReadWritten(t, systemCreatedAt, dateKey);
  }

  /** A document holding only a title reads with every default. */
  lemma ReadDefaults(id: string, sys: string, title: string, dateKey: string)
    ensures DocToTask(TaskDoc(id, sys, TaskBody(title, None, None, None, None, None, None, None, None, None, None, dateKey, None)))
      == Some(Task(id, title, "", "", 30, false, Medium, Other, [], "", sys, None, 0))
  {
  }

  /** `listDocuments(…).documents.map(docToTask)`; a throw anywhere makes the whole load fail. */
  function DocsToTasks(docs: seq<TaskDoc>): (r: Option<seq<Task>>)
    ensures r.Some? ==> |r.value| == |docs|
    ensures r.Some? ==> forall i :: 0 <= i < |docs| ==> DocToTask(docs[i]) == Some(r.value[i])
    ensures r.None? <==> exists i :: 0 <= i < |docs| && DocToTask(docs[i]).None?
  {
    if docs == [] then Some([])
    else
      match (DocToTask(docs[0]), DocsToTasks(docs[1..]))
      case (Some(t), Some(ts)) => Some([t] + ts)
      case (Some(_), None) =>
        assert exists i :: 0 <= i < |docs| - 1 && DocToTask(docs[1..][i]).None?;
        None
      case (None, _) => None
  }

  /**
   * The task query (`queryFn` of the `tasks` query, and `loadHistoryTasks`):
   * the documents of the day in stored order, or the empty list when the
   * listing fails or a document cannot be read.
   */
  function LoadTasks(listed: Option<seq<TaskDoc>>): (r: seq<Task>)
    ensures listed.None? ==> r == []
    ensures listed.Some? && DocsToTasks(listed.value).Some? ==> r == DocsToTasks(listed.value).value
    ensures listed.Some? && DocsToTasks(listed.value).None? ==> r == []
  {
    match listed
    case None => []
    case Some(docs) => DocsToTasks(docs).GetOr([])
  }

  // ---------------------------------------------------------------------------
  // Settings
  // ---------------------------------------------------------------------------

  datatype SettingsDoc = SettingsDoc(
    toxicLevel: Option<ToxicLevel>,
    showSubtasks: Option<bool>,
    hapticFeedback: Option<bool>,
    dailyRecapEnabled: Option<bool>,
    theme: Option<Theme>)

  /** `docToSettings(doc)`: each absent attribute takes its value from `DEFAULT_SETTINGS`. */
  function DocToSettings(doc: SettingsDoc): (s: AppSettings)
    ensures doc.toxicLevel.Some? ==> s.toxicLevel == doc.toxicLevel.value
    ensures doc.toxicLevel.None? ==> s.toxicLevel == DefaultSettings.toxicLevel
    ensures doc.showSubtasks.Some? ==> s.showSubtasks == doc.showSubtasks.value
    ensures doc.showSubtasks.None? ==> s.showSubtasks == DefaultSettings.showSubtasks
    ensures doc.hapticFeedback.Some? ==> s.hapticFeedback == doc.hapticFeedback.value
    ensures doc.hapticFeedback.None? ==> s.hapticFeedback == DefaultSettings.hapticFeedback
    ensures doc.dailyRecapEnabled.Some? ==> s.dailyRecapEnabled == doc.dailyRecapEnabled.value
    ensures doc.dailyRecapEnabled.None? ==> s.dailyRecapEnabled == DefaultSettings.dailyRecapEnabled
    ensures doc.theme.Some? ==> s.theme == doc.theme.value
    ensures doc.theme.None? ==> s.theme == DefaultSettings.theme
  {
    AppSettings(
      doc.toxicLevel.GetOr(DefaultSettings.toxicLevel),
      doc.showSubtasks.GetOr(DefaultSettings.showSubtasks),
      doc.hapticFeedback.GetOr(DefaultSettings.hapticFeedback),
      doc.dailyRecapEnabled.GetOr(DefaultSettings.dailyRecapEnabled),
      doc.theme.GetOr(DefaultSettings.theme))
  }

  /** The five attributes written for a settings record. */
  function SettingsToDoc(s: AppSettings): SettingsDoc {
    SettingsDoc(Some(s.toxicLevel), Some(s.showSubtasks), Some(s.hapticFeedback), Some(s.dailyRecapEnabled), Some(s.theme))
  }

  /** Written settings read back unchanged, and an empty document reads as the defaults. */
  lemma SettingsRoundTrip(s: AppSettings)
    ensures DocToSettings(SettingsToDoc(s)) == s
    ensures DocToSettings(SettingsDoc(None, None, None, None, None)) == DefaultSettings
  {
  }

  /** The defaults are `'spicy'`, all three switches on, and the dark theme. */
  lemma DefaultSettingsValues()
    ensures DefaultSettings.toxicLevel == Spicy && ToxicLevelName(DefaultSettings.toxicLevel) == "spicy"
    ensures DefaultSettings.showSubtasks && DefaultSettings.hapticFeedback && DefaultSettings.dailyRecapEnabled
    ensures DefaultSettings.theme == Dark
  {
  }

  /**
   * The settings query: the stored document when it can be fetched;
   * otherwise a document with the defaults is created and read back, and if
   * that fails too the defaults are used.  Either way the result is then
   * the defaults.
   */
  function LoadSettings(fetched: Option<SettingsDoc>, createOk: bool): (s: AppSettings)
    ensures fetched.Some? ==> s == DocToSettings(fetched.value)
    ensures fetched.None? ==> s == DefaultSettings
  {
    match fetched
    case Some(doc) => DocToSettings(doc)
    case None =>
      if createOk then DocToSettings(SettingsToDoc(DefaultSettings)) else DefaultSettings
  }

  /** A `Partial<AppSettings>`. */
  datatype SettingsPatch = SettingsPatch(
    toxicLevel: Option<ToxicLevel>,
    showSubtasks: Option<bool>,
    hapticFeedback: Option<bool>,
    dailyRecapEnabled: Option<bool>,
    theme: Option<Theme>)

  /** `{ ...settings, ...updates }`. */
  function MergeSettings(s: AppSettings, u: SettingsPatch): (r: AppSettings)
    ensures u.toxicLevel.Some? ==> r.toxicLevel == u.toxicLevel.value
    ensures u.toxicLevel.None? ==> r.toxicLevel == s.toxicLevel
    ensures u.theme.Some? ==> r.theme == u.theme.value
    ensures u.theme.None? ==> r.theme == s.theme
    ensures u.showSubtasks.Some? ==> r.showSubtasks == u.showSubtasks.value
    ensures u.showSubtasks.None? ==> r.showSubtasks == s.showSubtasks
    ensures u.hapticFeedback.Some? ==> r.hapticFeedback == u.hapticFeedback.value
    ensures u.hapticFeedback.None? ==> r.hapticFeedback == s.hapticFeedback
    ensures u.dailyRecapEnabled.Some? ==> r.dailyRecapEnabled == u.dailyRecapEnabled.value
    ensures u.dailyRecapEnabled.None? ==> r.dailyRecapEnabled == s.dailyRecapEnabled
  {
    AppSettings(
      u.toxicLevel.GetOr(s.toxicLevel),
      u.showSubtasks.GetOr(s.showSubtasks),
      u.hapticFeedback.GetOr(s.hapticFeedback),
      u.dailyRecapEnabled.GetOr(s.dailyRecapEnabled),
      u.theme.GetOr(s.theme))
  }

  /** Merging nothing keeps the settings, and merging a second patch overrides the first field by field. */
  lemma MergeSettingsLaws(s: AppSettings, u: SettingsPatch, v: SettingsPatch)
    ensures MergeSettings(s, SettingsPatch(None, None, None, None, None)) == s
    ensures MergeSettings(MergeSettings(s, u), v) == MergeSettings(s, SettingsPatch(
      if v.toxicLevel.Some? then v.toxicLevel else u.toxicLevel,
      if v.showSubtasks.Some? then v.showSubtasks else u.showSubtasks,
      if v.hapticFeedback.Some? then v.hapticFeedback else u.hapticFeedback,
      if v.dailyRecapEnabled.Some? then v.dailyRecapEnabled else u.dailyRecapEnabled,
      if v.theme.Some? then v.theme else u.theme))
  {
  }
}

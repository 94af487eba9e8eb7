/**
 * The provider's state: today's cached task list, the last toxic message,
 * the recap text, the busy flags and the settings, changed by the actions
 * the screens call.  Every database call is a `remoteOk` argument, the AI
 * results are input values, ids and timestamps are parameters, and a random
 * pick is a real `r` in [0, 1).
 */
module TaskProvider {
  import opened Wrappers
  import opened JsText
  import opened TaskTypes
  import opened TaskList
  import opened TaskDocs
  import opened ToxicMessages
  import DayMetrics

  /** One task of an AI plan, as the plan schema describes it. */
  datatype PlanItem = PlanItem(
    title: string,
    description: string,
    timeSlot: string,
    duration: real,
    priority: Priority,
    category: TaskCategory,
    subtasks: seq<string>)

  /** The outcome of `generateObject`: a plan and its quote, or a thrown error. */
  datatype PlanOutcome = PlanFailed | Plan(items: seq<PlanItem>, toxicQuote: string)

  /** The outcome of `generateText`. */
  datatype RecapOutcome = RecapFailed | RecapText(text: string)

  const RecapFallback := "Couldn't generate recap. Just like you couldn't finish your tasks."

  /** `Math.round(x)`: the nearest integer, halves rounded up. */
  function Round(x: real): (n: int)
    ensures n as real - 0.5 <= x < n as real + 0.5
  {
    (x + 0.5).Floor
  }

  /** The task `addTask` builds from a draft. */
  function NewTask(d: TaskDraft, id: string, now: string, order: int): (t: Task)
    ensures t.id == id && t.createdAt == now && t.order == order
    ensures t.title == d.title && t.completed == d.completed && t.subtasks == d.subtasks && t.completedAt == d.completedAt
    ensures t.description == d.description && t.timeSlot == d.timeSlot && t.duration == d.duration
    ensures t.priority == d.priority && t.category == d.category && t.notes == d.notes
  {
    Task(id, d.title, d.description, d.timeSlot, d.duration, d.completed, d.priority, d.category,
         d.subtasks, d.notes, now, d.completedAt, order)
  }

  /** The checklist of a plan task: ids `sub_<index>_<stamp>`, none completed. */
  function PlanSubtasks(titles: seq<string>, from: nat, stamp: string): (r: seq<SubTask>)
    ensures |r| == |titles|
    ensures forall i :: 0 <= i < |r| ==>
      r[i] == SubTask("sub_" + NatToString(from + i) + "_" + stamp, titles[i], false)
    decreases |titles|
  {
    if titles == [] then []
    else [SubTask("sub_" + NatToString(from) + "_" + stamp, titles[0], false)] + PlanSubtasks(titles[1..], from + 1, stamp)
  }

  /** The tasks of a plan, the `i`-th one with id `idFor(i)` and order `base + i`. */
  function PlanTasks(items: seq<PlanItem>, base: int, from: nat, idFor: nat -> string, stamp: string, now: string): (r: seq<Task>)
    ensures |r| == |items|
    ensures forall i :: 0 <= i < |r| ==>
      var it := items[i];
      r[i] == Task(idFor(from + i), it.title, it.description, it.timeSlot, Round(it.duration), false,
                   it.priority, it.category, PlanSubtasks(it.subtasks, 0, stamp), "", now, None, base + from + i)
    decreases |items|
  {
    if items == [] then []
    else
      var it := items[0];
      [Task(idFor(from), it.title, it.description, it.timeSlot, Round(it.duration), false,
            it.priority, it.category, PlanSubtasks(it.subtasks, 0, stamp), "", now, None, base + from)]
      + PlanTasks(items[1..], base, from + 1, idFor, stamp, now)
  }

  /** A plan's tasks are all open, with open checklists, and take the next orders in turn. */
  lemma PlanTasksFresh(items: seq<PlanItem>, base: int, idFor: nat -> string, stamp: string, now: string)
    ensures var r := PlanTasks(items, base, 0, idFor, stamp, now);
      |r| == |items|
      && DayMetrics.CompletedCount(r) == 0
      && (forall i :: 0 <= i < |r| ==> r[i].order == base + i && r[i].title == items[i].title)
      && (forall i, j :: 0 <= i < |r| && 0 <= j < |r[i].subtasks| ==> !r[i].subtasks[j].completed)
  {
    var r := PlanTasks(items, base, 0, idFor, stamp, now);
    NoneCompleted(r);
  }

  lemma {:induction false} NoneCompleted(ts: seq<Task>)
    requires forall i :: 0 <= i < |ts| ==> !ts[i].completed
    ensures DayMetrics.CompletedCount(ts) == 0
    decreases |ts|
  {
    if ts != [] {
      NoneCompleted(ts[1..]);
    }
  }

  /** The update `toggleTask` writes: the new flag, and a completion time exactly when it is set. */
  function TogglePatch(completed: bool, now: string): (p: TaskPatch)
    ensures p.completed == Some(completed)
    ensures p.completedAt.Some? && (p.completedAt.value.Some? <==> completed)
    ensures p.title.None? && p.subtasks.None? && p.priority.None? && p.duration.None?
    ensures p.description.None? && p.timeSlot.None? && p.category.None? && p.notes.None?
  {
    EmptyPatch.(completed := Some(completed), completedAt := Some(if completed then Some(now) else None))
  }

  /**
   * The message for completing task `id`: from the all-done table of the
   * level when, with that task completed, every task of the list is,
   * otherwise from the task-complete table.
   */
  function CompletionMessage(tasks: seq<Task>, id: string, level: ToxicLevel, r: real): (m: string)
    requires 0.0 <= r < 1.0
    ensures AllCompleted(SetCompletedById(tasks, id, true)) ==> m in AllDoneMessages(level)
    ensures !AllCompleted(SetCompletedById(tasks, id, true)) ==> m in TaskCompleteMessages(level)
  {
    CompletionTablesNonEmpty(level);
    if AllCompleted(SetCompletedById(tasks, id, true)) then RandomMessage(AllDoneMessages(level), r)
    else RandomMessage(TaskCompleteMessages(level), r)
  }

  /** Completing the last open task is "all done"; while another task stays open it is not. */
  lemma AllDoneExactly(tasks: seq<Task>, id: string)
    ensures AllCompleted(SetCompletedById(tasks, id, true)) <==>
      forall i :: 0 <= i < |tasks| && tasks[i].id != id ==> tasks[i].completed
  {
    var u := SetCompletedById(tasks, id, true);
    assert forall i :: 0 <= i < |tasks| ==> (u[i].completed <==> tasks[i].id == id || tasks[i].completed);
  }

  class TaskStore {
    var tasks: seq<Task>
    var lastMessage: Option<string>
    var recapText: Option<string>
    var isGenerating: bool
    var isRecapping: bool
    var settings: AppSettings
    var todayKey: string

    /** The provider as it starts: no tasks loaded, no messages, default settings. */
    constructor (todayKey: string)
      ensures tasks == [] && lastMessage == None && recapText == None
      ensures !isGenerating && !isRecapping && settings == DefaultSettings && this.todayKey == todayKey
    {
      tasks := [];
      lastMessage := None;
      recapText := None;
      isGenerating := false;
      isRecapping := false;
      settings := DefaultSettings;
      this.todayKey := todayKey;
    }

    /**
     * `addTask`: on success the stored document is read back and appended,
     * with order equal to the old length; otherwise nothing changes.
     */
    method AddTask(draft: TaskDraft, id: string, now: string, systemCreatedAt: string, remoteOk: bool)
      modifies this
      ensures remoteOk ==> tasks == old(tasks) + [Stored(NewTask(draft, id, now, |old(tasks)|), systemCreatedAt)]
      ensures !remoteOk ==> tasks == old(tasks)
      ensures lastMessage == old(lastMessage) && recapText == old(recapText) && settings == old(settings)
      ensures todayKey == old(todayKey) && isGenerating == old(isGenerating) && isRecapping == old(isRecapping)
    {
      var newTask := NewTask(draft, id, now, |tasks|);
      if remoteOk {
        var doc := TaskDoc(newTask.id, systemCreatedAt, TaskToDoc(newTask, todayKey));
        ReadWritten(newTask, systemCreatedAt, todayKey);
        var saved := DocToTask(doc);
        tasks := tasks + [saved.value];
      }
    }

    /**
     * `updateTask`: the first task with the id, merged with the patch,
     * replaces every task with that id, on success; an unknown id or a
     * failed write changes nothing.
     */
    method UpdateTask(id: string, patch: TaskPatch, remoteOk: bool)
      modifies this
      ensures FindById(old(tasks), id).Some? && remoteOk ==>
        tasks == ReplaceById(old(tasks), id, Merge(FindById(old(tasks), id).value, patch))
      ensures FindById(old(tasks), id).None? || !remoteOk ==> tasks == old(tasks)
      ensures lastMessage == old(lastMessage) && recapText == old(recapText) && settings == old(settings)
      ensures todayKey == old(todayKey) && isGenerating == old(isGenerating) && isRecapping == old(isRecapping)
    {
      var found := FindById(tasks, id);
      if found.None? {
        return;
      }
      var updated := Merge(found.value, patch);
      if remoteOk {
        tasks := ReplaceById(tasks, id, updated);
      }
    }

    /** `deleteTask`: on success every task with the id is removed, the rest kept in order. */
    method DeleteTask(id: string, remoteOk: bool)
      modifies this
      ensures remoteOk ==> tasks == RemoveById(old(tasks), id)
      ensures !remoteOk ==> tasks == old(tasks)
      ensures lastMessage == old(lastMessage) && recapText == old(recapText) && settings == old(settings)
      ensures todayKey == old(todayKey) && isGenerating == old(isGenerating) && isRecapping == old(isRecapping)
    {
      if remoteOk {
        tasks := RemoveById(tasks, id);
      }
    }

    /**
     * `toggleTask`: flips `completed` of the task through `updateTask`, with a
     * completion time exactly when it becomes completed.  Completing sets the
     * completion message whether or not the write succeeded; re-opening sets
     * no message.
     */
    method ToggleTask(id: string, now: string, r: real, remoteOk: bool)
      requires 0.0 <= r < 1.0
      modifies this
      ensures FindById(old(tasks), id).None? ==> tasks == old(tasks) && lastMessage == old(lastMessage)
      ensures FindById(old(tasks), id).Some? && remoteOk ==>
        var t := FindById(old(tasks), id).value;
        tasks == ReplaceById(old(tasks), id, Merge(t, TogglePatch(!t.completed, now)))
      ensures !remoteOk ==> tasks == old(tasks)
      ensures FindById(old(tasks), id).Some? && FindById(old(tasks), id).value.completed ==> lastMessage == old(lastMessage)
      ensures FindById(old(tasks), id).Some? && !FindById(old(tasks), id).value.completed ==>
        lastMessage == Some(CompletionMessage(old(tasks), id, settings.toxicLevel, r))
      ensures recapText == old(recapText) && settings == old(settings) && todayKey == old(todayKey)
      ensures isGenerating == old(isGenerating) && isRecapping == old(isRecapping)
    {
      var before := tasks;
      var found := FindById(tasks, id);
      if found.None? {
        return;
      }
      var completed := !found.value.completed;
      UpdateTask(id, TogglePatch(completed, now), remoteOk);
      if completed {
        lastMessage := Some(CompletionMessage(before, id, settings.toxicLevel, r));
      }
    }

    /** `toggleSubtask`: the task's checklist with that item flipped, written through `updateTask`. */
    method ToggleSubtask(taskId: string, subtaskId: string, remoteOk: bool)
      modifies this
      ensures var found := FindById(old(tasks), taskId);
        found.Some? && remoteOk ==>
          tasks == ReplaceById(old(tasks), taskId,
                     found.value.(subtasks := FlipSubtask(found.value.subtasks, subtaskId)))
      ensures FindById(old(tasks), taskId).None? || !remoteOk ==> tasks == old(tasks)
      ensures lastMessage == old(lastMessage) && recapText == old(recapText) && settings == old(settings)
      ensures todayKey == old(todayKey) && isGenerating == old(isGenerating) && isRecapping == old(isRecapping)
    {
      var found := FindById(tasks, taskId);
      if found.None? {
        return;
      }
      var subtasks := FlipSubtask(found.value.subtasks, subtaskId);
      UpdateTask(taskId, EmptyPatch.(subtasks := Some(subtasks)), remoteOk);
    }

    /** `clearDay`: the list is emptied and both texts cleared, whatever the remote deletes did. */
    method ClearDay()
      modifies this
      ensures tasks == [] && lastMessage == None && recapText == None
      ensures settings == old(settings) && todayKey == old(todayKey)
      ensures isGenerating == old(isGenerating) && isRecapping == old(isRecapping)
    {
      tasks := [];
      lastMessage := None;
      recapText := None;
    }

    /**
     * `generatePlan`: a plan with tasks whose documents were all created is
     * appended with consecutive orders and its quote becomes the message; an
     * empty plan changes nothing; a failure leaves the list and picks a
     * slacking message of the current level.  The busy flag is off afterwards.
     */
    method GeneratePlan(outcome: PlanOutcome, idFor: nat -> string, stamp: string, now: string, r: real, remoteOk: bool)
      requires 0.0 <= r < 1.0
      modifies this
      ensures outcome.Plan? && |outcome.items| > 0 && remoteOk ==>
        tasks == old(tasks) + PlanTasks(outcome.items, |old(tasks)|, 0, idFor, stamp, now)
        && lastMessage == Some(outcome.toxicQuote)
      ensures outcome.Plan? && |outcome.items| == 0 ==> tasks == old(tasks) && lastMessage == old(lastMessage)
      ensures outcome.PlanFailed? || (|outcome.items| > 0 && !remoteOk) ==>
        tasks == old(tasks) && lastMessage == Some(RandomMessage(SlackingMessages(settings.toxicLevel), r))
      ensures !isGenerating
      ensures recapText == old(recapText) && settings == old(settings) && todayKey == old(todayKey)
      ensures isRecapping == old(isRecapping)
    {
      isGenerating := true;
      SlackingNonEmpty(settings.toxicLevel);
      match outcome {
        case PlanFailed =>
          lastMessage := Some(RandomMessage(SlackingMessages(settings.toxicLevel), r));
        case Plan(items, quote) =>
          if |items| > 0 {
            var newTasks := PlanTasks(items, |tasks|, 0, idFor, stamp, now);
            if remoteOk {
              tasks := tasks + newTasks;
              lastMessage := Some(quote);
            } else {
              lastMessage := Some(RandomMessage(SlackingMessages(settings.toxicLevel), r));
            }
          }
      }
      isGenerating := false;
    }

    /** `generateRecap`: a non-empty text becomes the recap; a failure sets the fallback text. */
    method GenerateRecap(outcome: RecapOutcome)
      modifies this
      ensures outcome.RecapText? && outcome.text != "" ==> recapText == Some(outcome.text)
      ensures outcome.RecapText? && outcome.text == "" ==> recapText == old(recapText)
      ensures outcome.RecapFailed? ==> recapText == Some(RecapFallback)
      ensures !isRecapping
      ensures tasks == old(tasks) && lastMessage == old(lastMessage) && settings == old(settings)
      ensures todayKey == old(todayKey) && isGenerating == old(isGenerating)
    {
      isRecapping := true;
      match outcome {
        case RecapFailed =>
          recapText := Some(RecapFallback);
        case RecapText(text) =>
          if text != "" {
            recapText := Some(text);
          }
      }
      isRecapping := false;
    }

    /** `updateSettings`: the merged settings are cached whether or not the write succeeded. */
    method UpdateSettings(updates: SettingsPatch)
      modifies this
      ensures settings == MergeSettings(old(settings), updates)
      ensures tasks == old(tasks) && lastMessage == old(lastMessage) && recapText == old(recapText)
      ensures todayKey == old(todayKey) && isGenerating == old(isGenerating) && isRecapping == old(isRecapping)
    {
      settings := MergeSettings(settings, updates);
    }
  }

  /**
   * What `addTask` appends is the new task itself whenever the draft's
   * completion time is not empty and the creation time is not empty: its
   * order is the old length and its id the new id.
   */
  lemma AddedTaskIsNew(draft: TaskDraft, id: string, now: string, systemCreatedAt: string, n: nat)
    requires now != "" && draft.completedAt != Some("")
    ensures Stored(NewTask(draft, id, now, n), systemCreatedAt) == NewTask(draft, id, now, n)
    ensures Stored(NewTask(draft, id, now, n), systemCreatedAt).order == n
  {
  }

  /**
   * Orders are the list length at insertion, not one more than the largest:
   * after a delete a new task can repeat an order still in the list.
   */
  lemma OrderCanRepeat(a: Task, b: Task, draft: TaskDraft, id: string, now: string)
    requires a.id == "a" && b.id == "b" && a.order == 0 && b.order == 1
    ensures var rest := RemoveById([a, b], "a");
      rest == [b] && NewTask(draft, id, now, |rest|).order == b.order
  {
    assert RemoveById([a, b], "a") == RemoveById([b], "a");
    assert RemoveById([b], "a") == [b] + RemoveById([], "a");
  }
}

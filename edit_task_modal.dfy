/**
 * The "Edit Task" dialog: the form is loaded from the task being edited,
 * the checklist is edited in place (add, flip, remove), and saving emits a
 * normalised update for the task's id.
 */
module EditTaskModal {
  import opened Wrappers
  import opened JsText
  import opened TaskTypes
  import opened TaskForm
  import TaskList

  /** All the dialog's state at once, to state what a handler leaves alone. */
  datatype EditState = EditState(
    task: Option<Task>,
    title: string,
    description: string,
    timeSlot: string,
    duration: string,
    priority: Priority,
    category: TaskCategory,
    notes: string,
    subtasks: seq<SubTask>,
    newSubtask: string)

  /**
   * What `handleSave` emits for the given form values: nothing without a
   * task or with a blank title, otherwise the task's id and an update of
   * every editable field; completion is not touched.
   */
  function SaveOf(task: Option<Task>, title: string, description: string, timeSlot: string, duration: string,
                  priority: Priority, category: TaskCategory, notes: string, subtasks: seq<SubTask>): (r: Option<(string, TaskPatch)>)
    ensures r.None? <==> task.None? || Trim(title) == ""
    ensures r.Some? ==> r.value.0 == task.value.id
    ensures r.Some? ==> r.value.1.title == Some(Trim(title)) && r.value.1.description == Some(Trim(description))
    ensures r.Some? ==> r.value.1.timeSlot == Some(SlotOrAnytime(timeSlot)) && r.value.1.duration == Some(DurationOrDefault(duration))
    ensures r.Some? ==> r.value.1.priority == Some(priority) && r.value.1.category == Some(category)
    ensures r.Some? ==> r.value.1.notes == Some(Trim(notes)) && r.value.1.subtasks == Some(subtasks)
    ensures r.Some? ==> r.value.1.completed.None? && r.value.1.completedAt.None?
  {
    if task.None? || Trim(title) == "" then None
    else Some((task.value.id, TaskPatch(Some(Trim(title)), Some(Trim(description)), Some(SlotOrAnytime(timeSlot)),
                                        Some(DurationOrDefault(duration)), None, Some(priority), Some(category),
                                        Some(subtasks), Some(Trim(notes)), None)))
  }

  /** A task whose fields are already what a save would write. */
  predicate InNormalForm(t: Task) {
    t.title != "" && Trim(t.title) == t.title && Trim(t.description) == t.description
    && t.timeSlot != "" && Trim(t.timeSlot) == t.timeSlot && t.duration != 0 && Trim(t.notes) == t.notes
  }

  /**
   * Opening a task and saving it without an edit gives back the same task
   * exactly when it is in normal form; otherwise the save trims its texts,
   * fills in "Anytime" or turns a zero duration into 30.
   */
  lemma {:induction false} SaveUneditedIsNoOp(t: Task)
    requires Trim(t.title) != ""
    ensures var saved := SaveOf(Some(t), t.title, t.description, t.timeSlot, IntToString(t.duration),
                                t.priority, t.category, t.notes, t.subtasks);
            saved.Some? && (TaskList.Merge(t, saved.value.1) == t <==> InNormalForm(t))
  {
    DurationOfText(t.duration);
    SlotStable(t.timeSlot);
    TrimIdempotent(t.title);
    if Trim(t.timeSlot) == t.timeSlot && t.timeSlot != "" {
      assert SlotOrAnytime(t.timeSlot) == t.timeSlot;
    }
  }

  /**
   * The checklist after `addSubtask` with input `input` and the id `stamp`
   * (the clock's text): a blank input changes nothing, otherwise exactly one
   * incomplete item with the trimmed text is appended.
   */
  function AddSubtaskTo(subs: seq<SubTask>, input: string, stamp: string): (r: seq<SubTask>)
    ensures Trim(input) == "" ==> r == subs
    ensures Trim(input) != "" ==> |r| == |subs| + 1 && r[..|subs|] == subs
    ensures Trim(input) != "" ==> r[|subs|].id == stamp && r[|subs|].title == Trim(input) && !r[|subs|].completed
  {
    if Trim(input) == "" then subs else subs + [SubTask(stamp, Trim(input), false)]
  }

  class EditTaskForm {
    var task: Option<Task>
    var title: string
    var description: string
    var timeSlot: string
    var duration: string
    var priority: Priority
    var category: TaskCategory
    var notes: string
    var subtasks: seq<SubTask>
    var newSubtask: string

    function Fields(): EditState
      reads this
    {
      EditState(task, title, description, timeSlot, duration, priority, category, notes, subtasks, newSubtask)
    }

    constructor ()
      ensures Fields() == EditState(None, "", "", "", "30", Medium, Work, "", [], "")
    {
      task := None;
      title := "";
      description := "";
      timeSlot := "";
      duration := "30";
      priority := Medium;
      category := Work;
      notes := "";
      subtasks := [];
      newSubtask := "";
    }

    /**
     * A new task to edit: every field is copied into the form, the duration
     * as `String(duration)`; without a task the form keeps what it holds.
     */
    method Load(t: Option<Task>)
      modifies this
      ensures t.None? ==> Fields() == old(Fields()).(task := None)
      ensures t.Some? ==> Fields() == EditState(t, t.value.title, t.value.description, t.value.timeSlot,
                                                 IntToString(t.value.duration), t.value.priority, t.value.category,
                                                 t.value.notes, t.value.subtasks, old(newSubtask))
    {
      task := t;
      if t.Some? {
        Fill(t.value);
      }
    }

    /** Copies every editable field of `v` into the form. */
    method Fill(v: Task)
      modifies this
      ensures Fields() == EditState(old(task), v.title, v.description, v.timeSlot, IntToString(v.duration),
                                    v.priority, v.category, v.notes, v.subtasks, old(newSubtask))
    {
      title := v.title;
      description := v.description;
      timeSlot := v.timeSlot;
      duration := IntToString(v.duration);
      priority := v.priority;
      category := v.category;
      notes := OrString(Some(v.notes), "");
      subtasks := v.subtasks;
    }

    /** `handleSave`: the update for the form's current values, if any; the form is not changed. */
    method HandleSave() returns (saved: Option<(string, TaskPatch)>)
      ensures saved == SaveOf(task, title, description, timeSlot, duration, priority, category, notes, subtasks)
    {
      saved := SaveOf(task, title, description, timeSlot, duration, priority, category, notes, subtasks);
    }

    /** `handleDelete`: the id of the task to delete, if there is a task. */
    method HandleDelete() returns (deleted: Option<string>)
      ensures deleted.None? <==> task.None?
      ensures deleted.Some? ==> deleted.value == task.value.id
    {
      if task.None? {
        return None;
      }
      deleted := Some(task.value.id);
    }

    /** `addSubtask`: append the typed item and clear the input, unless the input is blank. */
    method AddSubtask(stamp: string)
      modifies this
      ensures Trim(old(newSubtask)) == "" ==> Fields() == old(Fields())
      ensures Trim(old(newSubtask)) != "" ==>
        Fields() == old(Fields()).(subtasks := AddSubtaskTo(old(subtasks), old(newSubtask), stamp), newSubtask := "")
    {
      var text := Trim(newSubtask);
      if text == "" {
        return;
      }
      subtasks := subtasks + [SubTask(stamp, text, false)];
      newSubtask := "";
    }

    /** `toggleSubtask`: flip the items with that id; nothing else changes. */
    method ToggleSubtask(id: string)
      modifies this
      ensures Fields() == old(Fields()).(subtasks := TaskList.FlipSubtask(old(subtasks), id))
    {
      subtasks := TaskList.FlipSubtask(subtasks, id);
    }

    /** `removeSubtask`: drop the items with that id, keeping the rest in order; nothing else changes. */
    method RemoveSubtask(id: string)
      modifies this
      ensures Fields() == old(Fields()).(subtasks := TaskList.RemoveSubtask(old(subtasks), id))
    {
      subtasks := TaskList.RemoveSubtask(subtasks, id);
    }
  }
}

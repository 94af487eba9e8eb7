/**
 * The "Add Task" dialog: six form fields, and the add button that emits a
 * normalised task draft and resets the form.
 */
module AddTaskModal {
  import opened Wrappers
  import opened JsText
  import opened TaskTypes
  import opened TaskForm

  /**
   * The draft the add button emits for the given field values, or nothing
   * when the trimmed title is empty.
   */
  function DraftOf(title: string, description: string, timeSlot: string, duration: string,
                   priority: Priority, category: TaskCategory): (r: Option<TaskDraft>)
    ensures r.None? <==> Trim(title) == ""
    ensures r.Some? ==> r.value.title == Trim(title) && r.value.description == Trim(description)
    ensures r.Some? ==> r.value.timeSlot == SlotOrAnytime(timeSlot) && r.value.duration == DurationOrDefault(duration)
    ensures r.Some? ==> r.value.priority == priority && r.value.category == category
    ensures r.Some? ==> !r.value.completed && r.value.subtasks == [] && r.value.notes == "" && r.value.completedAt.None?
  {
    if Trim(title) == "" then None
    else Some(TaskDraft(Trim(title), Trim(description), SlotOrAnytime(timeSlot), DurationOrDefault(duration),
                        false, priority, category, [], "", None))
  }

  /**
   * Every emitted draft is in normal form: a non-empty title and text fields
   * with no white space at their ends, a non-empty time slot and a non-zero
   * duration.
   */
  lemma DraftIsNormal(title: string, description: string, timeSlot: string, duration: string,
                      priority: Priority, category: TaskCategory)
    requires DraftOf(title, description, timeSlot, duration, priority, category).Some?
    ensures var d := DraftOf(title, description, timeSlot, duration, priority, category).value;
            && d.title != "" && Trim(d.title) == d.title && Trim(d.description) == d.description
            && d.timeSlot != "" && Trim(d.timeSlot) == d.timeSlot && d.duration != 0
  {
    TrimIdempotent(title);
    TrimIdempotent(description);
    SlotStable(timeSlot);
  }

  /** A title of blanks, however long, adds nothing. */
  lemma BlankTitleAddsNothing(title: string, description: string, timeSlot: string, duration: string,
                              priority: Priority, category: TaskCategory)
    requires forall i :: 0 <= i < |title| ==> IsJsSpace(title[i])
    ensures DraftOf(title, description, timeSlot, duration, priority, category).None?
  {
    TrimEmptyIffBlank(title);
  }

  class AddTaskForm {
    var title: string
    var description: string
    var timeSlot: string
    var duration: string
    var priority: Priority
    var category: TaskCategory

    /** Whether the form holds its initial values. */
    predicate IsReset()
      reads this
    {
      title == "" && description == "" && timeSlot == "" && duration == "30"
      && priority == Medium && category == Work
    }

    constructor ()
      ensures IsReset()
    {
      title := "";
      description := "";
      timeSlot := "";
      duration := "30";
      priority := Medium;
      category := Work;
    }

    /**
     * `handleAdd`: with a blank title nothing is emitted and the form is left
     * as it is; otherwise the draft of the current fields is emitted and
     * every field goes back to its initial value.
     */
    method HandleAdd() returns (emitted: Option<TaskDraft>)
      modifies this
      ensures emitted == DraftOf(old(title), old(description), old(timeSlot), old(duration), old(priority), old(category))
      ensures emitted.None? ==> unchanged(this)
      ensures emitted.Some? ==> IsReset()
    {
      emitted := DraftOf(title, description, timeSlot, duration, priority, category);
      if emitted.Some? {
        Reset();
      }
    }

    /** Every field back to its initial value. */
    method Reset()
      modifies this
      ensures IsReset()
    {
      title := "";
      description := "";
      timeSlot := "";
      duration := "30";
      priority := Medium;
      category := Work;
    }
  }
}

/**
 * The list expressions the provider applies to today's tasks: `find` by id,
 * the object spread that merges an update into a task, `map` replacing the
 * tasks with an id, `filter` removing them, the flip of one checklist item,
 * and `every` task completed.
 */
module TaskList {
  import opened Wrappers
  import opened TaskTypes

  /** `tasks.find(t => t.id === id)`: the first task with that id. */
  function FindById(tasks: seq<Task>, id: string): (r: Option<Task>)
    ensures r.Some? ==> r.value in tasks && r.value.id == id
    ensures r.None? <==> forall t :: t in tasks ==> t.id != id
  {
    if tasks == [] then None
    else if tasks[0].id == id then Some(tasks[0])
    else
      assert forall t :: t in tasks ==> t == tasks[0] || t in tasks[1..];
      FindById(tasks[1..], id)
  }

  /** The task found is the one at the first position holding the id. */
  lemma {:induction false} FindByIdIsFirst(tasks: seq<Task>, id: string, i: nat)
    requires i < |tasks| && tasks[i].id == id
    requires forall j :: 0 <= j < i ==> tasks[j].id != id
    ensures FindById(tasks, id) == Some(tasks[i])
    decreases i
  {
    if i > 0 {
      FindByIdIsFirst(tasks[1..], id, i - 1);
    }
  }

  /** `{ ...task, ...updates }`: every field the patch gives replaces the task's. */
  function Merge(t: Task, p: TaskPatch): (r: Task)
    ensures r.id == t.id && r.createdAt == t.createdAt && r.order == t.order
    ensures p.completed.Some? ==> r.completed == p.completed.value
    ensures p.completed.None? ==> r.completed == t.completed
    ensures p.completedAt.Some? ==> r.completedAt == p.completedAt.value
    ensures p.completedAt.None? ==> r.completedAt == t.completedAt
    ensures p.subtasks.Some? ==> r.subtasks == p.subtasks.value
    ensures p.subtasks.None? ==> r.subtasks == t.subtasks
    ensures p.title.Some? ==> r.title == p.title.value
    ensures p.title.None? ==> r.title == t.title
    ensures p.description.Some? ==> r.description == p.description.value
    ensures p.description.None? ==> r.description == t.description
    ensures p.timeSlot.Some? ==> r.timeSlot == p.timeSlot.value
    ensures p.timeSlot.None? ==> r.timeSlot == t.timeSlot
    ensures p.duration.Some? ==> r.duration == p.duration.value
    ensures p.duration.None? ==> r.duration == t.duration
    ensures p.priority.Some? ==> r.priority == p.priority.value
    ensures p.priority.None? ==> r.priority == t.priority
    ensures p.category.Some? ==> r.category == p.category.value
    ensures p.category.None? ==> r.category == t.category
    ensures p.notes.Some? ==> r.notes == p.notes.value
    ensures p.notes.None? ==> r.notes == t.notes
  {
    Task(
      t.id,
      p.title.GetOr(t.title),
      p.description.GetOr(t.description),
      p.timeSlot.GetOr(t.timeSlot),
      p.duration.GetOr(t.duration),
      p.completed.GetOr(t.completed),
      p.priority.GetOr(t.priority),
      p.category.GetOr(t.category),
      p.subtasks.GetOr(t.subtasks),
      p.notes.GetOr(t.notes),
      t.createdAt,
      p.completedAt.GetOr(t.completedAt),
      t.order)
  }

  /** An empty patch changes nothing. */
  lemma MergeEmpty(t: Task)
    ensures Merge(t, EmptyPatch) == t
  {
  }

  /** `tasks.map(t => t.id === id ? updated : t)`. */
  function ReplaceById(tasks: seq<Task>, id: string, updated: Task): (r: seq<Task>)
    ensures |r| == |tasks|
    ensures forall i :: 0 <= i < |tasks| ==> r[i] == if tasks[i].id == id then updated else tasks[i]
  {
    if tasks == [] then [] else [if tasks[0].id == id then updated else tasks[0]] + ReplaceById(tasks[1..], id, updated)
  }

  /** `tasks.filter(t => t.id !== id)`. */
  function RemoveById(tasks: seq<Task>, id: string): (r: seq<Task>)
    ensures |r| <= |tasks|
    ensures forall t :: t in r <==> t in tasks && t.id != id
  {
    if tasks == [] then []
    else if tasks[0].id == id then RemoveById(tasks[1..], id)
    else
      var r := RemoveById(tasks[1..], id);
      assert forall t :: t in tasks ==> t == tasks[0] || t in tasks[1..];
      [tasks[0]] + r
  }

  /** An id no task has leaves the list as it is, under both operations. */
  lemma {:induction false} UnknownIdNoOp(tasks: seq<Task>, id: string, updated: Task)
    requires FindById(tasks, id).None?
    ensures ReplaceById(tasks, id, updated) == tasks
    ensures RemoveById(tasks, id) == tasks
    decreases |tasks|
  {
    if tasks != [] {
      assert tasks[0] in tasks;
      assert FindById(tasks[1..], id).None? by {
        assert forall t :: t in tasks[1..] ==> t in tasks;
      }
      UnknownIdNoOp(tasks[1..], id, updated);
    }
  }

  /** Removal works piecewise: the rest keeps its order. */
  lemma {:induction false} RemoveByIdAppend(a: seq<Task>, b: seq<Task>, id: string)
    ensures RemoveById(a + b, id) == RemoveById(a, id) + RemoveById(b, id)
    decreases |a|
  {
    if a == [] {
      assert a + b == b;
    } else {
      assert (a + b)[0] == a[0] && (a + b)[1..] == a[1..] + b;
      RemoveByIdAppend(a[1..], b, id);
    }
  }

  /** Removing twice is removing once. */
  lemma RemoveByIdIdempotent(tasks: seq<Task>, id: string)
    ensures RemoveById(RemoveById(tasks, id), id) == RemoveById(tasks, id)
  {
    UnknownIdNoOp(RemoveById(tasks, id), id, Task(id, "", "", "", 0, false, Low, Other, [], "", "", None, 0));
  }

  /** `tasks.map(t => t.id === id ? { ...t, completed } : t)`. */
  function SetCompletedById(tasks: seq<Task>, id: string, completed: bool): (r: seq<Task>)
    ensures |r| == |tasks|
    ensures forall i :: 0 <= i < |tasks| ==> r[i] == if tasks[i].id == id then tasks[i].(completed := completed) else tasks[i]
  {
    if tasks == [] then []
    else [if tasks[0].id == id then tasks[0].(completed := completed) else tasks[0]] + SetCompletedById(tasks[1..], id, completed)
  }

  /** `tasks.every(t => t.completed)`. */
  predicate AllCompleted(tasks: seq<Task>) {
    forall i :: 0 <= i < |tasks| ==> tasks[i].completed
  }

  /** `subtasks.map(s => s.id === id ? { ...s, completed: !s.completed } : s)`. */
  function FlipSubtask(subs: seq<SubTask>, id: string): (r: seq<SubTask>)
    ensures |r| == |subs|
    ensures forall i :: 0 <= i < |subs| ==> r[i] == if subs[i].id == id then subs[i].(completed := !subs[i].completed) else subs[i]
  {
    if subs == [] then []
    else [if subs[0].id == id then subs[0].(completed := !subs[0].completed) else subs[0]] + FlipSubtask(subs[1..], id)
  }

  /** Flipping the same item twice restores the checklist. */
  lemma FlipSubtaskTwice(subs: seq<SubTask>, id: string)
    ensures FlipSubtask(FlipSubtask(subs, id), id) == subs
  {
    var r := FlipSubtask(FlipSubtask(subs, id), id);
    assert forall i :: 0 <= i < |subs| ==> r[i] == subs[i];
  }

  /** `subtasks.filter(s => s.id !== id)`. */
  function RemoveSubtask(subs: seq<SubTask>, id: string): (r: seq<SubTask>)
    ensures |r| <= |subs|
    ensures forall s :: s in r <==> s in subs && s.id != id
  {
    if subs == [] then []
    else if subs[0].id == id then RemoveSubtask(subs[1..], id)
    else
      var r := RemoveSubtask(subs[1..], id);
      assert forall s :: s in subs ==> s == subs[0] || s in subs[1..];
      [subs[0]] + r
  }

  /** Removal of checklist items works piecewise: the rest keeps its order. */
  lemma {:induction false} RemoveSubtaskAppend(a: seq<SubTask>, b: seq<SubTask>, id: string)
    ensures RemoveSubtask(a + b, id) == RemoveSubtask(a, id) + RemoveSubtask(b, id)
    decreases |a|
  {
    if a == [] {
      assert a + b == b;
    } else {
      assert (a + b)[0] == a[0] && (a + b)[1..] == a[1..] + b;
      RemoveSubtaskAppend(a[1..], b, id);
    }
  }
}

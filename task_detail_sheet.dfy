/**
  The task detail sheet: a viewing/editing flag, a five-field draft, Save and Cancel,
  and the subtask checklist toggle. Only Save and the toggle write through the
  `updateTask` mutation; Edit, Cancel and the draft defaults issue no update.
 */
module TaskDetail {
  import opened Options
  import opened Entities
  import TaskCard

  /** The badge text of each status, keyed by the status's string. */
  const StatusLabels: map<string, string> := map[
    "todo" := "To Do",
    "in_progress" := "In Progress",
    "done" := "Done"
  ]

  /** `statusLabels[task.status]`: one of the table's labels. */
  function StatusLabel(s: Status): (text: string)
    ensures text in StatusLabels.Values
  {
    StatusLabels[StatusKey(s)]
  }

  /** The table has an entry for every status and for nothing else, and no two statuses share a label. */
  lemma StatusLabelsTotal()
    ensures forall s: Status :: StatusKey(s) in StatusLabels
    ensures forall k :: k in StatusLabels ==> exists s: Status :: StatusKey(s) == k
    ensures forall s: Status, t: Status :: s != t ==> StatusLabel(s) != StatusLabel(t)
  {
    assert StatusKey(Todo) == "todo" && StatusKey(InProgress) == "in_progress" && StatusKey(Done) == "done";
  }

  /** The sheet's own copy of the priority badge classes. */
  const PriorityColors: map<string, string> := map[
    "low" := "bg-gray-500",
    "medium" := "bg-blue-500",
    "high" := "bg-orange-500",
    "urgent" := "bg-red-500"
  ]

  /** The sheet's table is the card's, so a priority badge looks the same in both places. */
  lemma PriorityColorsMatchCard()
    ensures PriorityColors == TaskCard.PriorityColors
    ensures forall p: Priority :: PriorityKey(p) in PriorityColors && PriorityColors[PriorityKey(p)] == TaskCard.PriorityColor(p)
  {
    TaskCard.PriorityColorsTotal();
  }

  /** The form's values: the five editable fields. */
  datatype Draft = Draft(title: string, description: string, status: Status, priority: Priority, dueDate: string)

  /** JavaScript `v || fallback` on an optional string: both `undefined` and `""` are falsy. */
  function OrElse(v: Option<string>, fallback: string): string
  {
    if v == None || v == Some("") then fallback else v.value
  }

  /**
    The form's default values, taken from the task if there is one: each present field is
    kept, and a missing one becomes "", "", "todo", "medium" and "" respectively.
   */
  function DraftDefaults(task: Option<Task>): (d: Draft)
    ensures task == None ==> d == Draft("", "", Todo, Medium, "")
    ensures task != None ==> d.title == task.value.title
    ensures task != None ==> d.status == task.value.status && d.priority == task.value.priority
    ensures task != None ==> d.description == (if task.value.description == None then "" else task.value.description.value)
    ensures task != None ==> d.dueDate == (if task.value.dueDate == None then "" else task.value.dueDate.value)
  {
    match task
    case None => Draft("", "", Todo, Medium, "")
    case Some(t) => Draft(t.title, OrElse(t.description, ""), t.status, t.priority, OrElse(t.dueDate, ""))
  }

  /**
    The subtask list with the completion flag at `index` inverted: same length, same
    titles, every other flag kept.
   */
  function Flip(subtasks: seq<SubtaskValue>, index: nat): (r: seq<SubtaskValue>)
    requires index < |subtasks|
    ensures |r| == |subtasks|
    ensures forall k :: 0 <= k < |r| ==> r[k].title == subtasks[k].title
    ensures forall k :: 0 <= k < |r| ==>
      r[k].isCompleted == (if k == index then !subtasks[k].isCompleted else subtasks[k].isCompleted)
  {
    subtasks[index := SubtaskValue(subtasks[index].title, !subtasks[index].isCompleted)]
  }

  /** Toggling the same subtask twice restores the list. */
  lemma FlipTwice(subtasks: seq<SubtaskValue>, index: nat)
    requires index < |subtasks|
    ensures Flip(Flip(subtasks, index), index) == subtasks
  {
  }

  /** What an update asks the store to change. */
  datatype Patch =
    | DraftPatch(fields: Draft)                  // the whole form: all five fields
    | SubtasksPatch(subtasks: seq<SubtaskValue>) // the entire subtask list

  /** One `updateTask.mutateAsync({ id, data })` call. */
  datatype Update = Update(id: string, data: Patch)

  /**
    The `updateTask` mutation, seen from the sheet: it records every call made, and
    whether the call succeeds is decided outside the sheet.
   */
  class UpdateTaskMutation {
    var calls: seq<Update>

    constructor ()
      ensures calls == []
    {
      calls := [];
    }

    /** Issues `update`; `outcome` is the store's answer. */
    method MutateAsync(update: Update, outcome: bool) returns (ok: bool)
      modifies this
      ensures calls == old(calls) + [update]
      ensures ok == outcome
    {
      calls := calls + [update];
      ok := outcome;
    }
  }

  class TaskDetailSheet {
    const task: Task
    const updateTask: UpdateTaskMutation
    var isEditing: bool
    var draft: Draft

    /** The sheet opens in viewing mode with the form's defaults taken from the task. */
    constructor (task: Task, updateTask: UpdateTaskMutation)
      ensures this.task == task && this.updateTask == updateTask
      ensures !isEditing && draft == DraftDefaults(Some(task))
    {
      this.task := task;
      this.updateTask := updateTask;
      isEditing := false;
      draft := DraftDefaults(Some(task));
    }

    /** "Edit Task": enter editing mode; no update is issued and the draft is not touched. */
    method Edit()
      modifies this`isEditing
      ensures isEditing
    {
      isEditing := true;
    }

    /** "Cancel": back to viewing; no update is issued and the draft is kept as it is. */
    method Cancel()
      modifies this`isEditing
      ensures !isEditing
    {
      isEditing := false;
    }

    /** The user changes the form's inputs, which exist only in editing mode. */
    method ChangeDraft(d: Draft)
      requires isEditing
      modifies this`draft
      ensures draft == d
    {
      draft := d;
    }

    /**
      "Save Changes": one update for this task carrying the whole draft. The sheet leaves
      editing mode only when the update succeeds; a failure is swallowed.
     */
    method Save(outcome: bool)
      modifies this`isEditing, updateTask
      ensures updateTask.calls == old(updateTask.calls) + [Update(task.id, DraftPatch(draft))]
      ensures isEditing == (old(isEditing) && !outcome)
    {
      var data := draft;
      var ok := updateTask.MutateAsync(Update(task.id, DraftPatch(data)), outcome);
      if ok {
        isEditing := false;
      }
    }

    /**
      The checkbox of subtask `index`: copies the list (the copy shares the subtask
      objects), inverts the flag of the object at `index`, and sends the entire list in
      one update. The object is the task's own, so the task shows the flipped flag
      whatever the outcome; a failure is swallowed.
     */
    method ToggleSubtask(index: nat, outcome: bool) returns (updatedSubtasks: seq<Subtask>)
      requires Distinct(task.subtasks)
      requires index < |task.subtasks|
      modifies task.subtasks[index], updateTask
      ensures updatedSubtasks == task.subtasks
      ensures Values(task.subtasks) == Flip(old(Values(task.subtasks)), index)
      ensures updateTask.calls == old(updateTask.calls) + [Update(task.id, SubtasksPatch(Values(updatedSubtasks)))]
    {
      var updated := task.subtasks;
      var s := updated[index];
      s.isCompleted := !s.isCompleted;
      ghost var sentValues := Values(updated);
      var _ := updateTask.MutateAsync(Update(task.id, SubtasksPatch(Values(updated))), outcome);
      assert Values(updated) == sentValues;
      updatedSubtasks := updated;
    }

    /**
      The toggle with the flipped entry copied instead of mutated: the same update is
      sent, and the task's own subtasks are left as they were until the store answers.
     */
    method ToggleSubtaskCopying(index: nat, outcome: bool) returns (updatedSubtasks: seq<Subtask>)
      requires index < |task.subtasks|
      modifies updateTask
      ensures Values(updatedSubtasks) == Flip(Values(task.subtasks), index)
      ensures Values(task.subtasks) == old(Values(task.subtasks))
      ensures updateTask.calls == old(updateTask.calls) + [Update(task.id, SubtasksPatch(Values(updatedSubtasks)))]
    {
      var s := task.subtasks[index];
      var copy := new Subtask(s.title, !s.isCompleted);
      var updated := task.subtasks[index := copy];
      ghost var sentValues := Values(updated);
      var _ := updateTask.MutateAsync(Update(task.id, SubtasksPatch(Values(updated))), outcome);
      assert Values(updated) == sentValues;
      updatedSubtasks := updated;
    }
  }

  /** A task "T1" whose only subtask "A" is open, viewed in a fresh sheet. */
  method OpenSheetWithOneSubtask() returns (sheet: TaskDetailSheet, a: Subtask)
    ensures fresh(sheet) && fresh(a) && fresh(sheet.updateTask)
    ensures Distinct(sheet.task.subtasks) && sheet.task.id == "T1" && sheet.task.subtasks == [a]
    ensures a.title == "A" && !a.isCompleted && sheet.updateTask.calls == []
  {
    a := new Subtask("A", false);
    var owner := UserRef("U1", "Ann Lee");
    var t := Task("T1", "Ship", None, Todo, Medium, None, None, [], [a], owner);
    var m := new UpdateTaskMutation();
    sheet := new TaskDetailSheet(t, m);
  }

  /** As written: the only update fails, yet the task shows subtask "A" as completed. */
  method FailedToggleAsWritten() returns (shownCompleted: bool, sent: seq<Update>)
    ensures shownCompleted
    ensures sent == [Update("T1", SubtasksPatch([SubtaskValue("A", true)]))]
  {
    var sheet, a := OpenSheetWithOneSubtask();
    assert Values(sheet.task.subtasks) == [SubtaskValue("A", false)];
    var updated := sheet.ToggleSubtask(0, false);
    assert Values(updated) == [SubtaskValue("A", true)];
    shownCompleted := a.isCompleted;
    sent := sheet.updateTask.calls;
  }

  /** Copying the flipped entry: the same update fails, and the task still shows "A" open. */
  method FailedToggleCopying() returns (shownCompleted: bool, sent: seq<Update>)
    ensures !shownCompleted
    ensures sent == [Update("T1", SubtasksPatch([SubtaskValue("A", true)]))]
  {
    var sheet, a := OpenSheetWithOneSubtask();
    assert Values(sheet.task.subtasks) == [SubtaskValue("A", false)];
    var updated := sheet.ToggleSubtaskCopying(0, false);
    assert Values(updated) == [SubtaskValue("A", true)];
    shownCompleted := a.isCompleted;
    sent := sheet.updateTask.calls;
  }
}

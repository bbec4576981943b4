/**
  The task record the board components receive. Every field is a plain value except the
  subtasks: each is a mutable object, since the detail sheet changes one in place.
 */
module Entities {
  import opened Options

  datatype Status = Todo | InProgress | Done

  datatype Priority = Low | Medium | High | Urgent

  /** The string a status carries in the task record and in lookup tables. */
  function StatusKey(s: Status): string
  {
    match s
    case Todo => "todo"
    case InProgress => "in_progress"
    case Done => "done"
  }

  /** The string a priority carries in the task record and in lookup tables. */
  function PriorityKey(p: Priority): string
  {
    match p
    case Low => "low"
    case Medium => "medium"
    case High => "high"
    case Urgent => "urgent"
  }

  /** A reference to a user: identifier and display name. */
  datatype UserRef = UserRef(id: string, name: string)

  /** One checklist entry of a task; `isCompleted` is assigned in place by the subtask toggle. */
  class Subtask {
    var title: string
    var isCompleted: bool

    constructor (title: string, isCompleted: bool)
      ensures this.title == title && this.isCompleted == isCompleted
    {
      this.title := title;
      this.isCompleted := isCompleted;
    }
  }

  /** The value of a subtask at one moment, as it is serialised into an update. */
  datatype SubtaskValue = SubtaskValue(title: string, isCompleted: bool)

  /** The values the subtask objects hold now, in list order. */
  function Values(subtasks: seq<Subtask>): seq<SubtaskValue>
    reads set s | s in subtasks
  {
    seq(|subtasks|, k reads subtasks requires 0 <= k < |subtasks| =>
      SubtaskValue(subtasks[k].title, subtasks[k].isCompleted))
  }

  /** No subtask object occurs twice in the list (each comes from its own record). */
  ghost predicate Distinct(subtasks: seq<Subtask>)
  {
    forall i, j :: 0 <= i < j < |subtasks| ==> subtasks[i] != subtasks[j]
  }

  datatype Task = Task(
    id: string,
    title: string,
    description: Option<string>,
    status: Status,
    priority: Priority,
    assignee: Option<UserRef>,
    dueDate: Option<string>,
    tags: seq<string>,
    subtasks: seq<Subtask>,
    createdBy: UserRef)
}

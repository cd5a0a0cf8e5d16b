/**
 * The task store: a list of tasks with pomodoro targets, the id of the task
 * the timer credits, and the list screen's filter and search text. Ids and
 * timestamps come from the clock in the source; here they are parameters,
 * and nothing assumes that ids are unique.
 */
module TasksSlice {
  import opened Wrappers
  import Seqs

  datatype Priority = Low | Medium | High

  datatype Task = Task(
    id: string,
    title: string,
    description: Option<string>,
    completed: bool,
    pomodoros: int,
    completedPomodoros: int,
    priority: Priority,
    createdAt: string,
    completedAt: Option<string>)

  datatype TaskFilter = All | Active | Completed

  /** The payload of `addTask`: a task without its id, creation time, completion flag and count. */
  datatype NewTask = NewTask(
    title: string,
    description: Option<string>,
    pomodoros: int,
    priority: Priority,
    completedAt: Option<string>)

  /** The payload of `updateTask`: the fields present in the partial record. */
  datatype TaskPatch = TaskPatch(
    id: Option<string>,
    title: Option<string>,
    description: Option<string>,
    completed: Option<bool>,
    pomodoros: Option<int>,
    completedPomodoros: Option<int>,
    priority: Option<Priority>,
    createdAt: Option<string>,
    completedAt: Option<string>)

  function TaskId(t: Task): string {
    t.id
  }

  /** `tasks.find(t => t.id === id)`, as the index of the first task with that id. */
  function FirstIndexOf(tasks: seq<Task>, id: string): Option<nat> {
    Seqs.FindIndex(tasks, TaskId, id)
  }

  /** The task `addTask` appends: the payload's fields, not completed, no pomodoros done. */
  function NewTaskRecord(input: NewTask, id: string, createdAt: string): (t: Task)
    ensures t.id == id && t.createdAt == createdAt
    ensures !t.completed && t.completedPomodoros == 0
    ensures t.title == input.title && t.description == input.description
    ensures t.pomodoros == input.pomodoros && t.priority == input.priority
    ensures t.completedAt == input.completedAt
  {
    Task(id, input.title, input.description, false, input.pomodoros, 0, input.priority,
         createdAt, input.completedAt)
  }

  /** `Object.assign(task, updates)`, then a completion time when `updates.completed` is true. */
  function ApplyPatch(t: Task, p: TaskPatch, now: string): (r: Task)
    ensures r.id == p.id.GetOr(t.id) && r.priority == p.priority.GetOr(t.priority)
    ensures r.createdAt == p.createdAt.GetOr(t.createdAt)
    ensures r.description == if p.description.Some? then p.description else t.description
    ensures r.title == p.title.GetOr(t.title) && r.completed == p.completed.GetOr(t.completed)
    ensures r.pomodoros == p.pomodoros.GetOr(t.pomodoros)
    ensures r.completedPomodoros == p.completedPomodoros.GetOr(t.completedPomodoros)
    ensures r.completedAt == if p.completed == Some(true) then Some(now)
                             else if p.completedAt.Some? then p.completedAt else t.completedAt
  {
    var merged := Task(
      p.id.GetOr(t.id),
      p.title.GetOr(t.title),
      if p.description.Some? then p.description else t.description,
      p.completed.GetOr(t.completed),
      p.pomodoros.GetOr(t.pomodoros),
      p.completedPomodoros.GetOr(t.completedPomodoros),
      p.priority.GetOr(t.priority),
      p.createdAt.GetOr(t.createdAt),
      if p.completedAt.Some? then p.completedAt else t.completedAt);
    if p.completed == Some(true) then merged.(completedAt := Some(now)) else merged
  }

  /** An empty patch changes nothing. */
  lemma ApplyEmptyPatch(t: Task, now: string)
    ensures ApplyPatch(t, TaskPatch(None, None, None, None, None, None, None, None, None), now) == t
  {
  }

  /** The completed count never exceeds the target. */
  predicate WithinTarget(t: Task) {
    t.completedPomodoros <= t.pomodoros
  }

  predicate AllWithinTarget(tasks: seq<Task>) {
    forall i :: 0 <= i < |tasks| ==> WithinTarget(tasks[i])
  }

  /** One more pomodoro done; reaching the target completes the task at `now`. */
  function AddPomodoro(t: Task, now: string): (r: Task)
    requires t.completedPomodoros < t.pomodoros
    ensures r.completedPomodoros == t.completedPomodoros + 1 && WithinTarget(r)
    ensures r.completed == (t.completed || r.completedPomodoros == t.pomodoros)
    ensures r.completedAt == if r.completedPomodoros == t.pomodoros then Some(now) else t.completedAt
    ensures r.(completed := t.completed, completedPomodoros := t.completedPomodoros,
               completedAt := t.completedAt) == t
  {
    var counted := t.(completedPomodoros := t.completedPomodoros + 1);
    if counted.completedPomodoros >= t.pomodoros
    then counted.(completed := true, completedAt := Some(now))
    else counted
  }

  /**
   * The list after `completePomodoro`: the first task with `id` gets one more
   * pomodoro if it is below its target; every other task, and every task when
   * there is no match or the target is reached, stays as it was.
   */
  function CountPomodoro(tasks: seq<Task>, id: string, now: string): (r: seq<Task>)
    ensures |r| == |tasks|
    ensures forall j :: 0 <= j < |tasks| && Some(j) != FirstIndexOf(tasks, id) ==> r[j] == tasks[j]
    ensures match FirstIndexOf(tasks, id)
            case None => r == tasks
            case Some(i) =>
              r[i] == if tasks[i].completedPomodoros < tasks[i].pomodoros
                      then AddPomodoro(tasks[i], now) else tasks[i]
    ensures AllWithinTarget(tasks) ==> AllWithinTarget(r)
  {
    match FirstIndexOf(tasks, id)
    case None => tasks
    case Some(i) =>
      if tasks[i].completedPomodoros < tasks[i].pomodoros
      then tasks[i := AddPomodoro(tasks[i], now)]
      else tasks
  }

  /** The tasks `deleteTask` keeps. */
  function WithoutId(tasks: seq<Task>, id: string): seq<Task> {
    Seqs.Filter(tasks, (t: Task) => t.id != id)
  }

  function NotCompleted(t: Task): bool {
    !t.completed
  }

  /** The tasks `clearCompletedTasks` keeps. */
  function Uncompleted(tasks: seq<Task>): seq<Task> {
    Seqs.Filter(tasks, NotCompleted)
  }

  /** Deleting keeps, in order and as often as they occur, exactly the tasks with another id. */
  lemma WithoutIdSpec(tasks: seq<Task>, id: string)
    ensures forall i :: 0 <= i < |WithoutId(tasks, id)| ==> WithoutId(tasks, id)[i].id != id
    ensures forall t: Task :: t.id != id ==> multiset(WithoutId(tasks, id))[t] == multiset(tasks)[t]
    ensures Seqs.IsSubsequence(WithoutId(tasks, id), tasks)
  {
    var keep := (t: Task) => t.id != id;
    forall t: Task | t.id != id
      ensures multiset(WithoutId(tasks, id))[t] == multiset(tasks)[t]
    {
      Seqs.FilterCount(tasks, keep, t);
    }
    Seqs.FilterIsSubsequence(tasks, keep);
  }

  /** Clearing keeps, in order and with their multiplicities, exactly the tasks not completed. */
  lemma UncompletedSpec(tasks: seq<Task>)
    ensures forall i :: 0 <= i < |Uncompleted(tasks)| ==> !Uncompleted(tasks)[i].completed
    ensures forall t: Task :: !t.completed ==> multiset(Uncompleted(tasks))[t] == multiset(tasks)[t]
    ensures Seqs.IsSubsequence(Uncompleted(tasks), tasks)
  {
    forall t: Task | !t.completed
      ensures multiset(Uncompleted(tasks))[t] == multiset(tasks)[t]
    {
      Seqs.FilterCount(tasks, NotCompleted, t);
    }
    Seqs.FilterIsSubsequence(tasks, NotCompleted);
  }

  class TasksStore {
    var tasks: seq<Task>
    var currentTask: Option<string>
    var filter: TaskFilter
    var searchQuery: string

    constructor ()
      ensures tasks == [] && currentTask == None && filter == All && searchQuery == ""
    {
      tasks, currentTask, filter, searchQuery := [], None, All, "";
    }

    method AddTask(input: NewTask, id: string, createdAt: string)
      modifies this
      ensures tasks == old(tasks) + [NewTaskRecord(input, id, createdAt)]
      ensures currentTask == old(currentTask) && filter == old(filter)
      ensures searchQuery == old(searchQuery)
    {
      tasks := tasks + [NewTaskRecord(input, id, createdAt)];
    }

    /** Changes the first task with `id` only; an unknown id changes nothing. */
    method UpdateTask(id: string, patch: TaskPatch, now: string)
      modifies this
      ensures match FirstIndexOf(old(tasks), id)
              case None => tasks == old(tasks)
              case Some(i) => tasks == old(tasks)[i := ApplyPatch(old(tasks)[i], patch, now)]
      ensures currentTask == old(currentTask) && filter == old(filter)
      ensures searchQuery == old(searchQuery)
    {
      var found := FirstIndexOf(tasks, id);
      if found.Some? {
        var i := found.value;
        tasks := tasks[i := ApplyPatch(tasks[i], patch, now)];
      }
    }

    method DeleteTask(id: string)
      modifies this
      ensures tasks == WithoutId(old(tasks), id)
      ensures currentTask == if old(currentTask) == Some(id) then None else old(currentTask)
      ensures filter == old(filter) && searchQuery == old(searchQuery)
    {
      tasks := WithoutId(tasks, id);
      if currentTask == Some(id) {
        currentTask := None;
      }
    }

    /** Stores the id as given: it need not name an existing task. */
    method SetCurrentTask(id: Option<string>)
      modifies this
      ensures currentTask == id
      ensures tasks == old(tasks) && filter == old(filter) && searchQuery == old(searchQuery)
    {
      currentTask := id;
    }

    /** Counts one pomodoro on the first task with `id` if it is below its target. */
    method CompletePomodoro(id: string, now: string)
      modifies this
      ensures tasks == CountPomodoro(old(tasks), id, now)
      ensures currentTask == old(currentTask) && filter == old(filter)
      ensures searchQuery == old(searchQuery)
    {
      var found := FirstIndexOf(tasks, id);
      if found.Some? && tasks[found.value].completedPomodoros < tasks[found.value].pomodoros {
        var i := found.value;
        tasks := tasks[i := AddPomodoro(tasks[i], now)];
      }
    }

    method SetFilter(f: TaskFilter)
      modifies this
      ensures filter == f
      ensures tasks == old(tasks) && currentTask == old(currentTask)
      ensures searchQuery == old(searchQuery)
    {
      filter := f;
    }

    method SetSearchQuery(q: string)
      modifies this
      ensures searchQuery == q
      ensures tasks == old(tasks) && currentTask == old(currentTask) && filter == old(filter)
    {
      searchQuery := q;
    }

    /** Drops the completed tasks; `currentTask` is kept even if it named one of them. */
    method ClearCompletedTasks()
      modifies this
      ensures tasks == Uncompleted(old(tasks))
      ensures currentTask == old(currentTask) && filter == old(filter)
      ensures searchQuery == old(searchQuery)
    {
      tasks := Uncompleted(tasks);
    }
  }
}

/**
 * The derivations of the two task screens (`NewTaskManager` and the older
 * `TaskManager`, which share the list filter and the add-task guard): the
 * visible list, the completion rate, the pomodoro total and the priority
 * styling, together with the add-task form.
 */
module TaskScreens {
  import opened Wrappers
  import opened Strings
  import opened TasksSlice
  import Seqs
  import JsMath

  /** The filter tabs: all, the open tasks, or the finished ones. */
  function MatchesFilter(f: TaskFilter, t: Task): bool {
    match f
    case All => true
    case Active => !t.completed
    case Completed => t.completed
  }

  /** Case-insensitive substring search in the title or, when there is one, the description. */
  function MatchesSearch(t: Task, query: string): bool {
    var q := ToLower(query);
    Contains(ToLower(t.title), q) || (t.description.Some? && Contains(ToLower(t.description.value), q))
  }

  function Shown(f: TaskFilter, query: string, t: Task): bool {
    MatchesFilter(f, t) && MatchesSearch(t, query)
  }

  /** `filteredTasks`: the tasks the list shows. */
  function FilteredTasks(tasks: seq<Task>, f: TaskFilter, query: string): seq<Task> {
    Seqs.Filter(tasks, (t: Task) => Shown(f, query, t))
  }

  /** The list shows, in order and with their multiplicities, exactly the tasks passing both tests. */
  lemma FilteredTasksSpec(tasks: seq<Task>, f: TaskFilter, query: string)
    ensures forall i :: 0 <= i < |FilteredTasks(tasks, f, query)| ==>
              MatchesFilter(f, FilteredTasks(tasks, f, query)[i])
              && MatchesSearch(FilteredTasks(tasks, f, query)[i], query)
    ensures forall t: Task :: Shown(f, query, t) ==> multiset(FilteredTasks(tasks, f, query))[t] == multiset(tasks)[t]
    ensures forall t: Task :: !Shown(f, query, t) ==> t !in FilteredTasks(tasks, f, query)
    ensures Seqs.IsSubsequence(FilteredTasks(tasks, f, query), tasks)
  {
    var keep := (t: Task) => Shown(f, query, t);
    forall t: Task
      ensures multiset(FilteredTasks(tasks, f, query))[t] == if Shown(f, query, t) then multiset(tasks)[t] else 0
    {
      Seqs.FilterCount(tasks, keep, t);
    }
    Seqs.FilterIsSubsequence(tasks, keep);
  }

  /** The empty query matches every task. */
  lemma EmptyQueryMatches(t: Task)
    ensures MatchesSearch(t, "")
  {
    assert ToLower("") == "";
    ContainsEmpty(ToLower(t.title));
  }

  /** With the "all" tab and no search text the whole list is shown. */
  lemma ShowAll(tasks: seq<Task>)
    ensures FilteredTasks(tasks, All, "") == tasks
  {
    forall i | 0 <= i < |tasks| ensures Shown(All, "", tasks[i]) {
      EmptyQueryMatches(tasks[i]);
    }
    Seqs.FilterAllPass(tasks, (t: Task) => Shown(All, "", t));
  }

  /** The search ignores the case of the query. */
  lemma SearchIgnoresQueryCase(t: Task, query: string)
    ensures MatchesSearch(t, query) == MatchesSearch(t, ToLower(query))
  {
    ToLowerIdempotent(query);
  }

  /** A task matches exactly when the lower-cased query occurs in its lower-cased title or description. */
  lemma SearchIsOccurrence(t: Task, query: string)
    ensures MatchesSearch(t, query) <==>
              (exists i :: OccursAt(ToLower(t.title), ToLower(query), i))
              || (t.description.Some? && exists i :: OccursAt(ToLower(t.description.value), ToLower(query), i))
  {
    ContainsIff(ToLower(t.title), ToLower(query));
    if t.description.Some? {
      ContainsIff(ToLower(t.description.value), ToLower(query));
    }
  }

  function IsDone(t: Task): bool {
    t.completed
  }

  function CompletedCount(tasks: seq<Task>): (n: nat)
    ensures n <= |tasks|
  {
    |Seqs.Filter(tasks, IsDone)|
  }

  /** `completionRate`: the rounded percentage of completed tasks, 0 for an empty list. */
  function CompletionRate(tasks: seq<Task>): (r: int)
    ensures |tasks| == 0 ==> r == 0
    ensures 0 <= r <= 100
    ensures |tasks| > 0 ==>
              (2 * r - 1) * |tasks| <= 200 * CompletedCount(tasks) < (2 * r + 1) * |tasks|
  {
    if |tasks| > 0 then
      JsMath.RoundRatioBounds(100 * CompletedCount(tasks), |tasks|, 100);
      JsMath.RoundRatio(100 * CompletedCount(tasks), |tasks|)
    else 0
  }

  /** A list of finished tasks has rate 100. */
  lemma CompletionRateAllDone(tasks: seq<Task>)
    requires |tasks| > 0 && forall i :: 0 <= i < |tasks| ==> tasks[i].completed
    ensures CompletionRate(tasks) == 100
  {
    Seqs.FilterAllPass(tasks, IsDone);
    JsMath.RoundRatioExact(100, |tasks|);
  }

  /** A list without finished tasks has rate 0. */
  lemma CompletionRateNoneDone(tasks: seq<Task>)
    requires forall i :: 0 <= i < |tasks| ==> !tasks[i].completed
    ensures CompletionRate(tasks) == 0
  {
    Seqs.FilterNonePass(tasks, IsDone);
    if |tasks| > 0 {
      JsMath.RoundRatioExact(0, |tasks|);
    }
  }

  /** The sum of the pomodoro targets. */
  function SumPomodoros(tasks: seq<Task>): int {
    if tasks == [] then 0 else tasks[0].pomodoros + SumPomodoros(tasks[1..])
  }

  /** `tasks.reduce((acc, task) => acc + task.pomodoros, acc)`, folding from the left. */
  function ReducePomodoros(acc: int, tasks: seq<Task>): int
    decreases |tasks|
  {
    if tasks == [] then acc else ReducePomodoros(acc + tasks[0].pomodoros, tasks[1..])
  }

  /** The fold from the left adds up the same total as the sum. */
  lemma {:induction false} ReduceIsSum(acc: int, tasks: seq<Task>)
    ensures ReducePomodoros(acc, tasks) == acc + SumPomodoros(tasks)
    decreases |tasks|
  {
    if tasks != [] {
      ReduceIsSum(acc + tasks[0].pomodoros, tasks[1..]);
    }
  }

  lemma {:induction false} SumAppend(tasks: seq<Task>, t: Task)
    ensures SumPomodoros(tasks + [t]) == SumPomodoros(tasks) + t.pomodoros
  {
    if tasks != [] {
      assert (tasks + [t])[1..] == tasks[1..] + [t];
      SumAppend(tasks[1..], t);
    }
  }

  /** Adding a task raises the displayed total by that task's target. */
  lemma AddTaskRaisesTotal(tasks: seq<Task>, input: NewTask, id: string, createdAt: string)
    ensures ReducePomodoros(0, tasks + [NewTaskRecord(input, id, createdAt)])
         == ReducePomodoros(0, tasks) + input.pomodoros
  {
    ReduceIsSum(0, tasks + [NewTaskRecord(input, id, createdAt)]);
    ReduceIsSum(0, tasks);
    SumAppend(tasks, NewTaskRecord(input, id, createdAt));
  }

  /** How a priority is written in a task record. */
  function PriorityName(p: Priority): string {
    match p
    case Low => "low"
    case Medium => "medium"
    case High => "high"
  }

  const GreyBadge := "bg-gray-500/20 text-gray-400 border-gray-500/30"

  /** The priority badge classes of `NewTaskManager`; an unknown priority is grey. */
  function PriorityColor(priority: string): (r: string)
    ensures priority != "high" && priority != "medium" && priority != "low" ==> r == GreyBadge
  {
    if priority == "high" then "bg-red-500/20 text-red-400 border-red-500/30"
    else if priority == "medium" then "bg-yellow-500/20 text-yellow-400 border-yellow-500/30"
    else if priority == "low" then "bg-green-500/20 text-green-400 border-green-500/30"
    else GreyBadge
  }

  /** Each of the three priorities gets its own colour, and none of them is the grey default. */
  lemma PriorityColorsDistinct(p: Priority, q: Priority)
    ensures PriorityColor(PriorityName(p)) != GreyBadge
    ensures p != q ==> PriorityColor(PriorityName(p)) != PriorityColor(PriorityName(q))
  {
  }

  /** The badge variant of `TaskManager`: only high and low differ from the default look. */
  function BadgeVariant(priority: string): (r: string)
    ensures r == "default" <==> priority != "high" && priority != "low"
    ensures priority == "high" ==> r == "destructive"
    ensures priority == "low" ==> r == "secondary"
  {
    if priority == "high" then "destructive"
    else if priority == "medium" then "default"
    else if priority == "low" then "secondary"
    else "default"
  }

  /** The add-task form as each screen resets it. */
  const EmptyForm := NewTask("", Some(""), 1, Medium, None)

  class TaskForm {
    var form: NewTask
    const store: TasksStore

    constructor (store: TasksStore)
      ensures form == EmptyForm && this.store == store
    {
      form := EmptyForm;
      this.store := store;
    }

    /** Whatever the user typed into the form. */
    method Edit(input: NewTask)
      modifies this
      ensures form == input
    {
      form := input;
    }

    /**
     * `handleAddTask`: a title with a non-white-space character is added and
     * the form is cleared; a blank title changes nothing.
     */
    method HandleAddTask(id: string, createdAt: string)
      modifies this, store
      ensures Trim(old(form).title) != [] ==>
                store.tasks == old(store.tasks) + [NewTaskRecord(old(form), id, createdAt)] && form == EmptyForm
      ensures Trim(old(form).title) == [] ==> store.tasks == old(store.tasks) && form == old(form)
      ensures Trim(old(form).title) != [] <==> !IsBlank(old(form).title)
      ensures store.currentTask == old(store.currentTask) && store.filter == old(store.filter)
      ensures store.searchQuery == old(store.searchQuery)
    {
      TrimNonEmptyIff(form.title);
      if Trim(form.title) != [] {
        store.AddTask(form, id, createdAt);
        form := EmptyForm;
      }
    }
  }
}

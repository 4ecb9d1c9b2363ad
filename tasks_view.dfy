/**
 * The tasks view: the list of tasks, the text of the "new task" input and
 * the selected filter, with the view's four operations as functions on that
 * state (the view swaps in the new arrays they build with `setTasks`).
 * Today's date, which `addTask` reads from the clock, is a parameter.
 */
module TasksView {
  import opened Common

  datatype Task = Task(id: int, title: string, priority: string, due: string, completed: bool)

  datatype ViewState = ViewState(tasks: seq<Task>, newTask: string, filter: string)

  const InitialTasks := [
    Task(1, "Review project proposal", "high", "2024-03-20", false),
    Task(2, "Update documentation", "medium", "2024-03-22", false),
    Task(3, "Team meeting preparation", "high", "2024-03-21", true)
  ]

  const Initial := ViewState(InitialTasks, "", "all")

  /** Every task's id is its position plus one. */
  predicate IdsArePositions(tasks: seq<Task>) {
    forall i :: 0 <= i < |tasks| ==> tasks[i].id == i + 1
  }

  /** `addTask`: a whitespace-only input changes nothing; otherwise the input,
      untrimmed, becomes a new medium-priority open task at the end, numbered
      one past the old length, and the input is cleared. */
  function AddTask(st: ViewState, today: string): (r: ViewState)
    ensures Blank(st.newTask) ==> r == st
    ensures !Blank(st.newTask) ==>
      r == st.(tasks := st.tasks + [Task(|st.tasks| + 1, st.newTask, "medium", today, false)], newTask := "")
  {
    TrimEmptyIffBlank(st.newTask);
    if Trim(st.newTask) != "" then
      st.(tasks := st.tasks + [Task(|st.tasks| + 1, st.newTask, "medium", today, false)], newTask := "")
    else st
  }

  function Toggled(t: Task): Task {
    t.(completed := !t.completed)
  }

  /** `toggleTask`: `tasks.map(...)` flipping `completed` on the tasks with the id. */
  function ToggleTask(tasks: seq<Task>, id: int): (r: seq<Task>)
    ensures |r| == |tasks|
    ensures forall i :: 0 <= i < |tasks| && tasks[i].id == id ==> r[i] == Toggled(tasks[i])
    ensures forall i :: 0 <= i < |tasks| && tasks[i].id != id ==> r[i] == tasks[i]
  {
    seq(|tasks|, i requires 0 <= i < |tasks| => if tasks[i].id == id then Toggled(tasks[i]) else tasks[i])
  }

  /** Toggling changes only `completed`, and only on the task with the id. */
  lemma ToggleChangesOnlyCompleted(tasks: seq<Task>, id: int, i: int)
    requires 0 <= i < |tasks|
    ensures var r := ToggleTask(tasks, id);
      r[i].id == tasks[i].id && r[i].title == tasks[i].title && r[i].priority == tasks[i].priority
      && r[i].due == tasks[i].due
      && (r[i].completed != tasks[i].completed <==> tasks[i].id == id)
  {
  }

  /** Toggling the same id twice restores the list. */
  lemma ToggleTwice(tasks: seq<Task>, id: int)
    ensures ToggleTask(ToggleTask(tasks, id), id) == tasks
  {
  }

  /** An id that no task carries leaves the list as it is. */
  lemma ToggleUnknownId(tasks: seq<Task>, id: int)
    requires forall i :: 0 <= i < |tasks| ==> tasks[i].id != id
    ensures ToggleTask(tasks, id) == tasks
  {
  }

  /** With ids equal to positions, toggling a present id flips exactly that one task. */
  lemma ToggleFlipsOne(tasks: seq<Task>, id: int)
    requires IdsArePositions(tasks) && 1 <= id <= |tasks|
    ensures ToggleTask(tasks, id) == tasks[id - 1 := Toggled(tasks[id - 1])]
  {
  }

  /** The predicate of `filteredTasks` for a filter value. */
  function Keep(filter: string): Task -> bool {
    (t: Task) => if filter == "completed" then t.completed else if filter == "active" then !t.completed else true
  }

  /** `filteredTasks`: 'completed' keeps completed tasks, 'active' the others,
      any other value all of them, always in the original order. */
  function FilteredTasks(tasks: seq<Task>, filter: string): (r: seq<Task>)
    ensures IsSubsequence(r, tasks)
    ensures filter == "completed" ==>
      (forall i :: 0 <= i < |r| ==> r[i].completed)
      && (forall i :: 0 <= i < |tasks| && tasks[i].completed ==> tasks[i] in r)
    ensures filter == "active" ==>
      (forall i :: 0 <= i < |r| ==> !r[i].completed)
      && (forall i :: 0 <= i < |tasks| && !tasks[i].completed ==> tasks[i] in r)
    ensures filter != "completed" && filter != "active" ==> r == tasks
  {
    if filter != "completed" && filter != "active" then
      FilterKeepsAll(tasks, Keep(filter));
      Filter(tasks, Keep(filter))
    else
      Filter(tasks, Keep(filter))
  }

  /** The 'completed' and 'active' views split the list between them. */
  lemma CompletedAndActivePartition(tasks: seq<Task>)
    ensures multiset(FilteredTasks(tasks, "completed")) + multiset(FilteredTasks(tasks, "active")) == multiset(tasks)
    ensures |FilteredTasks(tasks, "completed")| + |FilteredTasks(tasks, "active")| == |tasks|
  {
    FilterPartition(tasks, Keep("completed"), Keep("active"));
  }

  const HighColor := "text-red-400"
  const MediumColor := "text-yellow-400"
  const LowColor := "text-green-400"

  /** `getPriorityColor`: 'high' is red, 'medium' yellow, anything else green. */
  function PriorityColor(priority: string): (r: string)
    ensures r == HighColor <==> priority == "high"
    ensures r == MediumColor <==> priority == "medium"
    ensures r == LowColor <==> priority != "high" && priority != "medium"
  {
    match priority
    case "high" => HighColor
    case "medium" => MediumColor
    case _ => LowColor
  }

  // ---------------------------------------------------------------------------
  // The view over time
  // ---------------------------------------------------------------------------

  datatype Action = Type(text: string) | AddClick(today: string) | ToggleClick(id: int) | ChooseFilter(filter: string)

  function Apply(st: ViewState, a: Action): ViewState {
    match a
    case Type(text) => st.(newTask := text)
    case AddClick(today) => AddTask(st, today)
    case ToggleClick(id) => st.(tasks := ToggleTask(st.tasks, id))
    case ChooseFilter(f) => st.(filter := f)
  }

  function Run(st: ViewState, actions: seq<Action>): ViewState
    decreases |actions|
  {
    if actions == [] then st else Run(Apply(st, actions[0]), actions[1..])
  }

  /** Each action keeps ids equal to positions. */
  lemma ApplyKeepsIds(st: ViewState, a: Action)
    requires IdsArePositions(st.tasks)
    ensures IdsArePositions(Apply(st, a).tasks)
  {
  }

  /** Starting from the view's three initial tasks, ids equal positions after
      any sequence of typing, adding, toggling and filtering. */
  lemma {:induction false} IdsStayPositions(st: ViewState, actions: seq<Action>)
    requires IdsArePositions(st.tasks)
    ensures IdsArePositions(Run(st, actions).tasks)
    decreases |actions|
  {
    if actions != [] {
      ApplyKeepsIds(st, actions[0]);
      IdsStayPositions(Apply(st, actions[0]), actions[1..]);
    }
  }

  lemma InitialIdsArePositions(actions: seq<Action>)
    ensures IdsArePositions(Run(Initial, actions).tasks)
  {
    IdsStayPositions(Initial, actions);
  }
}

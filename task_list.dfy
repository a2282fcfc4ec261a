/** The task list component (frontend/src/components/TaskList.jsx): the status filter and its labels. */
module TaskList {
  import opened ClientModel

  /** The predicate `filteredTasks` hands to `tasks.filter`. */
  predicate Keeps(filter: string, t: TaskView) {
    if filter == "completed" then t.completed
    else if filter == "pending" then !t.completed
    else true
  }

  /** `tasks.filter(...)`: the tasks the current filter keeps, in list order. */
  function FilteredTasks(tasks: seq<TaskView>, filter: string): (r: seq<TaskView>)
    ensures |r| <= |tasks|
    ensures forall t :: t in r <==> t in tasks && Keeps(filter, t)
  {
    if tasks == [] then []
    else if Keeps(filter, tasks[0]) then [tasks[0]] + FilteredTasks(tasks[1..], filter)
    else FilteredTasks(tasks[1..], filter)
  }

  /** The filtered list keeps the order of the tasks it keeps. */
  lemma {:induction false} FilteredIsSubsequence(tasks: seq<TaskView>, filter: string)
    ensures SubsequenceOf(FilteredTasks(tasks, filter), tasks)
  {
    if tasks != [] {
      FilteredIsSubsequence(tasks[1..], filter);
      var rest := FilteredTasks(tasks[1..], filter);
      if Keeps(filter, tasks[0]) {
        assert ([tasks[0]] + rest)[1..] == rest;
      } else {
        SkipHeadKeepsSubsequence(rest, tasks);
      }
    }
  }

  /** 'completed' and 'pending' split the list: every task lands in exactly one of the two. */
  lemma {:induction false} CompletedAndPendingPartition(tasks: seq<TaskView>)
    ensures multiset(FilteredTasks(tasks, "completed")) + multiset(FilteredTasks(tasks, "pending")) == multiset(tasks)
    ensures |FilteredTasks(tasks, "completed")| + |FilteredTasks(tasks, "pending")| == |tasks|
  {
    if tasks != [] {
      CompletedAndPendingPartition(tasks[1..]);
      assert tasks == [tasks[0]] + tasks[1..];
      assert multiset(tasks) == multiset{tasks[0]} + multiset(tasks[1..]);
    }
    assert |multiset(FilteredTasks(tasks, "completed"))| + |multiset(FilteredTasks(tasks, "pending"))| == |multiset(tasks)|;
  }

  /** Every value other than 'completed' and 'pending', 'all' among them, keeps the whole list. */
  lemma {:induction false} OtherFiltersKeepAll(tasks: seq<TaskView>, filter: string)
    requires filter != "completed" && filter != "pending"
    ensures FilteredTasks(tasks, filter) == tasks
  {
    if tasks != [] {
      OtherFiltersKeepAll(tasks[1..], filter);
      assert tasks == [tasks[0]] + tasks[1..];
    }
  }

  /** 'completed' keeps exactly the completed tasks, 'pending' exactly the others. */
  lemma StatusFiltersKeepExactly(tasks: seq<TaskView>)
    ensures forall t :: t in FilteredTasks(tasks, "completed") <==> t in tasks && t.completed
    ensures forall t :: t in FilteredTasks(tasks, "pending") <==> t in tasks && !t.completed
  {
  }

  /** The badge word after the count of all tasks, filtered or not. */
  function CountLabel(tasks: seq<TaskView>): (r: string)
    ensures r == "Task" <==> |tasks| == 1
    ensures r == "Tasks" <==> |tasks| != 1
  {
    if |tasks| == 1 then "Task" else "Tasks"
  }

  const NoTasksYet := "You have no tasks yet. Create your first task!"
  const NoPendingTasks := "You have no pending tasks. Great job!"
  const NoCompletedTasks := "You have no completed tasks yet."

  /** The empty-state card shows exactly when the filter keeps no task. */
  predicate ShowsEmptyState(tasks: seq<TaskView>, filter: string) {
    |FilteredTasks(tasks, filter)| == 0
  }

  /** The message of the empty-state card, chosen by the filter alone. */
  function EmptyMessage(filter: string): (r: string)
    ensures r == NoTasksYet <==> filter == "all"
    ensures r == NoPendingTasks <==> filter == "pending"
    ensures r == NoCompletedTasks <==> filter != "all" && filter != "pending"
  {
    if filter == "all" then NoTasksYet
    else if filter == "pending" then NoPendingTasks
    else NoCompletedTasks
  }

  /** The card shows when no task passes the filter: under 'all' only for an empty list. */
  lemma EmptyStateWhenNothingKept(tasks: seq<TaskView>, filter: string)
    ensures ShowsEmptyState(tasks, filter) <==> forall t :: t in tasks ==> !Keeps(filter, t)
    ensures filter == "all" ==> (ShowsEmptyState(tasks, filter) <==> tasks == [])
  {
    if !ShowsEmptyState(tasks, filter) {
      assert FilteredTasks(tasks, filter)[0] in FilteredTasks(tasks, filter);
    }
    if filter == "all" && tasks != [] {
      assert tasks[0] in tasks;
    }
  }
}

/**
 * The dashboard component (frontend/src/components/Dashboard.jsx): the list
 * updates after each API call, the `tasks`/`loading`/`error` state cells those
 * calls overwrite, and the labels drawn from the signed-in user's profile.
 */
module Dashboard {
  import opened Results
  import opened JsValues
  import opened ClientModel

  // ---------------------------------------------------------------------------
  // The new lists built after a successful call
  // ---------------------------------------------------------------------------

  /** `[...tasks, created]`: the created task at the end, the others as they were. */
  function Appended(tasks: seq<TaskView>, created: TaskView): (r: seq<TaskView>)
    ensures |r| == |tasks| + 1 && r[..|tasks|] == tasks && r[|tasks|] == created
  {
    tasks + [created]
  }

  /** `tasks.map(task => task._id === id ? updated : task)`. */
  function ReplacedById(tasks: seq<TaskView>, id: string, updated: TaskView): (r: seq<TaskView>)
    ensures |r| == |tasks|
    ensures forall i :: 0 <= i < |tasks| && tasks[i].id == id ==> r[i] == updated
    ensures forall i :: 0 <= i < |tasks| && tasks[i].id != id ==> r[i] == tasks[i]
  {
    seq(|tasks|, i requires 0 <= i < |tasks| => if tasks[i].id == id then updated else tasks[i])
  }

  /** `tasks.filter(task => task._id !== id)`. */
  function RemovedById(tasks: seq<TaskView>, id: string): (r: seq<TaskView>)
    ensures |r| <= |tasks|
    ensures forall t :: t in r <==> t in tasks && t.id != id
  {
    if tasks == [] then []
    else if tasks[0].id != id then [tasks[0]] + RemovedById(tasks[1..], id)
    else RemovedById(tasks[1..], id)
  }

  /** How many entries carry the id. */
  function CountId(tasks: seq<TaskView>, id: string): nat {
    if tasks == [] then 0 else (if tasks[0].id == id then 1 else 0) + CountId(tasks[1..], id)
  }

  /** Removing keeps the other entries in their order and drops exactly the entries with that id. */
  lemma {:induction false} RemovedKeepsOrder(tasks: seq<TaskView>, id: string)
    ensures SubsequenceOf(RemovedById(tasks, id), tasks)
    ensures |RemovedById(tasks, id)| == |tasks| - CountId(tasks, id)
  {
    if tasks != [] {
      RemovedKeepsOrder(tasks[1..], id);
      var rest := RemovedById(tasks[1..], id);
      if tasks[0].id != id {
        assert ([tasks[0]] + rest)[1..] == rest;
      } else {
        SkipHeadKeepsSubsequence(rest, tasks);
      }
    }
  }

  lemma ReplacedTail(tasks: seq<TaskView>, id: string, updated: TaskView)
    requires tasks != []
    ensures ReplacedById(tasks, id, updated)[1..] == ReplacedById(tasks[1..], id, updated)
  {
  }

  /** Deleting after an update of the same id gives what deleting alone gives. */
  lemma {:induction false} RemoveAfterReplace(tasks: seq<TaskView>, id: string, updated: TaskView)
    requires updated.id == id
    ensures RemovedById(ReplacedById(tasks, id, updated), id) == RemovedById(tasks, id)
  {
    if tasks != [] {
      var replaced := ReplacedById(tasks, id, updated);
      ReplacedTail(tasks, id, updated);
      RemoveAfterReplace(tasks[1..], id, updated);
      assert replaced[0].id == id <==> tasks[0].id == id;
      assert replaced[0].id != id ==> replaced[0] == tasks[0];
    }
  }

  /** Deleting a task just added gives back the list without it. */
  lemma {:induction false} RemoveAfterAppend(tasks: seq<TaskView>, created: TaskView)
    ensures RemovedById(Appended(tasks, created), created.id) == RemovedById(tasks, created.id)
  {
    if tasks != [] {
      RemoveAfterAppend(tasks[1..], created);
      assert Appended(tasks, created)[1..] == Appended(tasks[1..], created);
    } else {
      assert Appended(tasks, created) == [created];
    }
  }

  // ---------------------------------------------------------------------------
  // The labels of the signed-in user
  // ---------------------------------------------------------------------------

  /** `user && user.name && typeof user.name === 'string'`: a non-empty string name. */
  predicate HasName(user: Option<Profile>) {
    user.Some? && user.value.name.Str? && user.value.name.s != ""
  }

  /** `toUpperCase` on one character, for the ASCII letters. */
  function UpperAscii(c: char): (r: char)
    ensures 'a' <= c <= 'z' ==> 'A' <= r <= 'Z' && r as int - c as int == 'A' as int - 'a' as int
    ensures !('a' <= c <= 'z') ==> r == c
  {
    if 'a' <= c <= 'z' then (c as int - 'a' as int + 'A' as int) as char else c
  }

  /** `getUserName`: the name, or 'User'. */
  function UserName(user: Option<Profile>): (r: string)
    ensures r != ""
    ensures HasName(user) ==> r == user.value.name.s
    ensures !HasName(user) ==> r == "User"
  {
    if HasName(user) then user.value.name.s else "User"
  }

  /** `getUserInitial`: the upper-cased first character of the name, or 'U'. */
  function UserInitial(user: Option<Profile>): (r: string)
    ensures |r| == 1
    ensures HasName(user) ==> r == [UpperAscii(user.value.name.s[0])]
    ensures !HasName(user) ==> r == "U"
  {
    if HasName(user) then [UpperAscii(user.value.name.s[0])] else "U"
  }

  /** The avatar letter is the upper-cased first letter of the name shown beside it, default included. */
  lemma InitialMatchesName(user: Option<Profile>)
    ensures UserInitial(user) == [UpperAscii(UserName(user)[0])]
  {
  }

  /** `getUserRole`: 'Administrator' for the admin role, 'User' otherwise (also without a role). */
  function UserRole(user: Option<Profile>): (r: string)
    ensures r == "Administrator" <==> user.Some? && IsAdminProfile(user.value)
    ensures r == "Administrator" || r == "User"
  {
    if user.Some? && Truthy(user.value.role) then
      (if user.value.role == Str("admin") then "Administrator" else "User")
    else "User"
  }

  /** `getRoleClass`: 'admin' for the admin role, 'user' otherwise. */
  function RoleClass(user: Option<Profile>): (r: string)
    ensures r == "admin" <==> user.Some? && IsAdminProfile(user.value)
    ensures r == "admin" || r == "user"
  {
    if user.Some? && user.value.role == Str("admin") then "admin" else "user"
  }

  /** The role label and its style never disagree. */
  lemma RoleLabelMatchesClass(user: Option<Profile>)
    ensures UserRole(user) == "Administrator" <==> RoleClass(user) == "admin"
  {
  }

  // ---------------------------------------------------------------------------
  // The state cells, overwritten by each call's outcome
  // ---------------------------------------------------------------------------

  /**
   * The dashboard's `tasks`, `loading` and `error` cells. A call's outcome is a
   * parameter: `Some` of what the API answered, or `None` when the call failed.
   */
  class DashboardState {
    var tasks: seq<TaskView>
    var loading: bool
    var error: string

    constructor ()
      ensures tasks == [] && loading && error == ""
    {
      tasks := [];
      loading := true;
      error := "";
    }

    method FetchTasks(response: Option<seq<TaskView>>)
      modifies this
      ensures !loading
      ensures tasks == (if response.Some? then response.value else old(tasks))
      ensures error == (if response.Some? then old(error) else "Failed to fetch tasks")
    {
      if response.Some? {
        tasks := response.value;
        loading := false;
      } else {
        error := "Failed to fetch tasks";
        loading := false;
      }
    }

    method AddTask(response: Option<TaskView>)
      modifies this
      ensures loading == old(loading)
      ensures tasks == (if response.Some? then Appended(old(tasks), response.value) else old(tasks))
      ensures error == (if response.Some? then old(error) else "Failed to add task")
    {
      if response.Some? {
        tasks := Appended(tasks, response.value);
      } else {
        error := "Failed to add task";
      }
    }

    method UpdateTask(id: string, response: Option<TaskView>)
      modifies this
      ensures loading == old(loading)
      ensures tasks == (if response.Some? then ReplacedById(old(tasks), id, response.value) else old(tasks))
      ensures error == (if response.Some? then old(error) else "Failed to update task")
    {
      if response.Some? {
        tasks := ReplacedById(tasks, id, response.value);
      } else {
        error := "Failed to update task";
      }
    }

    method DeleteTask(id: string, deleted: bool)
      modifies this
      ensures loading == old(loading)
      ensures tasks == (if deleted then RemovedById(old(tasks), id) else old(tasks))
      ensures error == (if deleted then old(error) else "Failed to delete task")
    {
      if deleted {
        tasks := RemovedById(tasks, id);
      } else {
        error := "Failed to delete task";
      }
    }
  }
}

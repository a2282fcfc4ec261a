/**
 * The task request handlers (backend/controllers/tasks.js) over an abstract
 * collection `Store`, a map from task id to stored task.
 *
 * Each handler is given twice: as a step function that yields the reply and the
 * collection afterwards (`GetTaskStep`, ...), which the lemmas reason about, and
 * as a method of `TaskCollection`, which changes the collection in place step by
 * step as the handler does and is proved to agree with its step function.
 *
 * The authenticated user of the request is `actor`, the clock reading is `now`.
 */
module TasksController {
  import opened Results
  import opened JsValues
  import opened TaskSchema

  type TaskId = string
  type Store = map<TaskId, Task>

  datatype Role = User | Admin
  datatype Actor = Actor(id: UserId, role: Role)

  datatype Action = Access | Update | Delete

  /** The errors a handler answers with; `StatusOf` gives the HTTP status. */
  datatype ApiError =
    | NotFound(id: TaskId)
    | NotAuthorized(user: UserId, action: Action)
    | BadRequest(detail: ValidationError)
    | ServerError(cause: SchemaError)

  function StatusOf(e: ApiError): (code: nat)
    ensures code == 404 <==> e.NotFound?
    ensures code == 401 <==> e.NotAuthorized?
    ensures code == 400 <==> e.BadRequest?
    ensures code == 500 <==> e.ServerError?
  {
    match e
    case NotFound(_) => 404
    case NotAuthorized(_, _) => 401
    case BadRequest(_) => 400
    case ServerError(_) => 500
  }

  /** What a handler answers, and the collection after it. */
  datatype Step<T> = Step(reply: Result<T, ApiError>, store: Store)

  // ---------------------------------------------------------------------------
  // Who may do what
  // ---------------------------------------------------------------------------

  predicate IsOwner(t: Task, actor: Actor) {
    t.user == actor.id
  }

  predicate IsAssignee(t: Task, actor: Actor) {
    t.assignedTo == Some(actor.id)
  }

  /** The read gate of `getTask`: owner, assignee or admin. */
  predicate MayAccess(t: Task, actor: Actor) {
    IsOwner(t, actor) || IsAssignee(t, actor) || actor.role == Admin
  }

  /** The gate of `updateTask` and `deleteTask`: owner or admin. */
  predicate MayChange(t: Task, actor: Actor) {
    IsOwner(t, actor) || actor.role == Admin
  }

  /** The `$or` filter of `getTasks`: the actor's own tasks and the ones assigned to the actor. */
  predicate Listed(t: Task, actor: Actor) {
    IsOwner(t, actor) || IsAssignee(t, actor)
  }

  /** Whoever may change a task may read it; an assignee who is neither owner nor admin may only read. */
  lemma ChangeImpliesAccess(t: Task, actor: Actor)
    ensures MayChange(t, actor) ==> MayAccess(t, actor)
    ensures IsAssignee(t, actor) && !IsOwner(t, actor) && actor.role == User ==> MayAccess(t, actor) && !MayChange(t, actor)
  {
  }

  // ---------------------------------------------------------------------------
  // The handlers as step functions
  // ---------------------------------------------------------------------------

  /** `getTasks`: the tasks the actor owns or is assigned, whatever the actor's role. */
  function GetTasksQuery(store: Store, actor: Actor): (r: Store)
    ensures r.Keys <= store.Keys
    ensures forall id :: id in store ==> (id in r <==> Listed(store[id], actor))
    ensures forall id :: id in r ==> r[id] == store[id]
  {
    map id | id in store && Listed(store[id], actor) :: store[id]
  }

  /**
   * `getTask`: 404 for an unknown id, then the read gate, then the assignee's
   * first read sets `isNotified`, which is saved and shows in the reply.
   */
  function GetTaskStep(store: Store, actor: Actor, id: TaskId): (r: Step<Task>)
    ensures id !in store ==> r == Step(Failure(NotFound(id)), store)
    ensures id in store && !MayAccess(store[id], actor) ==> r == Step(Failure(NotAuthorized(actor.id, Access)), store)
    ensures r.reply.Success? <==> id in store && MayAccess(store[id], actor)
    ensures r.reply.Success? ==>
      && r.reply.value == store[id].(isNotified := store[id].isNotified || IsAssignee(store[id], actor))
      && r.store == store[id := r.reply.value]
  {
    if id !in store then Step(Failure(NotFound(id)), store)
    else
      var task := store[id];
      if !MayAccess(task, actor) then Step(Failure(NotAuthorized(actor.id, Access)), store)
      else if !task.isNotified && IsAssignee(task, actor) then
        var seen := task.(isNotified := true);
        Step(Success(seen), store[id := seen])
      else Step(Success(task), store)
  }

  /** Whether the admin branch of `createTask` stamps the assignment time. */
  predicate StampsOnCreate(actor: Actor, body: Object) {
    actor.role == Admin && TruthyAt(body, "assignedTo")
  }

  /** The document `createTask` hands to the collection: the body, its owner and, when stamped, `assignedAt`. */
  function CreateBody(actor: Actor, body: Object, now: int): Object {
    var withOwner := body["user" := Str(actor.id)];
    if StampsOnCreate(actor, body) then withOwner["assignedAt" := Num(now)] else withOwner
  }

  /** What the collection makes of a validated body: a task owned by the actor, with the schema's defaults. */
  lemma CreatedDocument(actor: Actor, body: Object, now: int)
    requires AcceptedBody(body)
    ensures var r := BuildTask(CreateBody(actor, body, now), now);
            && (r.Success? <==> Trim(body["title"].s) != [])
            && (r.Success? ==> r.value == Task(
                 Trim(body["title"].s),
                 body["description"].s,
                 "completed" in body && body["completed"].b,
                 actor.id,
                 if "assignedTo" in body then Some(body["assignedTo"].s) else None,
                 false,
                 if actor.role == Admin && "assignedTo" in body then Some(now) else None,
                 now))
  {
    var doc := CreateBody(actor, body, now);
    assert "user" !in body && "assignedAt" !in body && "isNotified" !in body && "createdAt" !in body;
    assert doc["title"] == body["title"] && doc["description"] == body["description"];
    assert "completed" in doc <==> "completed" in body;
    assert "completed" in body ==> doc["completed"] == body["completed"];
    assert "assignedTo" in doc <==> "assignedTo" in body;
    assert "assignedTo" in body ==> doc["assignedTo"] == body["assignedTo"];
    assert "isNotified" !in doc && "createdAt" !in doc;
    assert doc["user"] == Str(actor.id);
    assert "assignedAt" in doc <==> StampsOnCreate(actor, body);
    assert Castable(doc);
  }

  /**
   * `createTask`: validate the body, then add the owner (`user`) and, for an admin
   * who assigns, `assignedAt`, and create the document under the fresh id the
   * collection hands out.
   */
  function CreateTaskStep(store: Store, actor: Actor, body: Object, newId: TaskId, now: int): (r: Step<Task>)
    requires newId !in store
    ensures !AcceptedBody(body) ==> r == Step(Failure(BadRequest(ValidateTask(body).value)), store)
    ensures r.reply.Success? <==> AcceptedBody(body) && Trim(body["title"].s) != []
    ensures r.reply.Failure? ==> r.store == store
    ensures r.reply.Success? ==> WellFormedTask(r.reply.value)
    ensures r.reply.Success? ==>
      && r.store == store[newId := r.reply.value]
      && r.reply.value == Task(
           Trim(body["title"].s),
           body["description"].s,
           "completed" in body && body["completed"].b,
           actor.id,
           if "assignedTo" in body then Some(body["assignedTo"].s) else None,
           false,
           if actor.role == Admin && "assignedTo" in body then Some(now) else None,
           now)
  {
    match ValidateTask(body)
    case Some(e) => Step(Failure(BadRequest(e)), store)
    case None =>
      CreatedDocument(actor, body, now);
      match BuildTask(CreateBody(actor, body, now), now)
      case Failure(e) => Step(Failure(ServerError(e)), store)
      case Success(task) => Step(Success(task), store[newId := task])
  }

  /** Whether the admin branch of `updateTask` injects `assignedAt` into the body. */
  predicate StampsOnUpdate(actor: Actor, task: Task, body: Object) {
    actor.role == Admin && TruthyAt(body, "assignedTo") && task.assignedTo.None?
  }

  /** The body `updateTask` validates and writes: the request body, with `assignedAt` when stamped. */
  function UpdateBody(actor: Actor, task: Task, body: Object, now: int): Object {
    if StampsOnUpdate(actor, task, body) then body["assignedAt" := Num(now)] else body
  }

  /** The injected `assignedAt` is the one key that can turn a valid body into an invalid one. */
  lemma UpdateBodyValidates(actor: Actor, task: Task, body: Object, now: int)
    ensures ValidateTask(UpdateBody(actor, task, body, now)).None? <==> AcceptedBody(body) && !StampsOnUpdate(actor, task, body)
    ensures !AcceptedBody(body) ==> ValidateTask(UpdateBody(actor, task, body, now)).Some?
  {
    if StampsOnUpdate(actor, task, body) {
      assert "assignedAt" in UpdateBody(actor, task, body, now);
    }
  }

  /** What `$set` makes of a validated body: the four declared fields change, nothing else. */
  lemma AcceptedBodyApplies(task: Task, body: Object)
    requires WellFormedTask(task) && AcceptedBody(body)
    ensures var r := ApplySet(task, body);
            && (r.Success? <==> Trim(body["title"].s) != [])
            && (r.Success? ==> r.value == task.(
                 title := Trim(body["title"].s),
                 description := body["description"].s,
                 completed := if "completed" in body then body["completed"].b else task.completed,
                 assignedTo := if "assignedTo" in body then Some(body["assignedTo"].s) else task.assignedTo))
  {
    assert "user" !in body && "assignedAt" !in body && "isNotified" !in body && "createdAt" !in body;
    assert Castable(body);
  }

  /**
   * `updateTask`: 404, then the owner-or-admin gate, then `assignedAt` is put into
   * the body for an admin's first assignment, then the whole body is validated with
   * the same validator as creation and `$set` on the stored document.
   */
  function UpdateTaskStep(store: Store, actor: Actor, id: TaskId, body: Object, now: int): (r: Step<Task>)
    requires AllWellFormed(store)
    ensures id !in store ==> r == Step(Failure(NotFound(id)), store)
    ensures id in store && !MayChange(store[id], actor) ==> r == Step(Failure(NotAuthorized(actor.id, Update)), store)
    ensures r.reply.Failure? ==> r.store == store
    ensures id in store && MayChange(store[id], actor) && ValidateTask(UpdateBody(actor, store[id], body, now)).Some? ==>
      r == Step(Failure(BadRequest(ValidateTask(UpdateBody(actor, store[id], body, now)).value)), store)
    ensures id in store && MayChange(store[id], actor) && AcceptedBody(body) && !StampsOnUpdate(actor, store[id], body)
            && Trim(body["title"].s) == [] ==>
      r.reply.Failure? && r.reply.error.ServerError?
    ensures r.reply.Success? <==>
      && id in store && MayChange(store[id], actor)
      && AcceptedBody(body) && !StampsOnUpdate(actor, store[id], body) && Trim(body["title"].s) != []
    ensures r.reply.Success? ==> WellFormedTask(r.reply.value)
    ensures r.reply.Success? ==>
      && r.store == store[id := r.reply.value]
      && r.reply.value == store[id].(
           title := Trim(body["title"].s),
           description := body["description"].s,
           completed := if "completed" in body then body["completed"].b else store[id].completed,
           assignedTo := if "assignedTo" in body then Some(body["assignedTo"].s) else store[id].assignedTo)
  {
    if id !in store then Step(Failure(NotFound(id)), store)
    else
      var task := store[id];
      if !MayChange(task, actor) then Step(Failure(NotAuthorized(actor.id, Update)), store)
      else
        var doc := UpdateBody(actor, task, body, now);
        UpdateBodyValidates(actor, task, body, now);
        match ValidateTask(doc)
        case Some(e) => Step(Failure(BadRequest(e)), store)
        case None =>
          AcceptedBodyApplies(task, doc);
          match ApplySet(task, doc)
          case Failure(e) => Step(Failure(ServerError(e)), store)
          case Success(updated) => Step(Success(updated), store[id := updated])
  }

  /** `deleteTask`: 404, then the owner-or-admin gate, then the document is removed. */
  function DeleteTaskStep(store: Store, actor: Actor, id: TaskId): (r: Step<()>)
    ensures id !in store ==> r == Step(Failure(NotFound(id)), store)
    ensures id in store && !MayChange(store[id], actor) ==> r == Step(Failure(NotAuthorized(actor.id, Delete)), store)
    ensures r.reply.Success? <==> id in store && MayChange(store[id], actor)
    ensures r.reply.Success? ==> r.store.Keys == store.Keys - {id} && forall k :: k in r.store ==> r.store[k] == store[k]
  {
    if id !in store then Step(Failure(NotFound(id)), store)
    else if !MayChange(store[id], actor) then Step(Failure(NotAuthorized(actor.id, Delete)), store)
    else Step(Success(()), store - {id})
  }

  // ---------------------------------------------------------------------------
  // Properties of the handlers
  // ---------------------------------------------------------------------------

  /** The list is the same for a user and an admin with the same id: the role does not widen it. */
  lemma ListIgnoresRole(store: Store, id: UserId)
    ensures GetTasksQuery(store, Actor(id, Admin)) == GetTasksQuery(store, Actor(id, User))
  {
    var a := GetTasksQuery(store, Actor(id, Admin));
    var u := GetTasksQuery(store, Actor(id, User));
    assert a.Keys == u.Keys;
  }

  /** Every listed task passes the read gate; for a non-admin the list is exactly what the gate lets through. */
  lemma ListedTasksAreReadable(store: Store, actor: Actor, id: TaskId)
    ensures id in GetTasksQuery(store, actor) ==> GetTaskStep(store, actor, id).reply.Success?
    ensures actor.role == User && id in store ==>
      (id in GetTasksQuery(store, actor) <==> GetTaskStep(store, actor, id).reply.Success?)
  {
  }

  /** A second read by the same actor changes nothing and answers the same. */
  lemma GetTaskIdempotent(store: Store, actor: Actor, id: TaskId)
    ensures var first := GetTaskStep(store, actor, id);
            var second := GetTaskStep(first.store, actor, id);
            second.store == first.store && second.reply == first.reply
  {
  }

  /** A read touches nothing but `isNotified`, and only for the assignee, from false to true. */
  lemma GetTaskOnlyNotifies(store: Store, actor: Actor, id: TaskId)
    ensures var r := GetTaskStep(store, actor, id);
            && r.store.Keys == store.Keys
            && (forall k :: k in store && k != id ==> r.store[k] == store[k])
            && (id in store ==> r.store[id].(isNotified := store[id].isNotified) == store[id])
            && (id in store ==> (r.store[id].isNotified != store[id].isNotified <==>
                                 !store[id].isNotified && IsAssignee(store[id], actor) && MayAccess(store[id], actor)))
  {
  }

  /** The stored task never gets an owner, a notification flag or an assignment time through an update. */
  lemma UpdateKeepsProtectedFields(store: Store, actor: Actor, id: TaskId, body: Object, now: int)
    requires AllWellFormed(store)
    ensures var r := UpdateTaskStep(store, actor, id, body, now);
            r.reply.Success? ==>
              && r.reply.value.user == store[id].user
              && r.reply.value.isNotified == store[id].isNotified
              && r.reply.value.assignedAt == store[id].assignedAt
              && r.reply.value.createdAt == store[id].createdAt
  {
  }

  /** A body that fails validation is answered 400 and leaves the collection as it was. */
  lemma InvalidBodyChangesNothing(store: Store, actor: Actor, id: TaskId, body: Object, now: int, newId: TaskId)
    requires AllWellFormed(store)
    requires newId !in store
    requires !AcceptedBody(body)
    ensures CreateTaskStep(store, actor, body, newId, now) == Step(Failure(BadRequest(ValidateTask(body).value)), store)
    ensures var r := UpdateTaskStep(store, actor, id, body, now);
            r.store == store && r.reply.Failure?
            && (id in store && MayChange(store[id], actor) ==> StatusOf(r.reply.error) == 400)
  {
    if id in store && MayChange(store[id], actor) {
      UpdateBodyValidates(actor, store[id], body, now);
    }
  }

  /**
   * As written, an admin can never give an unassigned task its first assignee through
   * an update: the injected `assignedAt` is a key the validator refuses.
   */
  lemma AdminFirstAssignmentRejected(store: Store, actor: Actor, id: TaskId, body: Object, now: int)
    requires AllWellFormed(store)
    requires id in store && store[id].assignedTo.None?
    requires actor.role == Admin && TruthyAt(body, "assignedTo")
    ensures var r := UpdateTaskStep(store, actor, id, body, now);
            r.store == store && r.reply.Failure? && StatusOf(r.reply.error) == 400
  {
    var doc := UpdateBody(actor, store[id], body, now);
    assert "assignedAt" in doc && "assignedAt" !in DeclaredKeys;
  }

  /** The request that shows it: a well-formed assignment by an admin, answered 400 `"assignedAt" is not allowed`. */
  lemma AdminFirstAssignmentExample()
    ensures var task := Task("Write report", "Quarterly figures", false, "64b7f0c2a1d3e4f5a6b7c801", None, false, None, 0);
            var body := map["title" := Str("Write report"), "description" := Str("Quarterly figures"),
                            "assignedTo" := Str("64b7f0c2a1d3e4f5a6b7c802")];
            UpdateTaskStep(map["64b7f0c2a1d3e4f5a6b7c8d9" := task], Actor("64b7f0c2a1d3e4f5a6b7c8aa", Admin),
                           "64b7f0c2a1d3e4f5a6b7c8d9", body, 5).reply
              == Failure(BadRequest(NotAllowed({"assignedAt"})))
  {
    var task := Task("Write report", "Quarterly figures", false, "64b7f0c2a1d3e4f5a6b7c801", None, false, None, 0);
    var body := map["title" := Str("Write report"), "description" := Str("Quarterly figures"),
                    "assignedTo" := Str("64b7f0c2a1d3e4f5a6b7c802")];
    var doc := body["assignedAt" := Num(5)];
    assert doc.Keys - DeclaredKeys == {"assignedAt"};
  }

  /**
   * As written, a non-admin owner's `assignedTo` is stored, on creation and on update,
   * and the task is then assigned with no assignment time.
   */
  lemma NonAdminAssignmentStored(store: Store, owner: UserId, assignee: UserId, newId: TaskId, id: TaskId, now: int)
    requires newId !in store && assignee != ""
    requires AllWellFormed(store) && id in store && store[id].user == owner && store[id].assignedAt.None?
    ensures var body := map["title" := Str("Fix bug"), "description" := Str("Crash on save"), "assignedTo" := Str(assignee)];
            var r := CreateTaskStep(store, Actor(owner, User), body, newId, now);
            r.reply.Success? && r.reply.value.assignedTo == Some(assignee) && r.reply.value.assignedAt.None?
    ensures var body := map["title" := Str("Fix bug"), "description" := Str("Crash on save"), "assignedTo" := Str(assignee)];
            var r := UpdateTaskStep(store, Actor(owner, User), id, body, now);
            r.reply.Success? && r.reply.value.assignedTo == Some(assignee) && r.reply.value.assignedAt.None?
  {
    var body := map["title" := Str("Fix bug"), "description" := Str("Crash on save"), "assignedTo" := Str(assignee)];
    assert AcceptedBody(body);
    assert Trim("Fix bug") != [] by {
      TrimOfTrimmed("Fix bug");
    }
    assert !StampsOnUpdate(Actor(owner, User), store[id], body);
    assert MayChange(store[id], Actor(owner, User));
  }

  /**
   * A title of whitespace only passes the validator but is emptied by the schema's
   * `trim`, so `required` fails inside the database call and the answer is 500, not 400.
   */
  lemma BlankTitleIsServerError(store: Store, actor: Actor, body: Object, newId: TaskId, now: int)
    requires newId !in store
    requires AcceptedBody(body) && Trim(body["title"].s) == []
    ensures var r := CreateTaskStep(store, actor, body, newId, now);
            r.store == store && r.reply.Failure? && StatusOf(r.reply.error) == 500
  {
    CreatedDocument(actor, body, now);
  }

  /** Every stored task meets the schema's constraints. */
  predicate AllWellFormed(store: Store) {
    forall k :: k in store ==> WellFormedTask(store[k])
  }

  /** Storing a well-formed task under any id keeps every stored task well formed. */
  lemma StoreKeepsWellFormed(store: Store, id: TaskId, t: Task)
    requires AllWellFormed(store) && WellFormedTask(t)
    ensures AllWellFormed(store[id := t])
  {
  }

  /** The handlers keep the schema's constraints on every stored task. */
  lemma GetTaskKeepsWellFormed(store: Store, actor: Actor, id: TaskId)
    requires AllWellFormed(store)
    ensures AllWellFormed(GetTaskStep(store, actor, id).store)
  {
  }

  lemma CreateTaskKeepsWellFormed(store: Store, actor: Actor, body: Object, newId: TaskId, now: int)
    requires AllWellFormed(store) && newId !in store
    ensures AllWellFormed(CreateTaskStep(store, actor, body, newId, now).store)
  {
    var r := CreateTaskStep(store, actor, body, newId, now);
    if r.reply.Success? {
      StoreKeepsWellFormed(store, newId, r.reply.value);
    }
  }

  lemma UpdateTaskKeepsWellFormed(store: Store, actor: Actor, id: TaskId, body: Object, now: int)
    requires AllWellFormed(store)
    ensures AllWellFormed(UpdateTaskStep(store, actor, id, body, now).store)
  {
    var r := UpdateTaskStep(store, actor, id, body, now);
    if r.reply.Success? {
      StoreKeepsWellFormed(store, id, r.reply.value);
    }
  }

  lemma DeleteTaskKeepsWellFormed(store: Store, actor: Actor, id: TaskId)
    requires AllWellFormed(store)
    ensures AllWellFormed(DeleteTaskStep(store, actor, id).store)
  {
  }

  /** `isNotified` never goes back to false and no stored task changes owner, whatever handler runs. */
  predicate OwnersAndFlagsKept(before: Store, after: Store) {
    forall k :: k in after && k in before ==>
      after[k].user == before[k].user && (before[k].isNotified ==> after[k].isNotified)
  }

  /** Storing a task that keeps the owner and flag of the one it replaces, if any, keeps every owner and flag. */
  lemma StoreKeepsOwnersAndFlags(store: Store, id: TaskId, t: Task)
    requires id in store ==> t.user == store[id].user && (store[id].isNotified ==> t.isNotified)
    ensures OwnersAndFlagsKept(store, store[id := t])
  {
  }

  lemma GetTaskKeepsOwnersAndFlags(store: Store, actor: Actor, id: TaskId)
    ensures OwnersAndFlagsKept(store, GetTaskStep(store, actor, id).store)
  {
  }

  lemma CreateTaskKeepsOwnersAndFlags(store: Store, actor: Actor, body: Object, newId: TaskId, now: int)
    requires newId !in store
    ensures OwnersAndFlagsKept(store, CreateTaskStep(store, actor, body, newId, now).store)
  {
  }

  lemma UpdateTaskKeepsOwnersAndFlags(store: Store, actor: Actor, id: TaskId, body: Object, now: int)
    requires AllWellFormed(store)
    ensures OwnersAndFlagsKept(store, UpdateTaskStep(store, actor, id, body, now).store)
  {
    var r := UpdateTaskStep(store, actor, id, body, now);
    if r.reply.Success? {
      StoreKeepsOwnersAndFlags(store, id, r.reply.value);
    }
  }

  lemma DeleteTaskKeepsOwnersAndFlags(store: Store, actor: Actor, id: TaskId)
    ensures OwnersAndFlagsKept(store, DeleteTaskStep(store, actor, id).store)
  {
  }

  // ---------------------------------------------------------------------------
  // The assignment rules as evidently intended
  //
  // As written, `createTask` and `updateTask` store a non-admin's `assignedTo`
  // (with no `assignedAt`), and `updateTask` refuses every first assignment by an
  // admin (see `NonAdminAssignmentStored` and `AdminFirstAssignmentRejected`).
  // The handlers below drop a non-admin's `assignedTo` and validate the client's
  // body before `assignedAt` is added, so that only admins assign and every
  // assignment carries the time it was first made.
  // ---------------------------------------------------------------------------

  /** The request body with `assignedTo` kept for an admin and dropped for anyone else. */
  function AssignableBody(actor: Actor, body: Object): (r: Object)
    ensures AcceptedBody(body) ==> AcceptedBody(r)
    ensures "assignedTo" in r <==> actor.role == Admin && "assignedTo" in body
  {
    if actor.role == Admin then body else body - {"assignedTo"}
  }

  function CreateTaskCorrected(store: Store, actor: Actor, body: Object, newId: TaskId, now: int): (r: Step<Task>)
    requires newId !in store
    ensures r.reply.Failure? ==> r.store == store
    ensures r.reply.Success? <==> AcceptedBody(body) && Trim(body["title"].s) != []
    ensures r.reply.Success? ==>
      && r.store == store[newId := r.reply.value]
      && r.reply.value.user == actor.id
      && !r.reply.value.isNotified
      && (r.reply.value.assignedTo.Some? <==> actor.role == Admin && "assignedTo" in body)
      && r.reply.value.assignedAt == (if r.reply.value.assignedTo.Some? then Some(now) else None)
  {
    match ValidateTask(body)
    case Some(e) => Step(Failure(BadRequest(e)), store)
    case None =>
      var kept := AssignableBody(actor, body);
      CreatedDocument(actor, kept, now);
      match BuildTask(CreateBody(actor, kept, now), now)
      case Failure(e) => Step(Failure(ServerError(e)), store)
      case Success(task) => Step(Success(task), store[newId := task])
  }

  /** `$set` of a validated body together with `assignedAt`: the four declared fields and the time change. */
  lemma StampedBodyApplies(task: Task, body: Object, now: int)
    requires WellFormedTask(task) && AcceptedBody(body)
    ensures var r := ApplySet(task, body["assignedAt" := Num(now)]);
            && (r.Success? <==> Trim(body["title"].s) != [])
            && (r.Success? ==> r.value == task.(
                 title := Trim(body["title"].s),
                 description := body["description"].s,
                 completed := if "completed" in body then body["completed"].b else task.completed,
                 assignedTo := if "assignedTo" in body then Some(body["assignedTo"].s) else task.assignedTo,
                 assignedAt := Some(now)))
  {
    var doc := body["assignedAt" := Num(now)];
    assert "user" !in body && "assignedAt" !in body && "isNotified" !in body && "createdAt" !in body;
    assert "user" !in doc && "isNotified" !in doc && "createdAt" !in doc;
    assert doc["title"] == body["title"] && doc["description"] == body["description"];
    assert "completed" in doc <==> "completed" in body;
    assert "completed" in body ==> doc["completed"] == body["completed"];
    assert "assignedTo" in doc <==> "assignedTo" in body;
    assert "assignedTo" in body ==> doc["assignedTo"] == body["assignedTo"];
    assert Castable(doc);
  }

  function UpdateTaskCorrected(store: Store, actor: Actor, id: TaskId, body: Object, now: int): (r: Step<Task>)
    requires AllWellFormed(store)
    ensures id !in store ==> r == Step(Failure(NotFound(id)), store)
    ensures id in store && !MayChange(store[id], actor) ==> r == Step(Failure(NotAuthorized(actor.id, Update)), store)
    ensures r.reply.Failure? ==> r.store == store
    ensures r.reply.Success? <==>
      id in store && MayChange(store[id], actor) && AcceptedBody(body) && Trim(body["title"].s) != []
    ensures r.reply.Success? ==>
      && r.store == store[id := r.reply.value]
      && r.reply.value.user == store[id].user
      && r.reply.value.isNotified == store[id].isNotified
      && r.reply.value.assignedTo ==
           (if actor.role == Admin && "assignedTo" in body then Some(body["assignedTo"].s) else store[id].assignedTo)
      && r.reply.value.assignedAt ==
           (if store[id].assignedTo.None? && r.reply.value.assignedTo.Some? then Some(now) else store[id].assignedAt)
  {
    if id !in store then Step(Failure(NotFound(id)), store)
    else
      var task := store[id];
      if !MayChange(task, actor) then Step(Failure(NotAuthorized(actor.id, Update)), store)
      else
        match ValidateTask(body)
        case Some(e) => Step(Failure(BadRequest(e)), store)
        case None =>
          var kept := AssignableBody(actor, body);
          var stamps := StampsOnUpdate(actor, task, body);
          var doc := if stamps then kept["assignedAt" := Num(now)] else kept;
          AcceptedBodyApplies(task, kept);
          StampedBodyApplies(task, kept, now);
          match ApplySet(task, doc)
          case Failure(e) => Step(Failure(ServerError(e)), store)
          case Success(updated) => Step(Success(updated), store[id := updated])
  }

  /** A task is assigned exactly when it carries an assignment time. */
  predicate AssignmentStamped(t: Task) {
    t.assignedTo.Some? <==> t.assignedAt.Some?
  }

  predicate AllStamped(store: Store) {
    forall k :: k in store ==> AssignmentStamped(store[k])
  }

  /** Storing a task whose assignment is stamped keeps every assignment stamped. */
  lemma StoreKeepsStamps(store: Store, id: TaskId, t: Task)
    requires AllStamped(store) && AssignmentStamped(t)
    ensures AllStamped(store[id := t])
  {
  }

  /** With the corrected handlers every assignment carries the time of the first one; reads and deletes keep that. */
  lemma CorrectedCreateKeepsStamps(store: Store, actor: Actor, body: Object, newId: TaskId, now: int)
    requires AllStamped(store) && newId !in store
    ensures AllStamped(CreateTaskCorrected(store, actor, body, newId, now).store)
  {
    var r := CreateTaskCorrected(store, actor, body, newId, now);
    if r.reply.Success? {
      StoreKeepsStamps(store, newId, r.reply.value);
    }
  }

  lemma CorrectedUpdateKeepsStamps(store: Store, actor: Actor, id: TaskId, body: Object, now: int)
    requires AllWellFormed(store) && AllStamped(store)
    ensures AllStamped(UpdateTaskCorrected(store, actor, id, body, now).store)
  {
    var r := UpdateTaskCorrected(store, actor, id, body, now);
    if r.reply.Success? {
      CorrectedUpdateStampsTask(store, actor, id, body, now);
      StoreKeepsStamps(store, id, r.reply.value);
    }
  }

  /** The task the corrected update writes is assigned exactly when it carries an assignment time. */
  lemma CorrectedUpdateStampsTask(store: Store, actor: Actor, id: TaskId, body: Object, now: int)
    requires AllWellFormed(store) && AllStamped(store)
    ensures var r := UpdateTaskCorrected(store, actor, id, body, now);
            r.reply.Success? ==> AssignmentStamped(r.reply.value)
  {
    var r := UpdateTaskCorrected(store, actor, id, body, now);
    if r.reply.Success? {
      var before, after := store[id], r.reply.value;
      assert after.assignedTo.None? ==> before.assignedTo.None?;
      assert after.assignedAt == (if before.assignedTo.None? && after.assignedTo.Some? then Some(now) else before.assignedAt);
      assert AssignmentStamped(before);
    }
  }

  lemma ReadAndDeleteKeepStamps(store: Store, actor: Actor, id: TaskId)
    requires AllStamped(store)
    ensures AllStamped(GetTaskStep(store, actor, id).store)
    ensures AllStamped(DeleteTaskStep(store, actor, id).store)
  {
  }

  /** With the corrected handlers, once set the assignment time never changes, and only an admin assigns. */
  lemma CorrectedUpdateKeepsFirstStamp(store: Store, actor: Actor, id: TaskId, body: Object, now: int)
    requires AllWellFormed(store) && AllStamped(store)
    ensures var r := UpdateTaskCorrected(store, actor, id, body, now);
            r.reply.Success? ==>
              && (store[id].assignedAt.Some? ==> r.reply.value.assignedAt == store[id].assignedAt)
              && (actor.role == User ==> r.reply.value.assignedTo == store[id].assignedTo)
  {
    var r := UpdateTaskCorrected(store, actor, id, body, now);
    if r.reply.Success? {
      assert AssignmentStamped(store[id]);
    }
  }

  /** The corrected update accepts the request `AdminFirstAssignmentExample` shows refused. */
  lemma CorrectedAdminFirstAssignment(store: Store, actor: Actor, id: TaskId, body: Object, now: int)
    requires AllWellFormed(store) && id in store && store[id].assignedTo.None?
    requires actor.role == Admin && AcceptedBody(body) && "assignedTo" in body && Trim(body["title"].s) != []
    ensures var r := UpdateTaskCorrected(store, actor, id, body, now);
            r.reply.Success? && r.reply.value.assignedTo == Some(body["assignedTo"].s) && r.reply.value.assignedAt == Some(now)
  {
  }

  // ---------------------------------------------------------------------------
  // The collection, changed in place by the handlers
  // ---------------------------------------------------------------------------

  class TaskCollection {
    var tasks: Store

    ghost predicate Valid()
      reads this
    {
      AllWellFormed(tasks)
    }

    constructor ()
      ensures Valid() && tasks == map[]
    {
      tasks := map[];
    }

    method GetTasks(actor: Actor) returns (listed: Store)
      ensures listed == GetTasksQuery(tasks, actor)
    {
      listed := GetTasksQuery(tasks, actor);
    }

    method GetTask(actor: Actor, id: TaskId) returns (reply: Result<Task, ApiError>)
      requires Valid()
      modifies this
      ensures Valid()
      ensures Step(reply, tasks) == GetTaskStep(old(tasks), actor, id)
    {
      if id !in tasks {
        return Failure(NotFound(id));
      }
      var task := tasks[id];
      if !MayAccess(task, actor) {
        return Failure(NotAuthorized(actor.id, Access));
      }
      if !task.isNotified && IsAssignee(task, actor) {
        task := task.(isNotified := true);
        tasks := tasks[id := task];
      }
      return Success(task);
    }

    method CreateTask(actor: Actor, body: Object, newId: TaskId, now: int) returns (reply: Result<Task, ApiError>)
      requires Valid() && newId !in tasks
      modifies this
      ensures Valid()
      ensures Step(reply, tasks) == CreateTaskStep(old(tasks), actor, body, newId, now)
    {
      var error := ValidateTask(body);
      if error.Some? {
        return Failure(BadRequest(error.value));
      }
      var doc := body;
      doc := doc["user" := Str(actor.id)];
      if actor.role == Admin && TruthyAt(doc, "assignedTo") {
        doc := doc["assignedAt" := Num(now)];
      }
      assert doc == CreateBody(actor, body, now);
      var created := BuildTask(doc, now);
      CreateTaskKeepsWellFormed(tasks, actor, body, newId, now);
      if created.Failure? {
        return Failure(ServerError(created.error));
      }
      tasks := tasks[newId := created.value];
      return Success(created.value);
    }

    method UpdateTask(actor: Actor, id: TaskId, body: Object, now: int) returns (reply: Result<Task, ApiError>)
      requires Valid()
      modifies this
      ensures Valid()
      ensures Step(reply, tasks) == UpdateTaskStep(old(tasks), actor, id, body, now)
    {
      if id !in tasks {
        return Failure(NotFound(id));
      }
      var task := tasks[id];
      if !MayChange(task, actor) {
        return Failure(NotAuthorized(actor.id, Update));
      }
      var doc := body;
      if actor.role == Admin && TruthyAt(doc, "assignedTo") && task.assignedTo.None? {
        doc := doc["assignedAt" := Num(now)];
      }
      assert doc == UpdateBody(actor, task, body, now);
      UpdateTaskKeepsWellFormed(tasks, actor, id, body, now);
      var error := ValidateTask(doc);
      if error.Some? {
        return Failure(BadRequest(error.value));
      }
      var updated := ApplySet(task, doc);
      if updated.Failure? {
        return Failure(ServerError(updated.error));
      }
      tasks := tasks[id := updated.value];
      return Success(updated.value);
    }

    method DeleteTask(actor: Actor, id: TaskId) returns (reply: Result<(), ApiError>)
      requires Valid()
      modifies this
      ensures Valid()
      ensures Step(reply, tasks) == DeleteTaskStep(old(tasks), actor, id)
    {
      if id !in tasks {
        return Failure(NotFound(id));
      }
      if !MayChange(tasks[id], actor) {
        return Failure(NotAuthorized(actor.id, Delete));
      }
      tasks := tasks - {id};
      return Success(());
    }
  }
}

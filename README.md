# Task manager: a Dafny model of the task lifecycle

This project models the core of a small task-manager web application: an Express/Mongoose
REST backend and a React frontend. Users own tasks, and an administrator can assign a
task to another user.

The backend part covers:

- the five task handlers (`getTasks`, `getTask`, `createTask`, `updateTask`, `deleteTask`) with their
  authorization gates and their 404 / 401 / 400 / 500 answers;
- the Joi validator that judges request bodies;
- the Mongoose schema that casts, trims, defaults and validates the stored document.

The frontend part covers the list transforms and state cells of the dashboard, the task list filter, the
create form and a task item.

Modules:

- `Results`: `Option` and `Result`.
- `JsValues`: JSON values as the handlers receive them, and JavaScript truthiness.
- `TaskSchema` (`backend/models/Task.js`) has three parts:
  - `ValidateTask`, the Joi validator, which reports the first error in declared-key order;
  - `Trim`, ECMAScript `String.prototype.trim`;
  - `BuildTask`/`ApplySet`: the Mongoose casting, `trim`, `required`, `maxlength` and defaults, on creation and on `$set`.
- `TasksController` (`backend/controllers/tasks.js`): each handler is a step function
  `Store -> Step(reply, store')` over the collection `map<TaskId, Task>`. `TaskCollection` is a class
  whose methods change the collection in place, step by step as the handlers do, and each method is
  proved to agree with its step function. The lemmas state the authorization, notification and
  invariant properties, and the two findings below with their corrected handlers.
- `ClientModel`: the task as the frontend shows it, the signed-in profile, and the subsequence relation.
- `TaskList`, `Dashboard`, `TaskForm`, `TaskItem` (`frontend/src/components/*.jsx`): the pure transforms
  as functions, and each component's `useState` cells as a class whose methods are its event handlers.

The request body is a `map<string, Value>`, so the keys the handlers add (`user`, `assignedAt`) are
visible to the validator exactly as in the source. The authenticated user (`actor`), the current
time (`now`), the id the database hands out (`newId`) and the outcome of each HTTP call on the
frontend are parameters.

## Model

| member | source | states |
|---|---|---|
| TaskSchema.ValidateTask | backend/models/Task.js:45-54 | a body is accepted iff title is a non-empty string of at most 100 characters, description a non-empty string, completed a boolean and assignedTo a non-empty string when present, and no other key appears; a missing title is reported first, an over-long title as too long, then a missing description; an unknown-key error names exactly the undeclared keys |
| TaskSchema.TrimStart | backend/models/Task.js:8 | the result is a suffix of the input; everything cut off is whitespace; it does not start with whitespace |
| TaskSchema.TrimEnd | backend/models/Task.js:8 | the result is a prefix of the input; everything cut off is whitespace; it does not end with whitespace |
| TaskSchema.TrimIsTrimmedSlice | backend/models/Task.js:8 | `trim` yields a contiguous slice of its input that neither starts nor ends with whitespace, and every character outside it is whitespace |
| TaskSchema.TrimOfTrimmed | backend/models/Task.js:8 | a string that neither starts nor ends with whitespace is left unchanged by `trim` |
| TaskSchema.TrimIdempotent | backend/models/Task.js:8 | trimming twice is trimming once |
| TaskSchema.CastPaths | backend/models/Task.js:4-42 | casting succeeds iff every schema path present holds its declared type (string, boolean, date), where the string and id paths may also be null, and then yields each path's value |
| TaskSchema.StoredTitle | backend/models/Task.js:5-10 | the stored title is the trimmed title, accepted iff present, non-empty after trimming and at most 100 characters |
| TaskSchema.BuildTask | backend/models/Task.js:4-42 | creation succeeds iff the paths cast, the trimmed title is non-empty and at most 100 long, the description is a non-empty string and the owner is present; the result meets the schema's constraints and takes `completed`/`isNotified` false and `createdAt` now by default; keys outside the schema are dropped |
| TaskSchema.ApplySet | backend/models/Task.js:4-42 | a `$set` with validators succeeds iff the paths the body names cast and pass the same validators; those paths change, every other field keeps its value, and the schema's constraints still hold |
| TaskSchema.AcceptedBodyBuilds | backend/models/Task.js:45-54 | every body Joi accepts, with an owner added, passes the Mongoose casts and validators unless its title is whitespace only |
| TasksController.StatusOf | backend/controllers/tasks.js:37-53 | 404 exactly for a missing task, 401 for a refused actor, 400 for a rejected body, 500 for a database failure |
| TasksController.ChangeImpliesAccess | backend/controllers/tasks.js:44-46 | whoever may update or delete a task may read it; a plain assignee may read but not change it |
| TasksController.GetTasksQuery | backend/controllers/tasks.js:10-15 | the list holds exactly the stored tasks the actor owns or is assigned, unchanged |
| TasksController.ListIgnoresRole | backend/controllers/tasks.js:10-15 | an admin's list is the same as a plain user's with the same id |
| TasksController.ListedTasksAreReadable | backend/controllers/tasks.js:10-15 | every listed task can be read by the actor; for a non-admin the list is exactly the readable tasks |
| TasksController.GetTaskStep | backend/controllers/tasks.js:35-59 | 404 for an unknown id, then 401 unless owner, assignee or admin; on success the task is returned and saved with `isNotified` set iff the reader is its assignee |
| TasksController.GetTaskIdempotent | backend/controllers/tasks.js:55-59 | reading the same task twice answers the same and changes nothing the second time |
| TasksController.GetTaskOnlyNotifies | backend/controllers/tasks.js:55-59 | a read changes at most `isNotified` of that one task, and only from false to true for its assignee |
| TasksController.CreatedDocument | backend/controllers/tasks.js:86-94 | a validated body becomes a task owned by the actor, with the trimmed title, the defaults, and `assignedAt` now iff an admin assigned it |
| TasksController.CreateTaskStep | backend/controllers/tasks.js:78-94 | a rejected body is answered 400 with the validator's first error and stores nothing; otherwise the created task meets the schema's constraints, is added under the new id and is exactly the document described by `CreatedDocument` |
| TasksController.UpdateBodyValidates | backend/controllers/tasks.js:137-148 | the body the update validates is accepted iff the client's body is and the admin-first-assignment branch did not add `assignedAt` |
| TasksController.AcceptedBodyApplies | backend/controllers/tasks.js:150-153 | `$set` of a validated body changes title, description, completed and assignedTo and nothing else |
| TasksController.UpdateTaskStep | backend/controllers/tasks.js:119-153 | 404, then 401 unless owner or admin, then 400 carrying the validator's first error on the body after `assignedAt` was injected, then 500 when an accepted body's title trims to nothing; success iff the body is accepted, no `assignedAt` was injected and the trimmed title is non-empty; then only the four declared fields of that task change and it still meets the schema's constraints |
| TasksController.DeleteTaskStep | backend/controllers/tasks.js:172-190 | 404, then 401 unless owner or admin; on success exactly that task is removed and the others are unchanged |
| TasksController.UpdateKeepsProtectedFields | backend/controllers/tasks.js:142-153 | an update never changes the owner, `isNotified`, `assignedAt` or `createdAt` |
| TasksController.InvalidBodyChangesNothing | backend/controllers/tasks.js:78-84 | a body the validator rejects leaves the collection unchanged on create and update, and is answered 400 once the update's gates pass |
| TasksController.AdminFirstAssignmentRejected | backend/controllers/tasks.js:137-148 | as written, every update by which an admin gives an unassigned task its first assignee is answered 400 and changes nothing |
| TasksController.AdminFirstAssignmentExample | backend/controllers/tasks.js:137-148 | a concrete well-formed admin assignment answered `"assignedAt" is not allowed` |
| TasksController.BlankTitleIsServerError | backend/controllers/tasks.js:78-111 | a body whose title is whitespace only passes the validator, is emptied by the schema's `trim`, and is answered 500 with the collection unchanged |
| TasksController.NonAdminAssignmentStored | backend/controllers/tasks.js:86-153 | as written, a plain user's `assignedTo` is stored, by a create and by the owner's update of an unassigned task, and the task is assigned without an assignment time |
| TasksController.GetTaskKeepsWellFormed | backend/controllers/tasks.js:55-59 | reading keeps every stored task within the schema's constraints |
| TasksController.CreateTaskKeepsWellFormed | backend/controllers/tasks.js:94 | creating keeps every stored task within the schema's constraints |
| TasksController.UpdateTaskKeepsWellFormed | backend/controllers/tasks.js:150-153 | updating keeps every stored task within the schema's constraints |
| TasksController.DeleteTaskKeepsWellFormed | backend/controllers/tasks.js:190 | deleting keeps every stored task within the schema's constraints |
| TasksController.GetTaskKeepsOwnersAndFlags | backend/controllers/tasks.js:55-59 | no task changes owner and no `isNotified` goes back to false on a read |
| TasksController.CreateTaskKeepsOwnersAndFlags | backend/controllers/tasks.js:94 | no existing task changes owner or loses `isNotified` on a create |
| TasksController.UpdateTaskKeepsOwnersAndFlags | backend/controllers/tasks.js:150-153 | no task changes owner or loses `isNotified` on an update |
| TasksController.DeleteTaskKeepsOwnersAndFlags | backend/controllers/tasks.js:190 | no remaining task changes owner or loses `isNotified` on a delete |
| TasksController.AssignableBody | backend/controllers/tasks.js:89-92 | corrected: `assignedTo` survives only for an admin, and an accepted body stays accepted |
| TasksController.CreateTaskCorrected | backend/controllers/tasks.js:78-94 | corrected create: a task is assigned iff an admin assigned it, and then `assignedAt` is the creation time |
| TasksController.StampedBodyApplies | backend/controllers/tasks.js:137-153 | corrected update: `$set` of a validated body plus `assignedAt` changes the four declared fields and the assignment time only |
| TasksController.UpdateTaskCorrected | backend/controllers/tasks.js:119-153 | corrected update: same gates; success iff the client's body is accepted and the title non-blank; only an admin changes `assignedTo`, and `assignedAt` becomes now iff the task goes from unassigned to assigned |
| TasksController.CorrectedCreateKeepsStamps | backend/controllers/tasks.js:89-94 | with the corrected create, every task is assigned exactly when it has an assignment time |
| TasksController.CorrectedUpdateKeepsStamps | backend/controllers/tasks.js:137-153 | with the corrected update, every task is assigned exactly when it has an assignment time |
| TasksController.CorrectedUpdateStampsTask | backend/controllers/tasks.js:137-153 | the task the corrected update writes is assigned exactly when it carries an assignment time |
| TasksController.ReadAndDeleteKeepStamps | backend/controllers/tasks.js:55-59 | reads and deletes keep every assignment paired with its time |
| TasksController.CorrectedUpdateKeepsFirstStamp | backend/controllers/tasks.js:137-140 | with the corrected update the first assignment time is never overwritten and a plain user never reassigns |
| TasksController.CorrectedAdminFirstAssignment | backend/controllers/tasks.js:137-153 | the corrected update accepts an admin's first assignment and stamps it with now |
| TasksController.TaskCollection.constructor | backend/models/Task.js:56 | the collection starts empty |
| TasksController.TaskCollection.GetTasks | backend/controllers/tasks.js:7-15 | returns the actor's list as `GetTasksQuery` states it |
| TasksController.TaskCollection.GetTask | backend/controllers/tasks.js:33-59 | reply and new collection are those of `GetTaskStep`, and every stored task stays well formed |
| TasksController.TaskCollection.CreateTask | backend/controllers/tasks.js:76-94 | reply and new collection are those of `CreateTaskStep`, and every stored task stays well formed |
| TasksController.TaskCollection.UpdateTask | backend/controllers/tasks.js:117-153 | reply and new collection are those of `UpdateTaskStep`, and every stored task stays well formed |
| TasksController.TaskCollection.DeleteTask | backend/controllers/tasks.js:170-190 | reply and new collection are those of `DeleteTaskStep`, and every stored task stays well formed |
| TaskList.FilteredTasks | frontend/src/components/TaskList.jsx:7-11 | a task is shown iff it is in the list and passes the filter: completed for 'completed', not completed for 'pending', every task otherwise |
| TaskList.FilteredIsSubsequence | frontend/src/components/TaskList.jsx:7-11 | the filtered list keeps the tasks in their original order |
| TaskList.CompletedAndPendingPartition | frontend/src/components/TaskList.jsx:7-11 | the completed and the pending views together hold every task exactly once |
| TaskList.OtherFiltersKeepAll | frontend/src/components/TaskList.jsx:7-11 | any filter other than 'completed' and 'pending' shows the whole list |
| TaskList.StatusFiltersKeepExactly | frontend/src/components/TaskList.jsx:8-9 | the 'completed' view holds only completed tasks and the 'pending' view only pending ones |
| TaskList.CountLabel | frontend/src/components/TaskList.jsx:19 | the badge says 'Task' iff there is exactly one task, 'Tasks' otherwise |
| TaskList.EmptyMessage | frontend/src/components/TaskList.jsx:50-54 | the empty-state text for 'all', for 'pending', and for every other filter |
| TaskList.EmptyStateWhenNothingKept | frontend/src/components/TaskList.jsx:45 | the empty state shows iff the filter keeps no task |
| Dashboard.Appended | frontend/src/components/Dashboard.jsx:36 | the created task is appended and the others keep their places |
| Dashboard.ReplacedById | frontend/src/components/Dashboard.jsx:45 | entries with the id become the updated task, all others stay, same length |
| Dashboard.RemovedById | frontend/src/components/Dashboard.jsx:54 | an entry stays iff its id differs |
| Dashboard.RemovedKeepsOrder | frontend/src/components/Dashboard.jsx:54 | the remaining entries keep their order, and exactly the entries with the id are dropped |
| Dashboard.RemoveAfterReplace | frontend/src/components/Dashboard.jsx:45-54 | deleting a task after updating it gives the list deleting alone gives |
| Dashboard.RemoveAfterAppend | frontend/src/components/Dashboard.jsx:36-54 | deleting a task just added gives back the list without that id |
| Dashboard.UpperAscii | frontend/src/components/Dashboard.jsx:63 | a lower-case ASCII letter becomes its capital, anything else is unchanged |
| Dashboard.UserName | frontend/src/components/Dashboard.jsx:69-74 | the profile's name when it is a non-empty string, 'User' otherwise |
| Dashboard.UserInitial | frontend/src/components/Dashboard.jsx:61-66 | a single character: the upper-cased first letter of a non-empty string name, 'U' otherwise |
| Dashboard.InitialMatchesName | frontend/src/components/Dashboard.jsx:61-74 | the avatar letter is the upper-cased first letter of the displayed name, defaults included |
| Dashboard.UserRole | frontend/src/components/Dashboard.jsx:77-82 | 'Administrator' iff the role is 'admin', 'User' otherwise |
| Dashboard.RoleClass | frontend/src/components/Dashboard.jsx:85-87 | 'admin' iff the role is 'admin', 'user' otherwise |
| Dashboard.RoleLabelMatchesClass | frontend/src/components/Dashboard.jsx:77-87 | the role label and its style class always agree |
| Dashboard.DashboardState.constructor | frontend/src/components/Dashboard.jsx:8-10 | no tasks, loading, no error |
| Dashboard.DashboardState.FetchTasks | frontend/src/components/Dashboard.jsx:22-31 | loading ends either way; the list becomes the response, or the fetch error is set and the list kept |
| Dashboard.DashboardState.AddTask | frontend/src/components/Dashboard.jsx:33-40 | the created task is appended, or the add error is set and the list kept |
| Dashboard.DashboardState.UpdateTask | frontend/src/components/Dashboard.jsx:42-49 | the updated task replaces the entries with its id, or the update error is set and the list kept |
| Dashboard.DashboardState.DeleteTask | frontend/src/components/Dashboard.jsx:51-58 | the entries with the id are removed, or the delete error is set and the list kept |
| TaskForm.TaskData | frontend/src/components/TaskForm.jsx:55-60 | the body holds title and description, and assignedTo exactly when the user is an admin who picked an assignee |
| TaskForm.SubmitDisabled | frontend/src/components/TaskForm.jsx:130 | the button is disabled iff loading or a field is empty |
| TaskForm.TaskDataValidates | frontend/src/components/TaskForm.jsx:51-60 | a submittable form's body passes the server's validator iff the title has at most 100 characters |
| TaskForm.TaskFormState.constructor | frontend/src/components/TaskForm.jsx:6-11 | empty form, not loading |
| TaskForm.TaskFormState.OnChange | frontend/src/components/TaskForm.jsx:45-47 | the named field takes the new value, nothing else changes |
| TaskForm.TaskFormState.OnSubmit | frontend/src/components/TaskForm.jsx:49-70 | sends iff both title and description are filled in, then the body of `TaskData` and the form is cleared and loading ends; otherwise nothing changes |
| TaskItem.InitialEditData | frontend/src/components/TaskItem.jsx:5-9 | the edit state copies title, description and completion from the task |
| TaskItem.Toggled | frontend/src/components/TaskItem.jsx:23 | only `completed` changes, and it flips |
| TaskItem.ToggleTwiceRestores | frontend/src/components/TaskItem.jsx:22-25 | toggling twice restores the edit state |
| TaskItem.EditBody | frontend/src/components/TaskItem.jsx:12 | the body sent holds exactly title, description and completed, with the edit state's values |
| TaskItem.EditBodyValidates | frontend/src/components/TaskItem.jsx:11-14 | an edit body passes the server's validator iff its title is 1 to 100 characters and its description non-empty |
| TaskItem.ToggleOfStoredTaskValidates | frontend/src/components/TaskItem.jsx:22-25 | toggling a task as the server stored it always sends a body the validator accepts |
| TaskItem.TaskItemState.constructor | frontend/src/components/TaskItem.jsx:4-9 | not editing, edit state copied from the task |
| TaskItem.TaskItemState.StartEditing | frontend/src/components/TaskItem.jsx:88 | enters editing mode, edit state kept |
| TaskItem.TaskItemState.CancelEditing | frontend/src/components/TaskItem.jsx:79 | leaves editing mode and keeps what was typed |
| TaskItem.TaskItemState.EditTitle | frontend/src/components/TaskItem.jsx:36 | only the title of the edit state changes |
| TaskItem.TaskItemState.EditDescription | frontend/src/components/TaskItem.jsx:44 | only the description of the edit state changes |
| TaskItem.TaskItemState.HandleUpdate | frontend/src/components/TaskItem.jsx:11-14 | sends the task's id with the edit state as it is and leaves editing mode |
| TaskItem.TaskItemState.HandleDelete | frontend/src/components/TaskItem.jsx:16-20 | asks to delete the task's id iff the user confirmed |
| TaskItem.TaskItemState.HandleToggleComplete | frontend/src/components/TaskItem.jsx:22-25 | sends the edit state with `completed` flipped and keeps that flip locally |

## Left out

- Mongoose and MongoDB mechanics are abstracted to a map from id to task: ObjectId generation, `populate` of `user`/`assignedTo` names, and the order in which `find` returns documents. `GetTasksQuery` therefore returns a map, not an ordered list.
- Ids are plain strings: the model accepts any string as a task id, an owner or an assignee, with no ObjectId cast. A malformed task id is answered 404 in the model (`StatusOf`), where the source's `findById` throws a cast error that its `catch` answers 500; a malformed `assignedTo` is stored in the model, where the source's `Task.create`/`findByIdAndUpdate` fail the ObjectId cast and answer 500.
- The update and delete gates (tasks.js:128, 181) compare `toString()` of the unpopulated `user` ObjectId that `findById` returns (lines 119, 172), which is its hex id; with ids as plain strings the model's comparison is the source's.
- The read gate and the notification check (tasks.js:44-46, 56) call `toString()` on `user` and `assignedTo` after both were populated with the user's name at line 35; the model compares them as the plain ids, which is an abstraction of those populated documents.
- Mongoose's own type conversions (a number given for a string path, the string "true" for a boolean path) are modelled as a cast failure. The bodies of that kind that reach Mongoose in the source carry `completed` as the string "true" or "false" in any letter case: Joi's `boolean()` accepts those strings case-insensitively when it validates, and the handlers then pass the raw body on. Mongoose's boolean cast takes only the lower-case "true"/"false", so the source answers 201/200 and stores the boolean for those, and answers 500 for any other casing ("TRUE", "False"). The model answers 400 (`NotABoolean`) for every one of them and stores nothing.
- TaskSchema.CastPaths: the model refuses `null` on the boolean paths (`completed`, `isNotified`) and the date paths (`assignedAt`, `createdAt`) as a cast failure, where Mongoose keeps the `null`. No handler reaches this: Joi refuses a null `completed`, and the other three are keys the validator does not declare.
- The handlers' `catch` blocks that answer 500 for any thrown database error are kept only for the schema's own cast and validator failures (`ServerError`). Connection failures and other exceptions are not modelled.
- The clock is a parameter `now`. One reading stands for both `Date.now()` calls of a request (`assignedAt` and the `createdAt` default).
- `ValidateTask`: Joi's conversion of the strings "true"/"false", in any letter case, to booleans for `completed` is not modelled; such a value is rejected as not a boolean (400), where the source stores the lower-case forms (201/200) and answers 500 for other casings.
- `ValidateTask`: for unknown keys Joi names the first one in the body's key order; the model reports the set of all unknown keys, since a map has no key order.
- Lengths are counted in Dafny characters, not UTF-16 code units, for both Joi's `max(100)` and Mongoose's `maxlength`.
- `Dashboard.UpperAscii`: `toUpperCase` is modelled for ASCII letters only; other characters are left unchanged.
- `TaskForm.TaskFormState.OnSubmit`: the model requires a profile; with no signed-in user the source would throw on `user.role`, a case not modelled. The dashboard's `addTask` never rejects, so the form is always cleared after a submission; the `catch` branch is therefore not modelled.
- Asynchrony: each HTTP call's outcome is a parameter of the state method, applied at once. Stale closures over `tasks` when calls interleave are not modelled, nor is concurrency between requests on the backend.
- The mocked user list of `TaskForm.fetchUsers`, `localStorage` tokens, `AuthPage.jsx`, `api.js`, `server.js`, `test-api.js` and the project scripts are not part of this model.
- The `ErrorResponse` middleware that turns `next(err)` into a response is not part of this model; only the status it carries is modelled (`StatusOf`).

## Findings

| source | as written | input that shows it | evidently intended | confidence | as-written member | corrected member |
|---|---|---|---|---|---|---|
| backend/controllers/tasks.js:137-148 | for an admin who assigns an unassigned task, `assignedAt` is added to the body before `validateTask`, whose schema does not declare `assignedAt`, so the body is refused | admin `PUT /tasks/64b7f0c2a1d3e4f5a6b7c8d9` with `{title: "Write report", description: "Quarterly figures", assignedTo: "64b7f0c2a1d3e4f5a6b7c802"}` on that unassigned task, answered 400 `"assignedAt" is not allowed` | validate the client's body, then add `assignedAt`, so that the admin's first assignment is stored with its time | not executed; high | TasksController.AdminFirstAssignmentExample | TasksController.UpdateTaskCorrected |
| backend/controllers/tasks.js:86-94 | `assignedTo` from any user's body is stored, on creation and on update (the `$set` at line 150); only the admin branches add `assignedAt` | a plain user `POST /tasks` with `{title: "Fix bug", description: "Crash on save", assignedTo: "64b7f0c2a1d3e4f5a6b7c802"}` creates a task assigned to that user with no `assignedAt`; the same body in the owner's `PUT` of an unassigned task does the same | only an admin assigns tasks, and every assignment carries its time | not executed; medium | TasksController.NonAdminAssignmentStored | TasksController.CreateTaskCorrected |

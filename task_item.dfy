/**
 * One task of the list (frontend/src/components/TaskItem.jsx): the edit state
 * copied from the task, and what saving, toggling and deleting send.
 */
module TaskItem {
  import opened Results
  import opened JsValues
  import opened ClientModel
  import TaskSchema

  /** The `editData` cell: the fields an edit or a toggle sends. */
  datatype EditData = EditData(title: string, description: string, completed: bool)

  /** The initial `editData`: title, description and completion copied from the task. */
  function InitialEditData(task: TaskView): (r: EditData)
    ensures r.title == task.title && r.description == task.description && r.completed == task.completed
  {
    EditData(task.title, task.description, task.completed)
  }

  /** `{ ...editData, completed: !editData.completed }`. */
  function Toggled(e: EditData): (r: EditData)
    ensures r.completed != e.completed
    ensures r.(completed := e.completed) == e
  {
    e.(completed := !e.completed)
  }

  /** Toggling twice gives back the edit state it started from. */
  lemma ToggleTwiceRestores(e: EditData)
    ensures Toggled(Toggled(e)) == e
  {
  }

  /** The JSON body an `EditData` becomes on the wire. */
  function EditBody(e: EditData): (r: Object)
    ensures r.Keys == {"title", "description", "completed"}
    ensures r["title"] == Str(e.title) && r["description"] == Str(e.description) && r["completed"] == Bool(e.completed)
  {
    map["title" := Str(e.title), "description" := Str(e.description), "completed" := Bool(e.completed)]
  }

  /** An edit or toggle body passes the server's validator exactly when title and description fit the schema. */
  lemma EditBodyValidates(e: EditData)
    ensures TaskSchema.ValidateTask(EditBody(e)).None? <==>
      1 <= |e.title| <= TaskSchema.TitleMaxLength && e.description != ""
  {
    assert EditBody(e).Keys <= TaskSchema.DeclaredKeys;
  }

  /** Toggling a task as the server stored it, before any edit, always sends a valid body. */
  lemma ToggleOfStoredTaskValidates(id: string, t: TaskSchema.Task)
    requires TaskSchema.WellFormedTask(t)
    ensures TaskSchema.ValidateTask(EditBody(Toggled(InitialEditData(Present(id, t))))).None?
  {
    EditBodyValidates(Toggled(InitialEditData(Present(id, t))));
  }

  /** The item's `isEditing` and `editData` cells, for one task. */
  class TaskItemState {
    const task: TaskView
    var isEditing: bool
    var editData: EditData

    constructor (task: TaskView)
      ensures this.task == task && !isEditing && editData == InitialEditData(task)
    {
      this.task := task;
      isEditing := false;
      editData := InitialEditData(task);
    }

    /** The Edit button. */
    method StartEditing()
      modifies this
      ensures isEditing && editData == old(editData)
    {
      isEditing := true;
    }

    /** The Cancel button: leaves editing mode and keeps whatever was typed in `editData`. */
    method CancelEditing()
      modifies this
      ensures !isEditing && editData == old(editData)
    {
      isEditing := false;
    }

    /** Typing in the title input. */
    method EditTitle(value: string)
      modifies this
      ensures isEditing == old(isEditing) && editData == old(editData).(title := value)
    {
      editData := editData.(title := value);
    }

    /** Typing in the description input. */
    method EditDescription(value: string)
      modifies this
      ensures isEditing == old(isEditing) && editData == old(editData).(description := value)
    {
      editData := editData.(description := value);
    }

    /** `handleUpdate`: send the edit state as it is and leave editing mode. */
    method HandleUpdate() returns (id: string, sent: EditData)
      modifies this
      ensures id == task.id && sent == old(editData)
      ensures !isEditing && editData == old(editData)
    {
      id, sent := task.id, editData;
      isEditing := false;
    }

    /** `handleDelete`: ask for the task's deletion only when the user confirmed. */
    method HandleDelete(confirmed: bool) returns (deleted: Option<string>)
      ensures deleted.Some? <==> confirmed
      ensures deleted.Some? ==> deleted.value == task.id
    {
      if confirmed {
        deleted := Some(task.id);
      } else {
        deleted := None;
      }
    }

    /** `handleToggleComplete`: send the edit state with `completed` flipped, and keep the flip locally. */
    method HandleToggleComplete() returns (id: string, sent: EditData)
      modifies this
      ensures id == task.id && sent == Toggled(old(editData))
      ensures editData == sent && isEditing == old(isEditing)
    {
      id, sent := task.id, editData.(completed := !editData.completed);
      editData := editData.(completed := !editData.completed);
    }
  }
}

/**
 * The create-task form (frontend/src/components/TaskForm.jsx): when it submits,
 * the body it sends, the reset afterwards and when its button is disabled.
 */
module TaskForm {
  import opened Results
  import opened JsValues
  import opened ClientModel
  import TaskSchema

  datatype FormData = FormData(title: string, description: string, assignedTo: string)

  /** The three inputs of the form, by their `name` attribute. */
  datatype Field = Title | Description | AssignedTo

  const EmptyForm := FormData("", "", "")

  /** `title && description`: both fields filled in. */
  predicate CanSubmit(form: FormData) {
    form.title != "" && form.description != ""
  }

  /** `taskData`: title and description, and the assignee when an admin picked one. */
  function TaskData(form: FormData, user: Profile): (r: Object)
    ensures r.Keys == {"title", "description"} + (if IsAdminProfile(user) && form.assignedTo != "" then {"assignedTo"} else {})
    ensures r["title"] == Str(form.title) && r["description"] == Str(form.description)
    ensures "assignedTo" in r ==> r["assignedTo"] == Str(form.assignedTo)
  {
    var taskData := map["title" := Str(form.title), "description" := Str(form.description)];
    if IsAdminProfile(user) && form.assignedTo != "" then taskData["assignedTo" := Str(form.assignedTo)] else taskData
  }

  /** `disabled={loading || !title || !description}`. */
  function SubmitDisabled(loading: bool, form: FormData): (r: bool)
    ensures r <==> loading || !CanSubmit(form)
  {
    loading || form.title == "" || form.description == ""
  }

  /** A body the form sends passes the server's validator exactly when the title fits in 100 characters. */
  lemma TaskDataValidates(form: FormData, user: Profile)
    requires CanSubmit(form)
    ensures TaskSchema.ValidateTask(TaskData(form, user)).None? <==> |form.title| <= TaskSchema.TitleMaxLength
  {
    var body := TaskData(form, user);
    assert body.Keys <= TaskSchema.DeclaredKeys;
  }

  /** The form's `formData` and `loading` cells. */
  class TaskFormState {
    var formData: FormData
    var loading: bool

    constructor ()
      ensures formData == EmptyForm && !loading
    {
      formData := EmptyForm;
      loading := false;
    }

    /** `onChange`: the named field takes the typed value. */
    method OnChange(field: Field, value: string)
      modifies this
      ensures loading == old(loading)
      ensures formData == match field
        case Title => old(formData).(title := value)
        case Description => old(formData).(description := value)
        case AssignedTo => old(formData).(assignedTo := value)
    {
      match field
      case Title => formData := formData.(title := value);
      case Description => formData := formData.(description := value);
      case AssignedTo => formData := formData.(assignedTo := value);
    }

    /**
     * `onSubmit`: with both fields filled in, build `taskData`, hand it to the
     * dashboard, and clear the form; otherwise do nothing. The dashboard's
     * handler catches its own failures, so the form is cleared either way.
     */
    method OnSubmit(user: Profile) returns (sent: Option<Object>)
      modifies this
      ensures sent.Some? <==> CanSubmit(old(formData))
      ensures sent.Some? ==> sent.value == TaskData(old(formData), user) && formData == EmptyForm && !loading
      ensures sent.None? ==> formData == old(formData) && loading == old(loading)
    {
      if formData.title != "" && formData.description != "" {
        loading := true;
        var taskData := map["title" := Str(formData.title), "description" := Str(formData.description)];
        if user.role == Str("admin") && formData.assignedTo != "" {
          taskData := taskData["assignedTo" := Str(formData.assignedTo)];
        }
        sent := Some(taskData);
        formData := EmptyForm;
        loading := false;
      } else {
        sent := None;
      }
    }
  }
}

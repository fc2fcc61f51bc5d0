/** The create/edit task form (TaskModal.jsx): its initial contents, the
    required-field check, and the create-or-update submit. */
module TaskForm {
  import opened Common
  import opened TaskModel

  /** `formData`: the fields the user edits. */
  datatype FormData = FormData(
    taskName: string,
    description: string,
    priority: Priority,
    status: Status,
    dueDate: string,
    reminderTime: string)

  /** The one service call a submit that passes the check makes. */
  datatype Request = CreateTask(draft: FormData) | UpdateTask(id: int, draft: FormData)

  /** The form's starting contents: blank for a new task, else a copy of
      the task with a missing reminder (or name) read as "". */
  function FormFor(task: Option<Task>): (f: FormData)
    ensures task.None? ==>
      && f.taskName == "" && f.description == "" && f.dueDate == "" && f.reminderTime == ""
      && f.priority == Medium && f.status == Pending
    ensures task.Some? ==>
      && f.taskName == OrElse(task.value.taskName, "")
      && f.description == task.value.description && f.dueDate == task.value.dueDate
      && f.priority == task.value.priority && f.status == task.value.status
      && f.reminderTime == OrElse(task.value.reminderTime, "")
  {
    match task
    case None => FormData("", "", Medium, Pending, "", "")
    case Some(t) =>
      FormData(OrElse(t.taskName, ""), t.description, t.priority, t.status, t.dueDate, OrElse(t.reminderTime, ""))
  }

  /** `!formData.taskName || !formData.description || !formData.dueDate`
      fails: only emptiness is checked, not white space. */
  predicate RequiredFilled(f: FormData) {
    f.taskName != "" && f.description != "" && f.dueDate != ""
  }

  /** An existing task is updated under its id, otherwise a task is created;
      either way the current form is sent. */
  function RequestFor(task: Option<Task>, f: FormData): (r: Request)
    ensures r.draft == f
    ensures r.UpdateTask? <==> task.Some?
    ensures r.UpdateTask? ==> r.id == task.value.id
  {
    if task.Some? then UpdateTask(task.value.id, f) else CreateTask(f)
  }

  /** The notification after the service call: a success message naming
      what was done, or the server's message, else "Operation failed". */
  function ReplyNotice(task: Option<Task>, reply: Reply<()>): (n: Note)
    ensures n.kind == Success <==> reply.Resolved?
    ensures reply.Resolved? && task.Some? ==> n.message == "Task updated!"
    ensures reply.Resolved? && task.None? ==> n.message == "Task created!"
    ensures reply.Rejected? ==> n.message == OrElse(reply.detail, "Operation failed")
  {
    if reply.Rejected? then Notice(OrElse(reply.detail, "Operation failed"), Some(Error))
    else if task.Some? then Notice("Task updated!", None)
    else Notice("Task created!", None)
  }

  /** The modal for one task (or for a new one). A submit runs in two steps:
      BeginSubmit up to the awaited service call, FinishSubmit from its
      outcome on; `loading` is true exactly in between, and the submit
      button is disabled while it is. */
  class TaskModal {
    const task: Option<Task>
    var formData: FormData
    var loading: bool

    /** The initial state plus the effect that copies `task` into the form. */
    constructor (task: Option<Task>)
      ensures this.task == task && formData == FormFor(task) && !loading
    {
      this.task := task;
      formData := FormFor(task);
      loading := false;
    }

    /** An input's `onChange`; the inputs are disabled while loading. */
    method Edit(f: FormData)
      requires !loading
      modifies this`formData
      ensures formData == f
    {
      formData := f;
    }

    /** A submit that fails the required-field check shows an error and
        makes no call; otherwise `loading` starts and exactly one request,
        for this task and the current form, is sent. */
    method BeginSubmit() returns (request: Option<Request>, note: Option<Note>)
      requires !loading
      modifies this`loading
      ensures request.None? <==> !RequiredFilled(formData)
      ensures request.None? ==> note == Some(Note("Please fill in all required fields", Error)) && !loading
      ensures request.Some? ==> request.value == RequestFor(task, formData) && note == None && loading
    {
      if !RequiredFilled(formData) {
        return None, Some(Notice("Please fill in all required fields", Some(Error)));
      }
      loading := true;
      request, note := Some(RequestFor(task, formData)), None;
    }

    /** The call's outcome: `onSuccess` runs iff it resolved, the matching
        notification is shown, and `loading` ends in either case. */
    method FinishSubmit(reply: Reply<()>) returns (note: Note, succeeded: bool)
      requires loading
      modifies this`loading
      ensures !loading && succeeded == reply.Resolved? && note == ReplyNotice(task, reply)
    {
      note := ReplyNotice(task, reply);
      succeeded := reply.Resolved?;
      loading := false;
    }
  }
}

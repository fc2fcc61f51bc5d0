/** A task as the task list endpoint delivers it to the client. */
module TaskModel {
  import opened Common

  datatype Priority = Low | Medium | High

  datatype Status = Pending | InProgress | Completed

  /** The server-assigned id, the editable fields and the optional
      reminder. `taskName` may be absent, which the search filter guards
      against; the created and updated timestamps are only displayed and
      are not part of this model. */
  datatype Task = Task(
    id: int,
    taskName: Option<string>,
    description: string,
    priority: Priority,
    status: Status,
    dueDate: string,
    reminderTime: Option<string>)

  /** The wire name of a status. */
  function StatusName(s: Status): string {
    match s
    case Pending => "PENDING"
    case InProgress => "IN_PROGRESS"
    case Completed => "COMPLETED"
  }
}

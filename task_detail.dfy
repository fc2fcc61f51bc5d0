/** The task detail view: the delete confirmation gate, the status label
    and the optional reminder line (TaskDetail.jsx). */
module TaskDetail {
  import opened Common
  import opened TaskModel

  /** The callbacks the detail view can invoke on its own. */
  datatype Callback = OnDelete

  /** `handleDelete`: `onDelete` runs once if the user confirms the dialog
      (`confirmed` is the dialog's answer) and nothing runs otherwise. */
  function HandleDelete(confirmed: bool): (calls: seq<Callback>)
    ensures |calls| <= 1
    ensures OnDelete in calls <==> confirmed
  {
    if confirmed then [OnDelete] else []
  }

  /** The index of the first `from` in s, or |s| when there is none. */
  function FirstIndex(s: string, from: char): (i: nat)
    ensures i <= |s|
    ensures forall j :: 0 <= j < i ==> s[j] != from
    ensures i < |s| ==> s[i] == from
  {
    if s == [] || s[0] == from then 0 else 1 + FirstIndex(s[1..], from)
  }

  /** `s.replace(from, to)` with a one-character pattern: only the first
      occurrence of `from` is replaced, and a string without one is kept. */
  function ReplaceFirst(s: string, from: char, to: char): (r: string)
    ensures FirstIndex(s, from) == |s| ==> r == s
    ensures FirstIndex(s, from) < |s| ==>
      r == s[..FirstIndex(s, from)] + [to] + s[FirstIndex(s, from) + 1..]
  {
    if s == [] then []
    else if s[0] == from then [to] + s[1..]
    else [s[0]] + ReplaceFirst(s[1..], from, to)
  }

  /** `task.status.replace('_', ' ')`. */
  function StatusLabel(st: Status): string {
    ReplaceFirst(StatusName(st), '_', ' ')
  }

  /** IN_PROGRESS is shown as "IN PROGRESS". */
  lemma InProgressLabel()
    ensures StatusLabel(InProgress) == "IN PROGRESS"
  {
    var name := StatusName(InProgress);
    assert FirstIndex(name, '_') == 2 by {
      assert name[0] != '_' && name[1] != '_' && name[2] == '_';
    }
  }

  /** PENDING and COMPLETED have no underscore and are shown as they are. */
  lemma PlainLabels()
    ensures StatusLabel(Pending) == "PENDING"
    ensures StatusLabel(Completed) == "COMPLETED"
  {
    assert '_' !in StatusName(Pending);
    assert '_' !in StatusName(Completed);
  }

  /** `task.reminderTime && ...`: the reminder line is rendered exactly when
      the task has a non-empty reminder time. */
  function ShowsReminder(t: Task): (shown: bool)
    ensures shown <==> t.reminderTime.Some? && t.reminderTime.value != ""
  {
    Truthy(t.reminderTime)
  }
}

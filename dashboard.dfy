/** The task list controller (Dashboard.jsx): it holds the task
    collection, derives the filtered view and the current page from it,
    keeps page navigation in bounds, and re-fetches after every mutation. */
module Dashboard {
  import opened Common
  import opened TaskModel
  import opened TaskFilter
  import opened Paging
  import TaskDetail

  /** What `response.content` reads on the list response: nothing truthy,
      an array of tasks, or some other truthy value. */
  datatype Content = NoContent | ArrayContent(items: seq<Task>) | OtherContent

  /** The resolved list response: an envelope object, a bare array, or
      anything else (null, a string, a number). */
  datatype ListResponse = Envelope(content: Content) | BareArray(items: seq<Task>) | OtherResponse

  /** The array a response carries, at `content` or at the top level. */
  ghost predicate Carries(response: ListResponse, items: seq<Task>) {
    || (response.Envelope? && response.content == ArrayContent(items))
    || response == BareArray(items)
  }

  /** The task list `fetchTasks` stores: the carried array if the call
      resolved with one, and the empty list in every other case. */
  function TaskList(listing: Reply<ListResponse>): (tasks: seq<Task>)
    ensures forall items :: listing.Resolved? && Carries(listing.value, items) ==> tasks == items
    ensures tasks != [] ==> listing.Resolved? && Carries(listing.value, tasks)
  {
    if listing.Rejected? then []
    else match listing.value
      case Envelope(content) => if content.ArrayContent? then content.items else []
      case BareArray(items) => items
      case OtherResponse => []
  }

  /** The notifications `fetchTasks` sends. */
  function FetchNotices(listing: Reply<ListResponse>): (notes: seq<Note>)
    ensures listing.Resolved? <==> notes == []
    ensures listing.Rejected? ==> notes == [Note("Failed to fetch tasks", Error)]
  {
    if listing.Rejected? then [Notice("Failed to fetch tasks", Some(Error))] else []
  }

  class Controller {
    var tasks: seq<Task>
    var filteredTasks: seq<Task>
    var currentPage: nat
    var searchQuery: string
    var priorityFilter: Choice<Priority>
    var statusFilter: Choice<Status>
    var showTaskModal: bool
    var showDetailModal: bool
    var selectedTask: Option<Task>
    var loading: bool
    /** The notifications passed to `showNotification`, oldest first. */
    var sent: seq<Note>

    function Controls(): Criteria
      reads this
    {
      Criteria(searchQuery, priorityFilter, statusFilter)
    }

    /** The view is derived from the collection and the controls, and the
        page is one of the numbered pages (page 1 when there are none). */
    ghost predicate Valid()
      reads this
    {
      && filteredTasks == ApplyFilters(tasks, Controls())
      && 1 <= currentPage <= LastPage(|filteredTasks|)
    }

    /** `currentTasks`: the tasks rendered as cards. */
    function CurrentTasks(): (page: seq<Task>)
      reads this
      requires Valid()
      ensures page == Page(filteredTasks, currentPage)
      ensures |page| <= PageSize
      ensures forall t :: t in page ==> t in filteredTasks && t in tasks && Keeps(Controls(), t)
    {
      var page := Page(filteredTasks, currentPage);
      forall t | t in page
        ensures t in tasks && Keeps(Controls(), t)
      {
        FilterMembers(tasks, Controls(), t);
      }
      page
    }

    /** The pager is rendered only when there is more than one page, that
        is, when the view holds more tasks than one page takes. */
    function ShowsPager(): (shown: bool)
      reads this
      ensures shown <==> |filteredTasks| > PageSize
    {
      TotalPages(|filteredTasks|) > 1
    }

    /** The first render: empty collection, blank search, both selectors on
        'ALL', page 1, no modal open. */
    constructor ()
      ensures Valid()
      ensures tasks == [] && filteredTasks == [] && currentPage == 1
      ensures searchQuery == "" && priorityFilter == All && statusFilter == All
      ensures !showTaskModal && !showDetailModal && selectedTask == None
      ensures !loading && sent == []
    {
      tasks, filteredTasks, currentPage := [], [], 1;
      searchQuery, priorityFilter, statusFilter := "", All, All;
      showTaskModal, showDetailModal, selectedTask := false, false, None;
      loading, sent := false, [];
    }

    /** `applyFilters`, which runs whenever the query, a selector or the
        collection changes: it recomputes the view and returns to page 1. */
    method ApplyFilterEffect()
      modifies this`filteredTasks, this`currentPage
      ensures Valid()
      ensures filteredTasks == ApplyFilters(tasks, Controls()) && currentPage == 1
    {
      filteredTasks := ApplyFilters(tasks, Controls());
      currentPage := 1;
    }

    /** `fetchTasks` with `listing` as the outcome of `getAllTasks`: the
        collection is replaced by the normalised list (empty on failure,
        with an error notification), the view is recomputed, and `loading`
        ends false. */
    method FetchTasks(listing: Reply<ListResponse>)
      modifies this`tasks, this`filteredTasks, this`currentPage, this`loading, this`sent
      ensures Valid()
      ensures tasks == TaskList(listing) && currentPage == 1 && !loading
      ensures sent == old(sent) + FetchNotices(listing)
    {
      loading := true;
      var taskList: seq<Task> := [];
      if listing.Resolved? {
        var response := listing.value;
        if response.Envelope? && !response.content.NoContent? {
          taskList := if response.content.ArrayContent? then response.content.items else [];
        } else if response.BareArray? {
          taskList := response.items;
        }
        tasks := taskList;
      } else {
        sent := sent + [Notice("Failed to fetch tasks", Some(Error))];
        tasks := [];
      }
      loading := false;
      ApplyFilterEffect();
    }

    method SetSearchQuery(query: string)
      modifies this`searchQuery, this`filteredTasks, this`currentPage
      ensures Valid() && searchQuery == query && currentPage == 1
    {
      searchQuery := query;
      ApplyFilterEffect();
    }

    method SetPriorityFilter(choice: Choice<Priority>)
      modifies this`priorityFilter, this`filteredTasks, this`currentPage
      ensures Valid() && priorityFilter == choice && currentPage == 1
    {
      priorityFilter := choice;
      ApplyFilterEffect();
    }

    method SetStatusFilter(choice: Choice<Status>)
      modifies this`statusFilter, this`filteredTasks, this`currentPage
      ensures Valid() && statusFilter == choice && currentPage == 1
    {
      statusFilter := choice;
      ApplyFilterEffect();
    }

    /** The "previous" button: absent with one page, disabled on page 1. */
    method PreviousPage() returns (moved: bool)
      requires Valid()
      modifies this`currentPage
      ensures Valid()
      ensures moved <==> ShowsPager() && old(currentPage) != 1
      ensures currentPage == if moved then old(currentPage) - 1 else old(currentPage)
    {
      moved := ShowsPager() && currentPage != 1;
      if moved {
        currentPage := currentPage - 1;
      }
    }

    /** The "next" button: absent with one page, disabled on the last page. */
    method NextPage() returns (moved: bool)
      requires Valid()
      modifies this`currentPage
      ensures Valid()
      ensures moved <==> ShowsPager() && old(currentPage) != TotalPages(|filteredTasks|)
      ensures currentPage == if moved then old(currentPage) + 1 else old(currentPage)
    {
      moved := ShowsPager() && currentPage != TotalPages(|filteredTasks|);
      if moved {
        currentPage := currentPage + 1;
      }
    }

    /** The numbered buttons 1..totalPages, present only with the pager. */
    method GoToPage(p: int) returns (moved: bool)
      requires Valid()
      modifies this`currentPage
      ensures Valid()
      ensures moved <==> ShowsPager() && 1 <= p <= TotalPages(|filteredTasks|)
      ensures currentPage == if moved then p else old(currentPage)
    {
      moved := ShowsPager() && 1 <= p <= TotalPages(|filteredTasks|);
      if moved {
        currentPage := p;
      }
    }

    /** `openTaskModal(task)`: `None` for a new task. */
    method OpenTaskModal(task: Option<Task>)
      modifies this`selectedTask, this`showTaskModal
      ensures selectedTask == task && showTaskModal
    {
      selectedTask := task;
      showTaskModal := true;
    }

    method CloseTaskModal()
      modifies this`selectedTask, this`showTaskModal
      ensures selectedTask == None && !showTaskModal
    {
      showTaskModal := false;
      selectedTask := None;
    }

    method OpenDetailModal(task: Task)
      modifies this`selectedTask, this`showDetailModal
      ensures selectedTask == Some(task) && showDetailModal
    {
      selectedTask := Some(task);
      showDetailModal := true;
    }

    method CloseDetailModal()
      modifies this`selectedTask, this`showDetailModal
      ensures selectedTask == None && !showDetailModal
    {
      showDetailModal := false;
      selectedTask := None;
    }

    /** The detail view's "Edit": the detail view closes and the task form
        opens on the same task. */
    method EditSelected()
      requires showDetailModal && selectedTask.Some?
      modifies this`selectedTask, this`showDetailModal, this`showTaskModal
      ensures selectedTask == old(selectedTask) && !showDetailModal && showTaskModal
    {
      var task := selectedTask;
      CloseDetailModal();
      OpenTaskModal(task);
    }

    /** The task form's `onSuccess`: re-fetch, then close the form. */
    method TaskSaved(listing: Reply<ListResponse>)
      modifies this
      ensures Valid()
      ensures tasks == TaskList(listing) && currentPage == 1 && !loading
      ensures sent == old(sent) + FetchNotices(listing)
      ensures !showTaskModal && selectedTask == None
      ensures showDetailModal == old(showDetailModal)
      ensures searchQuery == old(searchQuery) && priorityFilter == old(priorityFilter)
      ensures statusFilter == old(statusFilter)
    {
      FetchTasks(listing);
      CloseTaskModal();
    }

    /** The detail view's delete button with the dialog answer `confirmed`,
        `deleted` as the outcome of `deleteTask` and `listing` as that of the
        re-fetch. The delete request names the selected task; a rejected
        delete leaves everything as it was. `request` is the id sent to
        `deleteTask`, if any. */
    method DeleteSelected(confirmed: bool, deleted: Reply<()>, listing: Reply<ListResponse>)
      returns (request: Option<int>)
      requires showDetailModal && selectedTask.Some?
      modifies this
      ensures request.Some? <==> confirmed
      ensures confirmed ==> request == Some(old(selectedTask).value.id)
      ensures !(confirmed && deleted.Resolved?) ==> unchanged(this)
      ensures confirmed && deleted.Resolved? ==>
        && Valid()
        && tasks == TaskList(listing) && currentPage == 1 && !loading
        && sent == old(sent) + FetchNotices(listing)
        && !showDetailModal && selectedTask == None
        && showTaskModal == old(showTaskModal)
        && searchQuery == old(searchQuery) && priorityFilter == old(priorityFilter)
        && statusFilter == old(statusFilter)
    {
      request := None;
      if TaskDetail.OnDelete in TaskDetail.HandleDelete(confirmed) {
        request := Some(selectedTask.value.id);
        if deleted.Resolved? {
          FetchTasks(listing);
          CloseDetailModal();
        }
      }
    }
  }

  /** After a successful delete and a re-fetch that no longer lists the
      task, no task with that id is in the view. */
  lemma DeletedTaskLeavesView(listing: Reply<ListResponse>, c: Criteria, id: int)
    requires forall t :: t in TaskList(listing) ==> t.id != id
    ensures forall t :: t in ApplyFilters(TaskList(listing), c) ==> t.id != id
  {
    forall t | t in ApplyFilters(TaskList(listing), c)
      ensures t.id != id
    {
      FilterMembers(TaskList(listing), c, t);
    }
  }

  /** A failed fetch leaves an empty view on page 1 and sends one error
      notification. */
  lemma FailedFetchScenario(detail: Option<string>, c: Criteria)
    ensures ApplyFilters(TaskList(Rejected(detail)), c) == []
    ensures FetchNotices(Rejected(detail)) == [Note("Failed to fetch tasks", Error)]
  {
  }
}

/**
 * src/pages/tasks/index.tsx: the task list page: the client-side status
 * filter, the completion toggle, the status label and badge tables, and the
 * handlers that reset the page.
 */
module TasksList {
  import opened Wrappers
  import opened JsText
  import opened JsValues
  import opened Web
  import opened ApiClient
  import opened Seqs
  import opened Badges

  const AllStatuses := "all"
  const Pending := "pending"
  const InProgress := "in progress"
  const Completed := "completed"
  const Canceled := "canceled"
  /** What the date column shows for a task without a due date. */
  const NoDate := "—"

  datatype Task = Task(id: string, titre: string, statut: string)

  /** A `taskService.getAll` response. */
  datatype TasksResponse = TasksResponse(tasks: Option<seq<Task>>, totalPages: int, total: int, page: int)

  /**
   * The client-side filter of `fetchTasks`: `'all'` or an empty filter keeps
   * the page as it is; any other keeps exactly the tasks with that `statut`.
   */
  function StatusFiltered(tasks: seq<Task>, filter: string): (r: seq<Task>)
    ensures filter == "" || filter == AllStatuses ==> r == tasks
    ensures filter != "" && filter != AllStatuses ==> forall t :: t in r <==> t in tasks && t.statut == filter
    ensures IsSubsequence(r, tasks)
  {
    if !Truthy(filter) || filter == AllStatuses then
      SubsequenceRefl(tasks);
      tasks
    else
      var keep := (t: Task) => t.statut == filter;
      FilterMembershipAll(tasks, keep);
      FilterIsSubsequence(tasks, keep);
      Filter(tasks, keep)
  }

  /** Filtering twice by the same status is filtering once. */
  lemma StatusFilterIdempotent(tasks: seq<Task>, filter: string)
    ensures StatusFiltered(StatusFiltered(tasks, filter), filter) == StatusFiltered(tasks, filter)
  {
    if filter != "" && filter != AllStatuses {
      var r := StatusFiltered(tasks, filter);
      FilterKeepsAll(r, (t: Task) => t.statut == filter);
    }
  }

  /** The status `handleToggleCompletion` sends. */
  function Toggled(statut: string): (r: string)
    ensures r == Pending <==> statut == Completed
    ensures r != Pending ==> r == Completed
  {
    if statut == Completed then Pending else Completed
  }

  /** On `pending` and `completed` toggling twice restores the status. */
  lemma ToggleInvolutive(statut: string)
    requires statut == Pending || statut == Completed
    ensures Toggled(Toggled(statut)) == statut
  {
  }

  /** Any other status is lost: toggling twice lands on `pending`. */
  lemma ToggleForgetsOtherStatuses(statut: string)
    requires statut != Pending && statut != Completed
    ensures Toggled(Toggled(statut)) == Pending != statut
  {
  }

  /** `getStatusLabel`. */
  function StatusLabel(status: string): (r: string)
    ensures status == Pending ==> r == "Pending"
    ensures status == InProgress ==> r == "In Progress"
    ensures status == Completed ==> r == "Completed"
    ensures status == Canceled ==> r == "Canceled"
    ensures status !in [Pending, InProgress, Completed, Canceled] ==> r == status
  {
    match status
    case "pending" => "Pending"
    case "in progress" => "In Progress"
    case "completed" => "Completed"
    case "canceled" => "Canceled"
    case _ => status
  }

  /** The label differs from the raw status exactly for the four known statuses. */
  lemma StatusLabelChangesOnlyKnown(status: string)
    ensures StatusLabel(status) != status <==> status in [Pending, InProgress, Completed, Canceled]
  {
  }

  /** `getStatusBadgeColor`. */
  function StatusBadgeColor(status: string): (r: string)
    ensures r in [Yellow, Blue, Green, Gray]
    ensures r != Gray <==> status in [Pending, InProgress, Completed]
  {
    match status
    case "pending" => Yellow
    case "in progress" => Blue
    case "completed" => Green
    case _ => Gray
  }

  /** Every coloured status has a label, but `canceled` has a label and stays gray. */
  lemma ColouredStatusesLabelled(status: string)
    ensures StatusBadgeColor(status) != Gray ==> StatusLabel(status) != status
    ensures StatusBadgeColor(Canceled) == Gray && StatusLabel(Canceled) != Canceled
  {
  }

  /** `formatDate`: a dash for a missing due date, else the formatted date. */
  function DateCell(dueDate: Option<string>, formatted: string): (r: string)
    ensures !PropTruthy(dueDate) ==> r == NoDate
    ensures PropTruthy(dueDate) ==> r == formatted
  {
    if !PropTruthy(dueDate) then NoDate else formatted
  }

  /** The arguments a call to `fetchTasks` runs with: its own and those it reads from the render. */
  datatype Query = Query(page: int, limit: int, search: string, personalOnly: bool, statusFilter: string)

  /** The task list page's state. */
  class TasksPage {
    const toaster: Toaster
    var tasks: seq<Task>
    var loading: bool
    var searchTerm: string
    var currentPage: int
    var totalPages: int
    var totalItems: int
    var isSearching: bool
    var itemsPerPage: int
    var statusFilter: string
    var showPersonalOnly: bool

    constructor(toaster: Toaster)
      ensures this.toaster == toaster && tasks == [] && loading && searchTerm == ""
      ensures currentPage == 1 && totalPages == 1 && totalItems == 0 && !isSearching
      ensures itemsPerPage == 10 && statusFilter == AllStatuses && !showPersonalOnly
    {
      this.toaster := toaster;
      tasks := [];
      loading := true;
      searchTerm := "";
      currentPage := 1;
      totalPages := 1;
      totalItems := 0;
      isSearching := false;
      itemsPerPage := 10;
      statusFilter := AllStatuses;
      showPersonalOnly := false;
    }

    /** `fetchTasks(page, search)` as created in the current render. */
    function FetchQuery(page: int, search: string): (q: Query)
      reads this
      ensures q.page == page && q.search == search
      ensures q.limit == itemsPerPage && q.personalOnly == showPersonalOnly && q.statusFilter == statusFilter
    {
      Query(page, itemsPerPage, search, showPersonalOnly, statusFilter)
    }

    /** The search the refreshes after a delete or a toggle repeat. */
    function ActiveSearch(): string
      reads this
    {
      if isSearching then searchTerm else ""
    }

    /**
     * `fetchTasks` completing with `response`: the page is filtered by the
     * status the call read, and the paging figures are copied from the server.
     */
    method FetchTasks(q: Query, response: Outcome<TasksResponse>)
      modifies this, toaster
      ensures !loading && searchTerm == old(searchTerm) && isSearching == old(isSearching)
      ensures itemsPerPage == old(itemsPerPage) && statusFilter == old(statusFilter)
      ensures showPersonalOnly == old(showPersonalOnly)
      ensures response.Ok? ==>
        tasks == StatusFiltered(response.value.tasks.GetOr([]), q.statusFilter)
        && totalPages == response.value.totalPages && totalItems == response.value.total
        && currentPage == response.value.page && toaster.shown == old(toaster.shown)
      ensures response.Fail? ==>
        tasks == old(tasks) && totalPages == old(totalPages) && totalItems == old(totalItems)
        && currentPage == old(currentPage) && toaster.shown == old(toaster.shown) + [Error("Failed to load tasks")]
    {
      loading := true;
      match response {
        case Ok(r) =>
          tasks := StatusFiltered(r.tasks.GetOr([]), q.statusFilter);
          totalPages := r.totalPages;
          totalItems := r.total;
          currentPage := r.page;
        case Fail(_) =>
          toaster.Show(Error("Failed to load tasks"));
      }
      loading := false;
    }

    /** `handleSearch`: back to page 1 and a fetch of page 1 with the typed term. */
    method HandleSearch() returns (q: Query)
      modifies this
      ensures q == old(FetchQuery(1, searchTerm))
      ensures isSearching && currentPage == 1
      ensures tasks == old(tasks) && searchTerm == old(searchTerm) && itemsPerPage == old(itemsPerPage)
      ensures statusFilter == old(statusFilter) && showPersonalOnly == old(showPersonalOnly)
      ensures totalPages == old(totalPages) && totalItems == old(totalItems) && loading == old(loading)
    {
      q := FetchQuery(1, searchTerm);
      isSearching := true;
      currentPage := 1;
    }

    /** `clearSearch`: the term is emptied, back to page 1, and page 1 is fetched unfiltered by text. */
    method ClearSearch() returns (q: Query)
      modifies this
      ensures q == old(FetchQuery(1, ""))
      ensures searchTerm == "" && !isSearching && currentPage == 1
      ensures tasks == old(tasks) && itemsPerPage == old(itemsPerPage)
      ensures statusFilter == old(statusFilter) && showPersonalOnly == old(showPersonalOnly)
      ensures totalPages == old(totalPages) && totalItems == old(totalItems) && loading == old(loading)
    {
      q := FetchQuery(1, "");
      searchTerm := "";
      isSearching := false;
      currentPage := 1;
    }

    /**
     * `handleItemsPerPageChange`: the new size is stored and the page reset,
     * but the fetch it starts still reads the size of the render it was
     * created in.
     */
    method HandleItemsPerPageChange(newItemsPerPage: int) returns (q: Query)
      modifies this
      ensures q == old(FetchQuery(1, ActiveSearch()))
      ensures q.limit == old(itemsPerPage)
      ensures itemsPerPage == newItemsPerPage && currentPage == 1
      ensures tasks == old(tasks) && searchTerm == old(searchTerm) && isSearching == old(isSearching)
      ensures statusFilter == old(statusFilter) && showPersonalOnly == old(showPersonalOnly)
      ensures totalPages == old(totalPages) && totalItems == old(totalItems) && loading == old(loading)
    {
      q := FetchQuery(1, ActiveSearch());
      itemsPerPage := newItemsPerPage;
      currentPage := 1;
    }

    /** `handleStatusFilterChange`: the filter is stored and the page reset. */
    method HandleStatusFilterChange(filter: string)
      modifies this
      ensures statusFilter == filter && currentPage == 1
      ensures tasks == old(tasks) && searchTerm == old(searchTerm) && isSearching == old(isSearching)
      ensures itemsPerPage == old(itemsPerPage) && showPersonalOnly == old(showPersonalOnly)
      ensures totalPages == old(totalPages) && totalItems == old(totalItems) && loading == old(loading)
    {
      statusFilter := filter;
      currentPage := 1;
    }

    /** `handlePageChange`. */
    method HandlePageChange(page: int)
      modifies this
      ensures currentPage == page
      ensures tasks == old(tasks) && searchTerm == old(searchTerm) && isSearching == old(isSearching)
      ensures itemsPerPage == old(itemsPerPage) && statusFilter == old(statusFilter)
      ensures showPersonalOnly == old(showPersonalOnly)
      ensures totalPages == old(totalPages) && totalItems == old(totalItems) && loading == old(loading)
    {
      currentPage := page;
    }

    /**
     * `handleToggleCompletion`: sends the flipped status; once the update
     * resolves, the toast names that same status and the current page is
     * fetched again with the active search.
     */
    method HandleToggleCompletion(task: Task, updated: Outcome<()>) returns (sentStatus: string, refetch: Option<Query>)
      modifies toaster
      ensures sentStatus == Toggled(task.statut)
      ensures updated.Ok? ==>
        refetch == Some(FetchQuery(currentPage, ActiveSearch()))
        && toaster.shown == old(toaster.shown) + [Success("Task marked as " + sentStatus)]
      ensures updated.Fail? ==>
        refetch == None && toaster.shown == old(toaster.shown) + [Error("Failed to update task")]
    {
      sentStatus := if task.statut == Completed then Pending else Completed;
      match updated {
        case Ok(_) =>
          toaster.Show(Success("Task marked as " + (if task.statut != Completed then Completed else Pending)));
          refetch := Some(FetchQuery(currentPage, ActiveSearch()));
        case Fail(_) =>
          toaster.Show(Error("Failed to update task"));
          refetch := None;
      }
    }
  }
}

/**
 * src/pages/users/index.tsx: the user list page: the client-side search with
 * its page count, the role label and badge tables, and the pagination test.
 */
module UsersList {
  import opened Wrappers
  import opened JsText
  import opened Web
  import opened ApiClient
  import opened Seqs
  import opened Badges

  const PageSize := 10
  /** The search reads one page of this many users and filters it. */
  const SearchLimit := 100

  /** A listed user; `role` is None when the field is absent. */
  datatype ListedUser = ListedUser(id: string, name: string, email: string, role: Option<string>)

  /** A `userService.getAll` response. */
  datatype UsersResponse = UsersResponse(users: seq<ListedUser>, totalPages: int, total: int)

  /** A `userService.getAll(page, limit)` request. */
  datatype Request = Request(page: int, limit: int)

  /** Whether a user matches the search term, ignoring the case of ASCII letters. */
  predicate Matches(u: ListedUser, term: string) {
    Contains(Lower(u.name), Lower(term)) || Contains(Lower(u.email), Lower(term))
  }

  /** The search filter: the matching users, in their listed order. */
  function Search(users: seq<ListedUser>, term: string): (r: seq<ListedUser>)
    ensures forall u :: u in r <==> u in users && Matches(u, term)
    ensures IsSubsequence(r, users)
  {
    var keep := (u: ListedUser) => Matches(u, term);
    FilterMembershipAll(users, keep);
    FilterIsSubsequence(users, keep);
    Filter(users, keep)
  }

  /** An empty search term keeps every user. */
  lemma EmptyTermKeepsAll(users: seq<ListedUser>)
    ensures Search(users, "") == users
  {
    forall i | 0 <= i < |users| ensures Matches(users[i], "") {
      assert StartsWith(Lower(users[i].name), "");
    }
    FilterKeepsAll(users, (u: ListedUser) => Matches(u, ""));
  }

  /** A user is found by its own name, whatever the case of the term. */
  lemma FoundByOwnName(users: seq<ListedUser>, u: ListedUser)
    requires u in users
    ensures u in Search(users, u.name)
  {
    ContainsSelf(Lower(u.name));
  }

  /** `Math.ceil(n / PageSize)`. */
  function PageCount(n: nat): (pages: nat)
    ensures pages == 0 <==> n == 0
    ensures (pages - 1) * PageSize < n <= pages * PageSize
  {
    (n + PageSize - 1) / PageSize
  }

  /** Pagination is shown only when there is more than one page. */
  predicate ShowsPagination(totalPages: int) {
    totalPages > 1
  }

  /** A search with at most ten matches never shows pagination. */
  lemma FewMatchesNoPagination(n: nat)
    ensures ShowsPagination(PageCount(n)) <==> n > PageSize
  {
  }

  /** `formatRoleLabel`; an absent role stays absent. */
  function RoleLabel(role: Option<string>): (r: Option<string>)
    ensures role == Some("admin") ==> r == Some("Admin")
    ensures role == Some("sales") ==> r == Some("Sales")
    ensures role != Some("admin") && role != Some("sales") ==> r == role
  {
    match role
    case Some("admin") => Some("Admin")
    case Some("sales") => Some("Sales")
    case _ => role
  }

  /**
   * `getRoleBadgeColor`. The role enum has only `admin` and `sales`, so the
   * super-admin, manager and support cases compare with `undefined`; the
   * first of them catches a missing role, which is therefore purple.
   */
  function RoleBadgeColor(role: Option<string>): (r: string)
    ensures role.None? ==> r == Purple
    ensures role == Some("admin") ==> r == Red
    ensures role == Some("sales") ==> r == Green
    ensures role.Some? && role.value != "admin" && role.value != "sales" ==> r == Gray
  {
    match role
    case None => Purple
    case Some("admin") => Red
    case Some("sales") => Green
    case Some(_) => Gray
  }

  /** Blue and yellow, the manager and support colours, are never produced. */
  lemma RoleBadgeNeverBlueOrYellow(role: Option<string>)
    ensures RoleBadgeColor(role) != Blue && RoleBadgeColor(role) != Yellow
    ensures RoleBadgeColor(role) != Gray <==> role.None? || RoleLabel(role) != role
  {
  }

  /** The user list page's state. */
  class UsersPage {
    const toaster: Toaster
    var users: seq<ListedUser>
    var loading: bool
    var searchTerm: string
    var currentPage: int
    var totalPages: int
    var totalItems: int
    var isSearching: bool

    constructor(toaster: Toaster)
      ensures this.toaster == toaster && users == [] && loading && searchTerm == ""
      ensures currentPage == 1 && totalPages == 1 && totalItems == 0 && !isSearching
    {
      this.toaster := toaster;
      users := [];
      loading := true;
      searchTerm := "";
      currentPage := 1;
      totalPages := 1;
      totalItems := 0;
      isSearching := false;
    }

    /** `fetchUsers(page)` completing with `response`: list and counts come from the server. */
    method FetchUsers(page: int, response: Outcome<UsersResponse>) returns (request: Request)
      modifies this, toaster
      ensures request == Request(page, PageSize) && !loading
      ensures searchTerm == old(searchTerm) && currentPage == old(currentPage) && isSearching == old(isSearching)
      ensures response.Ok? ==>
        users == response.value.users && totalPages == response.value.totalPages
        && totalItems == response.value.total && toaster.shown == old(toaster.shown)
      ensures response.Fail? ==>
        users == old(users) && totalPages == old(totalPages) && totalItems == old(totalItems)
        && toaster.shown == old(toaster.shown) + [Error("Failed to fetch users")]
    {
      request := Request(page, PageSize);
      loading := true;
      match response {
        case Ok(data) =>
          users := data.users;
          totalPages := data.totalPages;
          totalItems := data.total;
        case Fail(_) =>
          toaster.Show(Error("Failed to fetch users"));
      }
      loading := false;
    }

    /**
     * `handleSearch`: reads the first `SearchLimit` users and keeps the
     * matches; the counts describe the matches and the page goes back to 1.
     */
    method HandleSearch(response: Outcome<UsersResponse>) returns (request: Request)
      modifies this, toaster
      ensures request == Request(1, SearchLimit) && isSearching && !loading
      ensures searchTerm == old(searchTerm)
      ensures response.Ok? ==>
        users == Search(response.value.users, searchTerm)
        && totalItems == |users| && totalPages == PageCount(|users|) && currentPage == 1
        && toaster.shown == old(toaster.shown)
      ensures response.Fail? ==>
        users == old(users) && totalItems == old(totalItems) && totalPages == old(totalPages)
        && currentPage == old(currentPage)
        && toaster.shown == old(toaster.shown) + [Error("Error searching users")]
    {
      request := Request(1, SearchLimit);
      isSearching := true;
      loading := true;
      match response {
        case Ok(data) =>
          var found := Search(data.users, searchTerm);
          users := found;
          totalItems := |found|;
          totalPages := (|found| + PageSize - 1) / PageSize;
          currentPage := 1;
        case Fail(_) =>
          toaster.Show(Error("Error searching users"));
      }
      loading := false;
    }

    /** `clearSearch`: empties the term, leaves search mode and asks for page 1. */
    method ClearSearch() returns (request: Request)
      modifies this
      ensures request == Request(1, PageSize)
      ensures searchTerm == "" && !isSearching && currentPage == 1
      ensures users == old(users) && totalPages == old(totalPages) && totalItems == old(totalItems)
      ensures loading == old(loading)
    {
      searchTerm := "";
      isSearching := false;
      request := Request(1, PageSize);
      currentPage := 1;
    }

    /** `handlePageChange`. */
    method HandlePageChange(page: int)
      modifies this
      ensures currentPage == page
      ensures users == old(users) && totalPages == old(totalPages) && totalItems == old(totalItems)
      ensures searchTerm == old(searchTerm) && isSearching == old(isSearching) && loading == old(loading)
    {
      currentPage := page;
    }
  }
}

/**
 * src/pages/leads/index.tsx: the lead list page: the client-side status
 * filter, the status and source badges, the status label, and the handlers
 * that reset the page.
 */
module LeadsList {
  import opened Wrappers
  import opened JsText
  import opened Web
  import opened ApiClient
  import opened Seqs
  import opened Badges
  import CrmTypes
  import DataFormatters

  datatype Lead = Lead(id: string, name: string, statut: string, source: string)

  /** A `leadService.getAll` response. */
  datatype LeadsResponse = LeadsResponse(leads: seq<Lead>, totalPages: int, page: int, limit: int, total: int)

  /** The `pagination` state. */
  datatype Pagination = Pagination(totalPages: int, currentPage: int, limit: int, total: int)

  /**
   * The client-side filter of `fetchLeads`: an empty filter keeps the page as
   * it is; any other keeps exactly the leads with that `statut`, in order.
   */
  function StatusFiltered(leads: seq<Lead>, filter: string): (r: seq<Lead>)
    ensures filter == "" ==> r == leads
    ensures filter != "" ==> forall l :: l in r <==> l in leads && l.statut == filter
    ensures IsSubsequence(r, leads)
  {
    if !Truthy(filter) then
      SubsequenceRefl(leads);
      leads
    else
      var keep := (l: Lead) => l.statut == filter;
      FilterMembershipAll(leads, keep);
      FilterIsSubsequence(leads, keep);
      Filter(leads, keep)
  }

  /** `getStatusBadgeColor`: chosen by the lower-cased status. */
  function StatusBadgeColor(status: string): (r: string)
    ensures r in [Blue, Yellow, Green, Purple, Indigo, Gray]
    ensures r != Gray <==> Lower(status) in ["start-to-call", "call-to-connect", "connect-to-contact", "contact-to-demo", "demo-to-close"]
  {
    match Lower(status)
    case "start-to-call" => Blue
    case "call-to-connect" => Yellow
    case "connect-to-contact" => Green
    case "contact-to-demo" => Purple
    case "demo-to-close" => Indigo
    case _ => Gray
  }

  /** Statuses that differ only in the case of ASCII letters get the same badge. */
  lemma StatusBadgeIgnoresCase(status: string)
    ensures StatusBadgeColor(Lower(status)) == StatusBadgeColor(status)
  {
    LowerIdempotent(status);
  }

  /** The five pipeline stages get five different colours; `Lost` stays gray. */
  lemma StatusBadgeOfStage(m: CrmTypes.LeadStatus)
    ensures StatusBadgeColor(m.Value()) == [Blue, Yellow, Green, Purple, Indigo, Gray][m.Index()]
  {
    DataFormatters.LeadStatusValueLowered(m);
  }

  /** `getSourceBadgeColor`: only website, referral and event are coloured. */
  function SourceBadgeColor(source: string): (r: string)
    ensures r in [Indigo, Purple, Orange, Gray]
    ensures r != Gray <==> Lower(source) in ["website", "referral", "event"]
  {
    match Lower(source)
    case "website" => Indigo
    case "referral" => Purple
    case "event" => Orange
    case _ => Gray
  }

  /** Of the lead sources only website, referral and event are coloured. */
  lemma SourceBadgeOfSource(m: CrmTypes.LeadSource)
    ensures SourceBadgeColor(m.Value()) == [Indigo, Purple, Orange, Gray, Gray][m.Index()]
  {
    DataFormatters.LowerOfLowercase(m.Value());
  }

  /** The status cell: the first character upper-cased, the rest as it is. */
  function StatusLabel(status: string): (r: string)
    ensures |r| == |status|
    ensures status != [] ==> r[0] == UpperChar(status[0]) && r[1..] == status[1..]
    ensures Lower(r) == Lower(status)
  {
    if status == [] then []
    else
      var r := [UpperChar(status[0])] + status[1..];
      assert forall i :: 1 <= i < |r| ==> r[i] == status[i];
      r
  }

  /** Capitalising twice is capitalising once. */
  lemma StatusLabelIdempotent(status: string)
    ensures StatusLabel(StatusLabel(status)) == StatusLabel(status)
  {
  }

  /** The arguments a call to `fetchLeads` reads from the render it was created in. */
  datatype Query = Query(page: int, limit: int, search: string, personalOnly: bool, statusFilter: string)

  /** The lead list page's state. */
  class LeadsPage {
    const toaster: Toaster
    var leads: seq<Lead>
    var loading: bool
    var pagination: Pagination
    var searchTerm: string
    var filterStatus: string
    var showPersonalOnly: bool

    constructor(toaster: Toaster)
      ensures this.toaster == toaster && leads == [] && loading
      ensures pagination == Pagination(1, 1, 10, 0)
      ensures searchTerm == "" && filterStatus == "" && !showPersonalOnly
    {
      this.toaster := toaster;
      leads := [];
      loading := true;
      pagination := Pagination(1, 1, 10, 0);
      searchTerm := "";
      filterStatus := "";
      showPersonalOnly := false;
    }

    /** `fetchLeads` as created in the current render. */
    function FetchQuery(): (q: Query)
      reads this
      ensures q.page == pagination.currentPage && q.limit == pagination.limit && q.search == searchTerm
      ensures q.personalOnly == showPersonalOnly && q.statusFilter == filterStatus
    {
      Query(pagination.currentPage, pagination.limit, searchTerm, showPersonalOnly, filterStatus)
    }

    /**
     * `fetchLeads` completing with `response`: the leads are filtered by the
     * status the call read, and the whole pagination is copied from the server.
     */
    method FetchLeads(q: Query, response: Outcome<LeadsResponse>)
      modifies this, toaster
      ensures !loading && searchTerm == old(searchTerm) && filterStatus == old(filterStatus)
      ensures showPersonalOnly == old(showPersonalOnly)
      ensures response.Ok? ==>
        var r := response.value;
        leads == StatusFiltered(r.leads, q.statusFilter)
        && pagination == Pagination(r.totalPages, r.page, r.limit, r.total)
        && toaster.shown == old(toaster.shown)
      ensures response.Fail? ==>
        leads == old(leads) && pagination == old(pagination)
        && toaster.shown == old(toaster.shown) + [Error("Failed to load leads")]
    {
      loading := true;
      match response {
        case Ok(r) =>
          leads := StatusFiltered(r.leads, q.statusFilter);
          pagination := Pagination(r.totalPages, r.page, r.limit, r.total);
        case Fail(_) =>
          toaster.Show(Error("Failed to load leads"));
      }
      loading := false;
    }

    /**
     * `handleSearch`: the page is reset, but the fetch it starts reads the
     * page of the render it was created in.
     */
    method HandleSearch() returns (q: Query)
      modifies this
      ensures q == old(FetchQuery())
      ensures pagination == old(pagination).(currentPage := 1)
      ensures leads == old(leads) && searchTerm == old(searchTerm) && filterStatus == old(filterStatus)
      ensures showPersonalOnly == old(showPersonalOnly) && loading == old(loading)
    {
      q := FetchQuery();
      pagination := pagination.(currentPage := 1);
    }

    /**
     * `handleFilterChange`: the filter is stored and the page reset, but the
     * fetch it starts still filters by the previous status.
     */
    method HandleFilterChange(filter: string) returns (q: Query)
      modifies this
      ensures q == old(FetchQuery()) && q.statusFilter == old(filterStatus)
      ensures filterStatus == filter && pagination == old(pagination).(currentPage := 1)
      ensures leads == old(leads) && searchTerm == old(searchTerm)
      ensures showPersonalOnly == old(showPersonalOnly) && loading == old(loading)
    {
      q := FetchQuery();
      filterStatus := filter;
      pagination := pagination.(currentPage := 1);
    }

    /** `handlePageChange`. */
    method HandlePageChange(page: int)
      modifies this
      ensures pagination == old(pagination).(currentPage := page)
      ensures leads == old(leads) && searchTerm == old(searchTerm) && filterStatus == old(filterStatus)
      ensures showPersonalOnly == old(showPersonalOnly) && loading == old(loading)
    {
      pagination := pagination.(currentPage := page);
    }

    /** The "my leads only" checkbox: flips the flag and resets the page. */
    method TogglePersonalOnly()
      modifies this
      ensures showPersonalOnly == !old(showPersonalOnly) && pagination == old(pagination).(currentPage := 1)
      ensures leads == old(leads) && searchTerm == old(searchTerm) && filterStatus == old(filterStatus)
      ensures loading == old(loading)
    {
      showPersonalOnly := !showPersonalOnly;
      pagination := pagination.(currentPage := 1);
    }
  }
}

/**
 * src/components/layout/MainLayout.tsx: the navigation menu, which depends on
 * the user's role, the header title looked up from it, the active-entry test,
 * and the mobile sidebar flag.
 */
module MainLayout {
  import opened Wrappers
  import opened ApiClient

  datatype NavItem = NavItem(name: string, href: string)

  const DashboardItem := NavItem("Dashboard", "/dashboard")
  const UsersItem := NavItem("Users", "/users")
  /** The entries every user sees, in menu order. */
  const FixedItems: seq<NavItem> := [
    DashboardItem,
    NavItem("Clients", "/clients"),
    NavItem("Contacts", "/contacts"),
    NavItem("Leads", "/leads"),
    NavItem("Interactions", "/interactions"),
    NavItem("Notes", "/notes"),
    NavItem("Tasks", "/tasks")
  ]
  const DefaultTitle := "Dashboard"

  /** `user?.role === 'admin'`. */
  predicate IsAdmin(user: Option<User>) {
    user.Some? && user.value.role == "admin"
  }

  /** The `navigation` list: the fixed entries, with Users second for an admin. */
  function Navigation(user: Option<User>): (nav: seq<NavItem>)
    ensures UsersItem in nav <==> IsAdmin(user)
    ensures IsAdmin(user) ==> |nav| == |FixedItems| + 1 && nav[1] == UsersItem && nav[..1] + nav[2..] == FixedItems
    ensures !IsAdmin(user) ==> nav == FixedItems
  {
    [DashboardItem] + (if IsAdmin(user) then [UsersItem] else []) + FixedItems[1..]
  }

  /** `navigation.find(item => item.href === pathname)`: the first entry for the path. */
  function FindByHref(nav: seq<NavItem>, path: string): (r: Option<NavItem>)
    ensures r.None? <==> forall i :: 0 <= i < |nav| ==> nav[i].href != path
    ensures r.Some? ==> exists k :: 0 <= k < |nav| && nav[k] == r.value && nav[k].href == path
                                    && forall j :: 0 <= j < k ==> nav[j].href != path
  {
    if nav == [] then None
    else if nav[0].href == path then Some(nav[0])
    else
      var r := FindByHref(nav[1..], path);
      if r.Some? then
        var k :| 0 <= k < |nav[1..]| && nav[1..][k] == r.value && nav[1..][k].href == path
                 && forall j :: 0 <= j < k ==> nav[1..][j].href != path;
        assert nav[k + 1] == r.value && forall j :: 0 <= j < k + 1 ==> nav[j].href != path;
        r
      else r
  }

  /** An entry is highlighted exactly when its `href` is the pathname. */
  predicate IsActive(item: NavItem, pathname: string) {
    pathname == item.href
  }

  /** The header title: the found entry's name, or `'Dashboard'` when none (or an empty name). */
  function Title(nav: seq<NavItem>, pathname: string): (t: string)
    ensures (forall i :: 0 <= i < |nav| ==> !IsActive(nav[i], pathname)) ==> t == DefaultTitle
  {
    match FindByHref(nav, pathname)
    case Some(item) => if item.name != "" then item.name else DefaultTitle
    case None => DefaultTitle
  }

  /** The header shows the name of the first highlighted entry. */
  lemma TitleIsFirstActiveName(nav: seq<NavItem>, pathname: string, i: int)
    requires 0 <= i < |nav| && IsActive(nav[i], pathname) && nav[i].name != ""
    requires forall j :: 0 <= j < i ==> !IsActive(nav[j], pathname)
    ensures Title(nav, pathname) == nav[i].name
  {
    var found := FindByHref(nav, pathname);
    var k :| 0 <= k < |nav| && nav[k] == found.value && nav[k].href == pathname
             && forall j :: 0 <= j < k ==> nav[j].href != pathname;
    assert k == i;
  }

  /** The layout's own state. */
  class Layout {
    var sidebarOpen: bool

    constructor()
      ensures !sidebarOpen
    {
      sidebarOpen := false;
    }

    /** `toggleSidebar`: flips the flag, so two toggles restore it. */
    method ToggleSidebar()
      modifies this
      ensures sidebarOpen == !old(sidebarOpen)
    {
      sidebarOpen := !sidebarOpen;
    }
  }
}

/**
 * The sidebar's navigation table and its rule for highlighting the current item.
 */
module Sidebar {
  import opened Text

  datatype NavItem = NavItem(title: string, href: string)

  /** The eight navigation entries, in display order. */
  const SidebarItems: seq<NavItem> := [
    NavItem("Dashboard", "/dashboard"),
    NavItem("Deliveries", "/deliveries"),
    NavItem("Agents", "/agents"),
    NavItem("HR", "/hr/staff"),
    NavItem("Customers", "/customers"),
    NavItem("Reports", "/reports"),
    NavItem("Communications", "/communications"),
    NavItem("Configuration", "/configuration")]

  /** Whether the entry linking to `href` is highlighted at `location`: the dashboard also answers
      to "/", and the HR entry to every location beginning with "/hr". */
  function IsActive(location: string, href: string): (active: bool)
    ensures location == href ==> active
    ensures active && location != href ==>
              (href == "/dashboard" && location == "/") || (href == "/hr/staff" && StartsWith(location, "/hr"))
  {
    if href == "/dashboard" then location == "/" || location == "/dashboard"
    else if href == "/hr/staff" then StartsWith(location, "/hr")
    else location == href
  }

  /** Which entries a location highlights: the dashboard for "/" and "/dashboard", HR for anything
      beginning with "/hr", and otherwise the entry whose link it is, if any. */
  lemma ActiveEntries(location: string, i: int)
    requires 0 <= i < |SidebarItems|
    ensures i == 0 ==> (IsActive(location, SidebarItems[i].href) <==> location == "/" || location == "/dashboard")
    ensures i == 3 ==> (IsActive(location, SidebarItems[i].href) <==> StartsWith(location, "/hr"))
    ensures i != 0 && i != 3 ==> (IsActive(location, SidebarItems[i].href) <==> location == SidebarItems[i].href)
  {
  }

  /** No location highlights two entries. */
  lemma AtMostOneActive(location: string, i: int, j: int)
    requires 0 <= i < |SidebarItems| && 0 <= j < |SidebarItems|
    requires IsActive(location, SidebarItems[i].href) && IsActive(location, SidebarItems[j].href)
    ensures i == j
  {
    if StartsWith(location, "/hr") {
      // a location under "/hr" has 'h' as its second character, which no other link has
      assert location[1] == location[..3][1] == 'h';
      assert forall k :: 0 <= k < |SidebarItems| && k != 3 ==> SidebarItems[k].href[1] != 'h';
      assert "/dashboard"[1] == 'd';
    }
  }

  /** Clicking an entry navigates to its link, which highlights that entry. */
  lemma HrefActivatesItself(i: int)
    requires 0 <= i < |SidebarItems|
    ensures IsActive(SidebarItems[i].href, SidebarItems[i].href)
  {
  }

  /** The HR entry matches by prefix alone: "/hr/leave" and also "/hrx" highlight it. */
  lemma HrMatchesByPrefix()
    ensures IsActive("/hr/leave", SidebarItems[3].href)
    ensures IsActive("/hrx", SidebarItems[3].href)
    ensures !IsActive("/h", SidebarItems[3].href)
  {
    assert "/hrx"[..3] == "/hr";
    assert "/hr/leave"[..3] == "/hr";
  }
}

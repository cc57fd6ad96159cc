/** The sidebar: the navigation entries with their count and pinned badges, and the rule
    that marks the entry for the current location as active. */
module Sidebar {
  import opened Js
  import opened Lists

  /** `record.pinned` read as a condition. */
  predicate IsPinned(r: Record) {
    Truthy(Get(r, "pinned"))
  }

  /** `list.filter(r => r.pinned).length` */
  function PinnedCount(list: seq<Record>): (n: nat)
    ensures n <= |list|
    ensures n == 0 <==> forall i :: 0 <= i < |list| ==> !IsPinned(list[i])
    ensures (forall i :: 0 <= i < |list| ==> IsPinned(list[i])) ==> n == |list|
  {
    var r := Filter(list, IsPinned);
    assert r != [] ==> r[0] in list;
    if forall i :: 0 <= i < |list| ==> IsPinned(list[i]) then
      FilterKeepsAll(list, IsPinned);
      |r|
    else
      |r|
  }

  /** A navigation entry; `count` is `None` for `null` and `pinnedCount` is `None` when the
      entry has no such property. */
  datatype MenuItem = MenuItem(caption: string, path: string, count: Option<nat>, pinnedCount: Option<nat>)

  /** `menuItems` */
  function MenuItems(sheets: seq<Record>, tasks: seq<Record>): (items: seq<MenuItem>)
    ensures |items| == 4
    ensures items[0].path == "/dashboard" && items[0].count == None && items[0].pinnedCount == None
    ensures items[1].path == "/google-sheets" && items[1].count == Some(|sheets|)
            && items[1].pinnedCount == Some(PinnedCount(sheets))
    ensures items[2].path == "/tasks" && items[2].count == Some(|tasks|)
            && items[2].pinnedCount == Some(PinnedCount(tasks))
    ensures items[3].path == "/settings" && items[3].count == None && items[3].pinnedCount == None
  {
    [ MenuItem("Dashboard", "/dashboard", None, None),
      MenuItem("Google Sheets", "/google-sheets", Some(|sheets|), Some(PinnedCount(sheets))),
      MenuItem("Tasks", "/tasks", Some(|tasks|), Some(PinnedCount(tasks))),
      MenuItem("Settings", "/settings", None, None) ]
  }

  /** `item.pinnedCount > 0` (an absent count compares as `undefined > 0`, false). */
  predicate ShowsPinnedBadge(item: MenuItem) {
    item.pinnedCount.Some? && item.pinnedCount.value > 0
  }

  /** `item.count !== null` */
  predicate ShowsCountBadge(item: MenuItem) {
    item.count.Some?
  }

  /** The pinned badge appears on a list's entry exactly when some record of it is pinned,
      and never on Dashboard or Settings; only the two list entries carry a count badge. */
  lemma BadgesFollowLists(sheets: seq<Record>, tasks: seq<Record>)
    ensures var items := MenuItems(sheets, tasks);
            && (ShowsPinnedBadge(items[1]) <==> exists i :: 0 <= i < |sheets| && IsPinned(sheets[i]))
            && (ShowsPinnedBadge(items[2]) <==> exists i :: 0 <= i < |tasks| && IsPinned(tasks[i]))
            && !ShowsPinnedBadge(items[0]) && !ShowsPinnedBadge(items[3])
            && ShowsCountBadge(items[1]) && ShowsCountBadge(items[2])
            && !ShowsCountBadge(items[0]) && !ShowsCountBadge(items[3])
  {
  }

  /** `isActive(path)`: the Dashboard entry is also active at the root; otherwise the entry
      whose path is the location's. */
  function IsActive(path: string, pathname: string): (r: bool)
    ensures r <==> pathname == path || (path == "/dashboard" && pathname == "/")
  {
    if path == "/dashboard" && (pathname == "/" || pathname == "/dashboard") then true
    else pathname == path
  }

  /** At most one entry is active for any location, and each of the five routed locations
      activates one. */
  lemma OneActiveEntry(sheets: seq<Record>, tasks: seq<Record>, pathname: string)
    ensures var items := MenuItems(sheets, tasks);
            forall i, j :: 0 <= i < j < |items| ==>
              !(IsActive(items[i].path, pathname) && IsActive(items[j].path, pathname))
    ensures var items := MenuItems(sheets, tasks);
            pathname in {"/", "/dashboard", "/google-sheets", "/tasks", "/settings"} ==>
              exists i :: 0 <= i < |items| && IsActive(items[i].path, pathname)
  {
    var items := MenuItems(sheets, tasks);
    if pathname in {"/", "/dashboard"} {
      assert IsActive(items[0].path, pathname);
    } else if pathname == "/google-sheets" {
      assert IsActive(items[1].path, pathname);
    } else if pathname == "/tasks" {
      assert IsActive(items[2].path, pathname);
    } else if pathname == "/settings" {
      assert IsActive(items[3].path, pathname);
    }
  }
}

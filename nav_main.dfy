/** The main navigation list: which item is highlighted, and what a click
    forwards. */
module NavMain {
  import opened Records
  import opened NavContext

  /** A navigation item. */
  datatype NavItem = NavItem(title: string, url: string)

  /** The titles this component's own page map knows. */
  const MappedTitles: seq<string> := ["Dashboard", "Expenses", "Analytics"]

  /** `pageMap[itemTitle]`: the page name for a title, if it has one. */
  function PageName(title: string): (r: Option<string>)
    ensures r.Some? <==> title in MappedTitles
  {
    if title == "Dashboard" then Some("dashboard")
    else if title == "Expenses" then Some("expenses")
    else if title == "Analytics" then Some("analytics")
    else None
  }

  const ActiveClass: string := "bg-blue-500 text-white hover:bg-blue-600 active:bg-blue-600"

  /** The highlight is on exactly when the mapped name is the current page. */
  predicate IsActive(title: string, current: Page)
  {
    PageName(title) == Some(Name(current))
  }

  /** `getActiveClass`: the highlight classes for the active item, nothing
      otherwise. */
  function GetActiveClass(title: string, current: Page): (r: string)
    ensures r != "" <==> IsActive(title, current)
  {
    if IsActive(title, current) then ActiveClass else ""
  }

  /** A title the page map does not know is never highlighted. */
  lemma UnmappedNeverActive(title: string, current: Page)
    requires title !in MappedTitles
    ensures GetActiveClass(title, current) == ""
  {
  }

  /** Whatever the current page, exactly one mapped title is highlighted. */
  lemma ExactlyOneActive(current: Page)
    ensures exists t :: t in MappedTitles && IsActive(t, current)
    ensures forall t, u :: t in MappedTitles && u in MappedTitles && IsActive(t, current) && IsActive(u, current) ==> t == u
  {
    match current
    case Dashboard => assert IsActive(MappedTitles[0], current);
    case Expenses => assert IsActive(MappedTitles[1], current);
    case Analytics => assert IsActive(MappedTitles[2], current);
  }

  /** `onItemClick?.(item.title)`: the title the handler receives, if a
      handler is present. */
  function ClickedTitle(items: seq<NavItem>, i: nat, handlerPresent: bool): (r: Option<string>)
    requires i < |items|
    ensures r.Some? <==> handlerPresent
    ensures r.Some? ==> r.value == items[i].title
  {
    if handlerPresent then Some(items[i].title) else None
  }
}

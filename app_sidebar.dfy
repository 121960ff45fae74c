/** The sidebar: its main navigation items and the click handler that turns
    an item's title into a page change. */
module AppSidebar {
  import opened Records
  import opened NavContext
  import NavMain

  /** `data.navMain`. */
  const NavMainItems: seq<NavMain.NavItem> :=
    [NavMain.NavItem("Dashboard", "#"), NavMain.NavItem("Expenses", "#"), NavMain.NavItem("Analytics", "#")]

  /** The titles of the main items, in order. */
  function Titles(items: seq<NavMain.NavItem>): (r: seq<string>)
    ensures |r| == |items|
    ensures forall i :: 0 <= i < |items| ==> r[i] == items[i].title
  {
    if items == [] then [] else [items[0].title] + Titles(items[1..])
  }

  /** `pageMap[title]`: the page for a title, if it has one. */
  function PageForTitle(title: string): (r: Option<Page>)
    ensures r.Some? <==> title in Titles(NavMainItems)
  {
    assert Titles(NavMainItems) == ["Dashboard", "Expenses", "Analytics"];
    if title == "Dashboard" then Some(Dashboard)
    else if title == "Expenses" then Some(Expenses)
    else if title == "Analytics" then Some(Analytics)
    else None
  }

  /** Distinct titles never lead to the same page. */
  lemma PageForTitleInjective(a: string, b: string)
    requires PageForTitle(a).Some?
    ensures PageForTitle(a) == PageForTitle(b) ==> a == b
  {
  }

  /** Every page is reachable from one of the main items. */
  lemma EveryPageReachable(p: Page)
    ensures exists i :: 0 <= i < |NavMainItems| && PageForTitle(NavMainItems[i].title) == Some(p)
  {
    match p
    case Dashboard => assert PageForTitle(NavMainItems[0].title) == Some(p);
    case Expenses => assert PageForTitle(NavMainItems[1].title) == Some(p);
    case Analytics => assert PageForTitle(NavMainItems[2].title) == Some(p);
  }

  /** This map and the main list's highlight map agree: a title leads to the
      page whose name the highlight compares against. */
  lemma PageMapsAgree(title: string)
    ensures NavMain.PageName(title).Some? <==> PageForTitle(title).Some?
    ensures PageForTitle(title).Some? ==> NavMain.PageName(title) == Some(Name(PageForTitle(title).value))
  {
  }

  /** `handleNavClick`: switch to the title's page; an unknown title changes
      nothing. */
  method HandleNavClick(nav: Nav, title: string)
    modifies nav
    ensures PageForTitle(title).Some? ==> nav.currentPage == PageForTitle(title).value
    ensures PageForTitle(title).None? ==> nav.currentPage == old(nav.currentPage)
    ensures nav.selectedCurrency == old(nav.selectedCurrency) && nav.conversionRates == old(nav.conversionRates)
  {
    var page := PageForTitle(title);
    if page.Some? {
      nav.SetCurrentPage(page.value);
    }
  }

  /** A click on the i-th main item: the item's title is forwarded to
      `handleNavClick`, and afterwards that item is the highlighted one. */
  method ClickMainItem(nav: Nav, i: nat)
    requires i < |NavMainItems|
    modifies nav
    ensures nav.currentPage == PageForTitle(NavMainItems[i].title).value
    ensures NavMain.IsActive(NavMainItems[i].title, nav.currentPage)
    ensures nav.selectedCurrency == old(nav.selectedCurrency) && nav.conversionRates == old(nav.conversionRates)
  {
    var title := NavMain.ClickedTitle(NavMainItems, i, true);
    assert Titles(NavMainItems)[i] == NavMainItems[i].title;
    HandleNavClick(nav, title.value);
    PageMapsAgree(title.value);
  }
}

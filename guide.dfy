/** The guide's view state and the event handlers that change it. */
module Guide {
  import opened Text
  import opened Catalog
  import opened Navigation
  import opened Content

  /** Every leaf of the sidebar opens a panel. */
  lemma LeafHasPanel(data: TroubleshootingData, item: NavItem)
    requires item in Nodes(NAVIGATION) && !HasChildren(item)
    ensures TabPanel(data, item.id) != Empty
  {
    LeavesOfExact(Nodes(NAVIGATION));
    PanelsAreLeaves(data, item.id);
  }

  class HelloGuide {
    /** The troubleshooting catalog the guide shows, fixed at creation. */
    const data: TroubleshootingData
    var activeTab: string
    var sidebarOpen: bool
    var darkMode: bool
    var searchQuery: string
    /** Expansion flags of the sidebar groups, by node id. */
    var navExpanded: map<string, bool>
    /** Expansion flags of the error cards, by entry id. */
    var cardExpanded: map<string, bool>

    /** The selected tab names a panel, so it is one the sidebar can
        select (`PanelsAreLeaves`). */
    ghost predicate Valid()
      reads this
    {
      TabPanel(data, activeTab) != Empty
    }

    function View(): (v: View)
      reads this`activeTab, this`searchQuery
      ensures v.SearchResults? <==> !IsBlank(searchQuery)
      ensures !v.SearchResults? ==> v == TabPanel(data, activeTab)
    {
      CurrentContent(data, activeTab, searchQuery)
    }

    /** The sidebar's buttons: each is indented for its level and
        highlighted exactly when it is the active tab, each is a node of the
        tree, and with no group folded every node shows, in tree order. */
    function Sidebar(): (r: seq<Row>)
      reads this`activeTab, this`navExpanded
      ensures WellLaidOut(r, 0, activeTab)
      ensures |r| <= |Nodes(NAVIGATION)| && forall id :: id in RowIds(r) ==> id in Ids(Nodes(NAVIGATION))
      ensures navExpanded == map[] ==> RowIds(r) == Ids(Nodes(NAVIGATION))
    {
      RowsWellLaidOut(NAVIGATION, 0, activeTab, navExpanded);
      RowsShowOnlyNodes(NAVIGATION, 0, activeTab, navExpanded);
      FullyExpandedShowsAll(NAVIGATION, 0, activeTab);
      Rows(NAVIGATION, 0, activeTab, navExpanded)
    }

    function NavIsExpanded(id: string): bool
      reads this
    {
      IsExpanded(navExpanded, id)
    }

    function CardIsExpanded(id: string): bool
      reads this
    {
      id in cardExpanded && cardExpanded[id]
    }

    constructor ()
      ensures Valid()
      ensures activeTab == "overview" && !sidebarOpen && !darkMode && searchQuery == ""
      ensures navExpanded == map[] && cardExpanded == map[]
      ensures data == TROUBLESHOOTING_DATA
      ensures View() == Overview
    {
      data := TROUBLESHOOTING_DATA;
      activeTab := "overview";
      sidebarOpen := false;
      darkMode := false;
      searchQuery := "";
      navExpanded := map[];
      cardExpanded := map[];
    }

    /** Typing in the search box. */
    method SetSearchQuery(q: string)
      requires Valid()
      modifies this
      ensures Valid()
      ensures searchQuery == q
      ensures activeTab == old(activeTab) && sidebarOpen == old(sidebarOpen) && darkMode == old(darkMode)
      ensures navExpanded == old(navExpanded) && cardExpanded == old(cardExpanded)
    {
      searchQuery := q;
    }

    /** The sidebar's selection callback; the state stays valid exactly when
        the id names a panel. */
    method SelectTab(id: string)
      modifies this
      ensures Valid() <==> TabPanel(data, id) != Empty
      ensures activeTab == id && !sidebarOpen && searchQuery == ""
      ensures View() == TabPanel(data, id)
      ensures darkMode == old(darkMode) && navExpanded == old(navExpanded) && cardExpanded == old(cardExpanded)
    {
      activeTab := id;
      sidebarOpen := false;
      searchQuery := "";
    }

    /** A click on a sidebar button: a group folds or unfolds, a leaf is
        selected. */
    method ClickNavItem(item: NavItem)
      requires Valid() && item in Nodes(NAVIGATION)
      modifies this
      ensures Valid()
      ensures HasChildren(item) ==>
        && navExpanded == old(navExpanded)[item.id := !old(NavIsExpanded(item.id))]
        && activeTab == old(activeTab) && sidebarOpen == old(sidebarOpen)
        && searchQuery == old(searchQuery) && cardExpanded == old(cardExpanded)
      ensures HasChildren(item) ==> forall level: nat ::
        var rs := ItemRows(item, level, activeTab, navExpanded);
        if old(NavIsExpanded(item.id)) then rs == [rs[0]] && rs[0].chevron == Right
        else |rs| > 1 && rs[0].chevron == Down && rs[1].id == item.children.items[0].id
      ensures !HasChildren(item) ==>
        && activeTab == item.id && !sidebarOpen && searchQuery == ""
        && View() == TabPanel(data, item.id) && View() != Empty
        && navExpanded == old(navExpanded)
      ensures darkMode == old(darkMode) && cardExpanded == old(cardExpanded)
    {
      if HasChildren(item) {
        navExpanded := navExpanded[item.id := !NavIsExpanded(item.id)];
        forall level: nat {
          GroupRows(item, level, activeTab, navExpanded);
        }
      } else {
        LeafHasPanel(data, item);
        SelectTab(item.id);
      }
    }

    /** The header's menu button. */
    method ToggleSidebar()
      modifies this`sidebarOpen
      ensures sidebarOpen == !old(sidebarOpen)
    {
      sidebarOpen := !sidebarOpen;
    }

    /** A click on the overlay behind the open sidebar. */
    method CloseSidebar()
      modifies this`sidebarOpen
      ensures !sidebarOpen
    {
      sidebarOpen := false;
    }

    /** The header's theme button. */
    method ToggleDarkMode()
      modifies this`darkMode
      ensures darkMode == !old(darkMode)
    {
      darkMode := !darkMode;
    }

    /** A click on the header of an error card. */
    method ToggleCard(id: string)
      modifies this`cardExpanded
      ensures cardExpanded == old(cardExpanded)[id := !old(CardIsExpanded(id))]
      ensures CardIsExpanded(id) == !old(CardIsExpanded(id))
    {
      cardExpanded := cardExpanded[id := !CardIsExpanded(id)];
    }
  }

  /** Every flag the handlers flip by negation is back where it started
      after two clicks. */
  method ToggleTwice() returns (dark: bool, open: bool, installationOpen: bool, cardOpen: bool)
    ensures !dark && !open && installationOpen && !cardOpen
  {
    var g := new HelloGuide();
    g.ToggleDarkMode();
    g.ToggleDarkMode();
    g.ToggleSidebar();
    g.ToggleSidebar();
    assert INSTALLATION in NAVIGATION;
    g.ClickNavItem(INSTALLATION);
    assert !g.NavIsExpanded("installation");
    g.ClickNavItem(INSTALLATION);
    assert g.NavIsExpanded("installation");
    var card := "pg-connection-refused";
    g.ToggleCard(card);
    g.ToggleCard(card);
    dark, open, installationOpen, cardOpen :=
      g.darkMode, g.sidebarOpen, g.NavIsExpanded("installation"), g.CardIsExpanded(card);
  }
}

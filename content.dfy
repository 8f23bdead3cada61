/** What the guide's main area shows: the search results while a search is
    active, otherwise the panel of the selected sidebar entry. */
module Content {
  import opened Optional
  import opened Text
  import opened Catalog
  import opened Search
  import opened Navigation

  datatype View =
    | SearchResults(query: string, results: seq<Entry>)
    | Overview
    | InstallGuide(product: Category)
    | Troubleshooting(product: Category, entries: seq<Entry>)
    | Empty

  /** The catalog section a troubleshooting panel lists. */
  function ProductEntries(data: TroubleshootingData, product: Category): seq<Entry>
  {
    match product
    case PostgreSQL => data.postgresql
    case Odoo => data.odoo
  }

  /** The panel a tab id selects; an id no case names selects nothing. */
  function TabPanel(data: TroubleshootingData, activeTab: string): (v: View)
    ensures v.Troubleshooting? ==> v.entries == ProductEntries(data, v.product)
    ensures !v.SearchResults?
  {
    if activeTab == "overview" then Overview
    else if activeTab == "install-pg" then InstallGuide(PostgreSQL)
    else if activeTab == "install-odoo" then InstallGuide(Odoo)
    else if activeTab == "troubleshoot-pg" then Troubleshooting(PostgreSQL, data.postgresql)
    else if activeTab == "troubleshoot-odoo" then Troubleshooting(Odoo, data.odoo)
    else Empty
  }

  /** The main area: a search in progress wins over the selected tab. */
  function CurrentContent(data: TroubleshootingData, activeTab: string, searchQuery: string): (v: View)
    ensures v.SearchResults? <==> !IsBlank(searchQuery)
    ensures v.SearchResults? ==> v.query == searchQuery
  {
    match FilterErrors(AllErrors(data), searchQuery)
    case Some(results) => SearchResults(searchQuery, results)
    case None => TabPanel(data, activeTab)
  }

  /** The error cards a view puts on screen, in display order. */
  function Cards(v: View): seq<Entry>
  {
    match v
    case SearchResults(_, results) => results
    case Troubleshooting(_, entries) => entries
    case _ => []
  }

  /** The count line's noun, plural only above one result: zero and one
      result both read "résultat". */
  function ResultNoun(count: nat): (s: string)
    ensures count > 1 ==> s == "résultats"
    ensures count <= 1 ==> s == "résultat"
  {
    "résultat" + (if count > 1 then "s" else "")
  }

  /** While the query is not blank the view is its results, whatever tab is
      selected. */
  lemma SearchWins(data: TroubleshootingData, tab1: string, tab2: string, searchQuery: string)
    requires !IsBlank(searchQuery)
    ensures CurrentContent(data, tab1, searchQuery) == CurrentContent(data, tab2, searchQuery)
    ensures CurrentContent(data, tab1, searchQuery).results == FilterErrors(AllErrors(data), searchQuery).value
  {
  }

  /** With a blank query the selected tab alone decides. */
  lemma BlankQueryShowsTab(data: TroubleshootingData, activeTab: string, searchQuery: string)
    requires IsBlank(searchQuery)
    ensures CurrentContent(data, activeTab, searchQuery) == TabPanel(data, activeTab)
    ensures CurrentContent(data, activeTab, searchQuery) == CurrentContent(data, activeTab, "")
  {
  }

  /** A tab shows a panel exactly when it is a leaf of the sidebar, and no
      two leaves show the same panel. */
  lemma PanelsAreLeaves(data: TroubleshootingData, activeTab: string)
    ensures TabPanel(data, activeTab) != Empty <==> activeTab in LeafIds(NAVIGATION)
  {
    NavigationLeaves();
  }

  lemma PanelsDistinct(data: TroubleshootingData, tab1: string, tab2: string)
    requires TabPanel(data, tab1) != Empty
    requires TabPanel(data, tab1) == TabPanel(data, tab2)
    ensures tab1 == tab2
  {
  }

  /** The five panels of the shipped guide, and the empty view for a group's
      id, which no click can select. */
  lemma ShippedPanels()
    ensures TabPanel(TROUBLESHOOTING_DATA, "overview") == Overview
    ensures TabPanel(TROUBLESHOOTING_DATA, "install-pg") == InstallGuide(PostgreSQL)
    ensures TabPanel(TROUBLESHOOTING_DATA, "install-odoo") == InstallGuide(Odoo)
    ensures TabPanel(TROUBLESHOOTING_DATA, "troubleshoot-pg") == Troubleshooting(PostgreSQL, PG_ENTRIES)
    ensures TabPanel(TROUBLESHOOTING_DATA, "troubleshoot-odoo") == Troubleshooting(Odoo, ODOO_ENTRIES)
    ensures TabPanel(TROUBLESHOOTING_DATA, "installation") == Empty
  {
  }

  /** The error cards on screen: the search results while a search is
      active, otherwise the selected product's section, and none on any
      other panel; every card is an entry of `allErrors`. */
  lemma CardsShown(data: TroubleshootingData, activeTab: string, searchQuery: string)
    ensures var cards := Cards(CurrentContent(data, activeTab, searchQuery));
      && (!IsBlank(searchQuery) ==> cards == FilterErrors(AllErrors(data), searchQuery).value)
      && (IsBlank(searchQuery) ==>
            cards == if activeTab == "troubleshoot-pg" then data.postgresql
                     else if activeTab == "troubleshoot-odoo" then data.odoo
                     else [])
      && forall e :: e in cards ==> e in AllErrors(data)
  {
    var all := AllErrors(data);
    var v := CurrentContent(data, activeTab, searchQuery);
    if !IsBlank(searchQuery) {
      SearchWins(data, activeTab, activeTab, searchQuery);
      assert Cards(v) == KeepIf(all, Matcher(ToLower(searchQuery)));
    } else {
      BlankQueryShowsTab(data, activeTab, searchQuery);
      assert forall e :: e in data.postgresql ==> e in all;
      assert forall e :: e in data.odoo ==> e in all;
    }
  }

  /** The cards' React keys are unique on every screen whenever the
      catalog's ids are. */
  lemma CardKeysDistinct(data: TroubleshootingData, activeTab: string, searchQuery: string)
    requires DistinctIds(AllErrors(data))
    ensures DistinctIds(Cards(CurrentContent(data, activeTab, searchQuery)))
  {
    var all := AllErrors(data);
    var n := |data.postgresql|;
    var v := CurrentContent(data, activeTab, searchQuery);
    if !IsBlank(searchQuery) {
      SearchWins(data, activeTab, activeTab, searchQuery);
      assert Cards(v) == KeepIf(all, Matcher(ToLower(searchQuery)));
      KeepIfKeepsIdsDistinct(all, Matcher(ToLower(searchQuery)));
      return;
    }
    BlankQueryShowsTab(data, activeTab, searchQuery);
    if activeTab == "troubleshoot-pg" {
      forall i, j | 0 <= i < j < n ensures data.postgresql[i].id != data.postgresql[j].id {
        assert data.postgresql[i] == all[i] && data.postgresql[j] == all[j];
      }
    } else if activeTab == "troubleshoot-odoo" {
      forall i, j | 0 <= i < j < |data.odoo| ensures data.odoo[i].id != data.odoo[j].id {
        assert data.odoo[i] == all[n + i] && data.odoo[j] == all[n + j];
      }
    }
  }

  /** In the shipped guide no screen shows two cards with the same key. */
  lemma ShippedCardKeysDistinct(activeTab: string, searchQuery: string)
    ensures DistinctIds(Cards(CurrentContent(TROUBLESHOOTING_DATA, activeTab, searchQuery)))
  {
    CatalogIdsDistinct();
    CardKeysDistinct(TROUBLESHOOTING_DATA, activeTab, searchQuery);
  }

  function InCategory(product: Category): Entry -> bool
  {
    (e: Entry) => e.category == product
  }

  /** Each troubleshooting panel lists exactly the catalog entries of its
      product, in catalog order, provided each product list holds only its
      own product's entries, as the shipped one does. */
  lemma ProductSection(data: TroubleshootingData, product: Category)
    requires AllOf(data.postgresql, PostgreSQL) && AllOf(data.odoo, Odoo)
    ensures ProductEntries(data, product) == KeepIf(AllErrors(data), InCategory(product))
  {
    SplitByProduct(data.postgresql, data.odoo, product);
  }

  lemma ShippedSections(product: Category)
    ensures ProductEntries(TROUBLESHOOTING_DATA, product) == KeepIf(ALL_ERRORS, InCategory(product))
  {
    CatalogByProduct();
    ProductSection(TROUBLESHOOTING_DATA, product);
  }

  lemma SplitByProduct(pg: seq<Entry>, odoo: seq<Entry>, product: Category)
    requires AllOf(pg, PostgreSQL) && AllOf(odoo, Odoo)
    ensures KeepIf(pg + odoo, InCategory(product)) == if product == PostgreSQL then pg else odoo
  {
    var keep := InCategory(product);
    KeepIfAppend(pg, odoo, keep);
    if product == PostgreSQL {
      assert forall i :: 0 <= i < |pg| ==> pg[i] in pg;
      assert forall i :: 0 <= i < |odoo| ==> odoo[i] in odoo;
      AllKept(pg, keep);
      NoneKept(odoo, keep);
    } else {
      assert forall i :: 0 <= i < |pg| ==> pg[i] in pg;
      assert forall i :: 0 <= i < |odoo| ==> odoo[i] in odoo;
      NoneKept(pg, keep);
      AllKept(odoo, keep);
    }
  }

  lemma {:induction false} AllKept(es: seq<Entry>, keep: Entry -> bool)
    requires forall i :: 0 <= i < |es| ==> keep(es[i])
    ensures KeepIf(es, keep) == es
  {
    if es != [] {
      AllKept(es[1..], keep);
    }
  }

  lemma {:induction false} NoneKept(es: seq<Entry>, keep: Entry -> bool)
    requires forall i :: 0 <= i < |es| ==> !keep(es[i])
    ensures KeepIf(es, keep) == []
  {
    if es != [] {
      NoneKept(es[1..], keep);
    }
  }
}

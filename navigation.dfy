/** The guide's sidebar: a tree of sections whose grouping nodes fold and
    unfold, rendered with an indent that grows with the depth. */
module Navigation {

  datatype Color = Yellow | Orange | Red | Blue

  /** The optional `children` list of a sidebar node. */
  datatype Children = Absent | Present(items: seq<NavItem>)

  datatype NavItem = NavItem(id: string, text: string, color: Color, children: Children)

  /** A node counts as a group only if it has a non-empty child list; an
      absent list and an empty one both make a leaf. */
  predicate HasChildren(item: NavItem)
  {
    item.children.Present? && |item.children.items| > 0
  }

  const OVERVIEW := NavItem("overview", "Vue d'ensemble", Yellow, Absent)
  const INSTALL_PG := NavItem("install-pg", "PostgreSQL 18", Blue, Absent)
  const INSTALL_ODOO := NavItem("install-odoo", "Odoo 19", Orange, Absent)
  const INSTALLATION := NavItem("installation", "Installation", Orange, Present([INSTALL_PG, INSTALL_ODOO]))
  const TROUBLESHOOT_PG := NavItem("troubleshoot-pg", "PostgreSQL", Blue, Absent)
  const TROUBLESHOOT_ODOO := NavItem("troubleshoot-odoo", "Odoo", Red, Absent)
  const TROUBLESHOOTING := NavItem("troubleshooting", "Dépannage", Red, Present([TROUBLESHOOT_PG, TROUBLESHOOT_ODOO]))

  /** The shipped sidebar tree. */
  const NAVIGATION: seq<NavItem> := [OVERVIEW, INSTALLATION, TROUBLESHOOTING]

  /** Every node of a forest in display order, each before its children. */
  function Nodes(items: seq<NavItem>): (r: seq<NavItem>)
    ensures forall n :: n in items ==> n in r
    ensures |r| >= |items|
    decreases items
  {
    if items == [] then [] else NodesOf(items[0]) + Nodes(items[1..])
  }

  function NodesOf(item: NavItem): (r: seq<NavItem>)
    ensures |r| > 0 && r[0] == item
    decreases item
  {
    match item.children
    case Absent => [item]
    case Present(cs) => [item] + Nodes(cs)
  }

  function Ids(ns: seq<NavItem>): (r: seq<string>)
    ensures |r| == |ns| && forall i :: 0 <= i < |ns| ==> r[i] == ns[i].id
  {
    if ns == [] then [] else [ns[0].id] + Ids(ns[1..])
  }

  /** The ids a click can make the active tab: those of the leaves, in
      display order. */
  function LeafIds(items: seq<NavItem>): seq<string>
  {
    LeavesOf(Nodes(items))
  }

  function LeavesOf(ns: seq<NavItem>): seq<string>
  {
    if ns == [] then []
    else (if HasChildren(ns[0]) then [] else [ns[0].id]) + LeavesOf(ns[1..])
  }

  /** Exactly the ids of the childless nodes are leaf ids. */
  lemma {:induction false} LeavesOfExact(ns: seq<NavItem>)
    ensures forall id :: id in LeavesOf(ns) <==> exists n :: n in ns && !HasChildren(n) && n.id == id
  {
    if ns != [] {
      LeavesOfExact(ns[1..]);
      assert forall n :: n in ns <==> n == ns[0] || n in ns[1..];
    }
  }

  /** The expansion flag of a group, `true` until it is first toggled. */
  function IsExpanded(expanded: map<string, bool>, id: string): bool
  {
    if id in expanded then expanded[id] else true
  }

  /** `paddingLeft` of a sidebar row, in pixels. */
  function Indent(level: nat): (px: nat)
    ensures level == 0 ==> px == 12
    ensures level > 0 ==> px == Indent(level - 1) + 16
  {
    12 + level * 16
  }

  datatype Chevron = NoChevron | Down | Right

  /** One rendered sidebar button. */
  datatype Row = Row(id: string, level: nat, indent: nat, active: bool, chevron: Chevron)

  /** The buttons a forest renders at `level`; a group's children follow it,
      one level deeper, only while the group is expanded. */
  function Rows(items: seq<NavItem>, level: nat, activeTab: string, expanded: map<string, bool>): (r: seq<Row>)
    ensures |r| >= |items|
    decreases items
  {
    if items == [] then []
    else ItemRows(items[0], level, activeTab, expanded) + Rows(items[1..], level, activeTab, expanded)
  }

  function ItemRows(item: NavItem, level: nat, activeTab: string, expanded: map<string, bool>): (r: seq<Row>)
    ensures |r| > 0 && r[0].id == item.id && r[0].level == level
    decreases item
  {
    var open := IsExpanded(expanded, item.id);
    var head := Row(item.id, level, Indent(level), activeTab == item.id,
                    if !HasChildren(item) then NoChevron else if open then Down else Right);
    if HasChildren(item) && open then [head] + Rows(item.children.items, level + 1, activeTab, expanded)
    else [head]
  }

  function RowIds(rs: seq<Row>): (r: seq<string>)
    ensures |r| == |rs| && forall i :: 0 <= i < |rs| ==> r[i] == rs[i].id
  {
    if rs == [] then [] else [rs[0].id] + RowIds(rs[1..])
  }

  /** Rows are laid out consistently: nothing sits above the starting level,
      the indent is the one of the row's level, exactly the active tab's row
      is highlighted, and a row is at most one level deeper than the row
      before it. */
  ghost predicate WellLaidOut(rs: seq<Row>, level: nat, activeTab: string)
  {
    && (forall k :: 0 <= k < |rs| ==> rs[k].level >= level)
    && (forall k :: 0 <= k < |rs| ==> rs[k].indent == Indent(rs[k].level))
    && (forall k :: 0 <= k < |rs| ==> (rs[k].active <==> rs[k].id == activeTab))
    && (forall k :: 0 < k < |rs| ==> rs[k].level <= rs[k - 1].level + 1)
  }

  lemma {:induction false} RowsWellLaidOut(items: seq<NavItem>, level: nat, activeTab: string, expanded: map<string, bool>)
    ensures WellLaidOut(Rows(items, level, activeTab, expanded), level, activeTab)
    ensures |items| > 0 ==> Rows(items, level, activeTab, expanded)[0].level == level
    decreases items
  {
    if items != [] {
      ItemRowsWellLaidOut(items[0], level, activeTab, expanded);
      RowsWellLaidOut(items[1..], level, activeTab, expanded);
    }
  }

  lemma {:induction false} ItemRowsWellLaidOut(item: NavItem, level: nat, activeTab: string, expanded: map<string, bool>)
    ensures WellLaidOut(ItemRows(item, level, activeTab, expanded), level, activeTab)
    decreases item
  {
    if HasChildren(item) && IsExpanded(expanded, item.id) {
      RowsWellLaidOut(item.children.items, level + 1, activeTab, expanded);
    }
  }

  /** An expanded group is followed by its first child, one level deeper;
      a collapsed group, or a leaf, renders as its own button alone. */
  lemma GroupRows(item: NavItem, level: nat, activeTab: string, expanded: map<string, bool>)
    ensures var r := ItemRows(item, level, activeTab, expanded);
      && (HasChildren(item) && IsExpanded(expanded, item.id) ==>
            |r| > 1 && r[0].chevron == Down && r[1].id == item.children.items[0].id && r[1].level == level + 1)
      && (HasChildren(item) && !IsExpanded(expanded, item.id) ==> r == [r[0]] && r[0].chevron == Right)
      && (!HasChildren(item) ==> r == [r[0]] && r[0].chevron == NoChevron)
  {
  }

  /** With nothing collapsed, the sidebar shows every node of the tree, in
      the tree's own order. */
  lemma {:induction false} FullyExpandedShowsAll(items: seq<NavItem>, level: nat, activeTab: string)
    ensures RowIds(Rows(items, level, activeTab, map[])) == Ids(Nodes(items))
    decreases items
  {
    if items != [] {
      FullyExpandedItemShowsAll(items[0], level, activeTab);
      FullyExpandedShowsAll(items[1..], level, activeTab);
      RowIdsAppend(ItemRows(items[0], level, activeTab, map[]), Rows(items[1..], level, activeTab, map[]));
      IdsAppend(NodesOf(items[0]), Nodes(items[1..]));
    }
  }

  lemma {:induction false} FullyExpandedItemShowsAll(item: NavItem, level: nat, activeTab: string)
    ensures RowIds(ItemRows(item, level, activeTab, map[])) == Ids(NodesOf(item))
    decreases item
  {
    match item.children
    case Absent =>
    case Present(cs) =>
      FullyExpandedShowsAll(cs, level + 1, activeTab);
      if cs == [] {
        assert Nodes(cs) == [];
        assert NodesOf(item) == [item];
      } else {
        var rest := Rows(cs, level + 1, activeTab, map[]);
        RowIdsAppend([ItemRows(item, level, activeTab, map[])[0]], rest);
        IdsAppend([item], Nodes(cs));
      }
  }

  lemma RowIdsAppend(a: seq<Row>, b: seq<Row>)
    ensures RowIds(a + b) == RowIds(a) + RowIds(b)
  {
  }

  lemma IdsAppend(a: seq<NavItem>, b: seq<NavItem>)
    ensures Ids(a + b) == Ids(a) + Ids(b)
  {
  }

  /** Collapsing only hides: every button is a node of the tree, and there
      are never more buttons than nodes. */
  lemma {:induction false} RowsShowOnlyNodes(items: seq<NavItem>, level: nat, activeTab: string, expanded: map<string, bool>)
    ensures var r := Rows(items, level, activeTab, expanded);
      |r| <= |Nodes(items)| && forall id :: id in RowIds(r) ==> id in Ids(Nodes(items))
    decreases items
  {
    if items != [] {
      ItemRowsShowOnlyNodes(items[0], level, activeTab, expanded);
      RowsShowOnlyNodes(items[1..], level, activeTab, expanded);
      RowIdsAppend(ItemRows(items[0], level, activeTab, expanded), Rows(items[1..], level, activeTab, expanded));
      IdsAppend(NodesOf(items[0]), Nodes(items[1..]));
    }
  }

  lemma {:induction false} ItemRowsShowOnlyNodes(item: NavItem, level: nat, activeTab: string, expanded: map<string, bool>)
    ensures var r := ItemRows(item, level, activeTab, expanded);
      |r| <= |NodesOf(item)| && forall id :: id in RowIds(r) ==> id in Ids(NodesOf(item))
    decreases item
  {
    var r := ItemRows(item, level, activeTab, expanded);
    if HasChildren(item) && IsExpanded(expanded, item.id) {
      var cs := item.children.items;
      RowsShowOnlyNodes(cs, level + 1, activeTab, expanded);
      RowIdsAppend([r[0]], Rows(cs, level + 1, activeTab, expanded));
      IdsAppend([item], Nodes(cs));
    }
  }

  /** The shipped tree: five selectable leaves, and seven pairwise distinct
      node ids in display order. */
  lemma NavigationNodes()
    ensures Nodes(NAVIGATION) == [OVERVIEW, INSTALLATION, INSTALL_PG, INSTALL_ODOO,
                                  TROUBLESHOOTING, TROUBLESHOOT_PG, TROUBLESHOOT_ODOO]
  {
    assert NodesOf(OVERVIEW) == [OVERVIEW];
    assert Nodes([INSTALL_ODOO]) == [INSTALL_ODOO];
    assert Nodes([INSTALL_PG, INSTALL_ODOO]) == [INSTALL_PG, INSTALL_ODOO];
    assert NodesOf(INSTALLATION) == [INSTALLATION, INSTALL_PG, INSTALL_ODOO];
    assert Nodes([TROUBLESHOOT_ODOO]) == [TROUBLESHOOT_ODOO];
    assert Nodes([TROUBLESHOOT_PG, TROUBLESHOOT_ODOO]) == [TROUBLESHOOT_PG, TROUBLESHOOT_ODOO];
    assert NodesOf(TROUBLESHOOTING) == [TROUBLESHOOTING, TROUBLESHOOT_PG, TROUBLESHOOT_ODOO];
    assert Nodes([TROUBLESHOOTING]) == NodesOf(TROUBLESHOOTING);
    assert Nodes([INSTALLATION, TROUBLESHOOTING]) == NodesOf(INSTALLATION) + NodesOf(TROUBLESHOOTING);
  }

  /** The shipped tree has seven nodes with pairwise distinct ids. */
  lemma NavigationIds()
    ensures Ids(Nodes(NAVIGATION)) == ["overview", "installation", "install-pg", "install-odoo",
                                     "troubleshooting", "troubleshoot-pg", "troubleshoot-odoo"]
  {
    NavigationNodes();
  }

  /** Five of the shipped nodes are selectable leaves. */
  lemma NavigationLeaves()
    ensures LeafIds(NAVIGATION) == ["overview", "install-pg", "install-odoo", "troubleshoot-pg", "troubleshoot-odoo"]
  {
    NavigationNodes();
    var all := Nodes(NAVIGATION);
    assert LeavesOf(all[6..]) == ["troubleshoot-odoo"];
    assert LeavesOf(all[5..]) == ["troubleshoot-pg", "troubleshoot-odoo"];
    assert LeavesOf(all[4..]) == LeavesOf(all[5..]);
    assert LeavesOf(all[3..]) == ["install-odoo"] + LeavesOf(all[4..]);
    assert LeavesOf(all[2..]) == ["install-pg"] + LeavesOf(all[3..]);
    assert LeavesOf(all[1..]) == LeavesOf(all[2..]);
  }

  /** Folding "installation" in the shipped tree hides its two guides and
      nothing else. */
  lemma InstallationFolded(activeTab: string)
    ensures RowIds(Rows(NAVIGATION, 0, activeTab, map["installation" := false]))
         == ["overview", "installation", "troubleshooting", "troubleshoot-pg", "troubleshoot-odoo"]
  {
    var m := map["installation" := false];
    assert IsExpanded(m, "troubleshooting");
    assert !IsExpanded(m, "installation");
    var o := ItemRows(OVERVIEW, 0, activeTab, m);
    var i := ItemRows(INSTALLATION, 0, activeTab, m);
    var t := ItemRows(TROUBLESHOOTING, 0, activeTab, m);
    var tp := ItemRows(TROUBLESHOOT_PG, 1, activeTab, m);
    var to := ItemRows(TROUBLESHOOT_ODOO, 1, activeTab, m);
    assert |o| == 1 && |i| == 1 && |tp| == 1 && |to| == 1;
    assert Rows([TROUBLESHOOT_ODOO], 1, activeTab, m) == to;
    assert HasChildren(TROUBLESHOOTING);
    assert Rows([TROUBLESHOOT_PG, TROUBLESHOOT_ODOO], 1, activeTab, m) == tp + to;
    assert t == [t[0]] + (tp + to);
    assert Rows([TROUBLESHOOTING], 0, activeTab, m) == t;
    assert Rows([INSTALLATION, TROUBLESHOOTING], 0, activeTab, m) == i + t;
    assert Rows(NAVIGATION, 0, activeTab, m) == o + i + [t[0]] + tp + to;
  }
}

# Hello Guide: search, content resolution and view state

Hello Guide is a single-page guide to installing PostgreSQL 18 and Odoo 19 on
Windows. All of its behaviour lives in `src/App.tsx`. This project models the
parts of that file that decide something, and proves properties about them:

- **The troubleshooting catalog** (`catalog.dfy`, module `Catalog`). It has
  seven entries: three for PostgreSQL, then four for Odoo. Each entry keeps
  its id, title, full error text, optional tags and product. The
  remediation payload (steps, commands, media, notes) is never searched or
  branched on, so it is not modelled.
- **The string primitives** the search uses (`text.dfy`, module `Text`):
  `trim`, `toLowerCase`, `includes`, and `split("\n")[0]`.
- **The search filter `filteredErrors`** (`search.dfy`, module `Search`).
  - A query that is blank after trimming gives `None` (the source's `null`,
    "no filter").
  - Any other query keeps, in catalog order, every entry whose lower-cased
    title, error text or some tag includes the lower-cased query.
  - The query is lower-cased but not trimmed before matching.
- **The sidebar** (`navigation.dfy`, module `Navigation`).
  - It is a two-level tree of sections.
  - A group node folds or unfolds. It starts unfolded.
  - Each button's left padding is `12 + 16 * level` pixels.
  - Children are rendered one level deeper, and only while their group is
    unfolded.
- **Content resolution `getCurrentContent`** (`content.dfy`, module
  `Content`).
  - An active search shows its results, whatever tab is selected.
  - Otherwise the selected tab picks one of five panels.
  - Any other id gives the empty view.
- **The `HelloGuide` component's state** (`guide.dfy`, class
  `Guide.HelloGuide`).
  - The state is the active tab, the sidebar's open flag, dark mode, the
    search text, and the per-node and per-card expansion flags.
  - Each event handler is a method that changes its fields in place and
    states everything else it leaves alone.

`optional.dfy` holds the `Option` datatype that stands for `null` and for an
absent `tags` field.

## Model

| member | source | states |
|---|---|---|
| `Text.IsBlank` | src/App.tsx:668 | `!searchQuery.trim()` holds exactly when every character of the query is ECMAScript whitespace or a line terminator; the empty string is blank |
| `Text.TrimStart` | src/App.tsx:668 | the result is a suffix of the input, everything dropped is whitespace, and the result does not start with whitespace |
| `Text.TrimEnd` | src/App.tsx:668 | the result is a prefix of the input, everything dropped is whitespace, and the result does not end with whitespace |
| `Text.Lower` | src/App.tsx:669 | a capital letter (A-Z, À-Þ except ×) maps to its small letter; any other character is unchanged; whitespace stays whitespace |
| `Text.ToLower` | src/App.tsx:669 | lower-casing keeps the length and lower-cases each character in place |
| `Text.LowerIdempotent` | src/App.tsx:669 | lower-casing one character twice equals lower-casing it once |
| `Text.ToLowerIdempotent` | src/App.tsx:669 | lower-casing a string twice equals lower-casing it once |
| `Text.ToLowerKeepsWhitespace` | src/App.tsx:668-669 | lower-casing neither creates nor removes whitespace at any position |
| `Text.BlankIffLowerBlank` | src/App.tsx:668-669 | a query is blank exactly when its lower-cased form is blank |
| `Text.IncludesIffOccurs` | src/App.tsx:672-674 | `includes` holds exactly when the needle occurs at some offset of the haystack |
| `Text.FirstLine` | src/App.tsx:476 | the card summary is a prefix of the error text with no line feed in it, and it stops only at a line feed or at the end of the text |
| `Text.FirstLineOfJoined` | src/App.tsx:476 | for lines joined by a line feed, the summary is exactly the first line |
| `Catalog.CatalogByProduct` | src/App.tsx:66-223 | the PostgreSQL list holds only PostgreSQL entries (three) and the Odoo list only Odoo entries (four); the catalog is the two lists back to back |
| `Catalog.CatalogIdsDistinct` | src/App.tsx:69-199 | the seven catalog ids are pairwise distinct |
| `Catalog.AllErrors` | src/App.tsx:663-665 | `allErrors` built from the shipped `troubleshootingData` is the shipped catalog, PostgreSQL entries first |
| `Search.AnyTag` | src/App.tsx:674 | `tags.some(...)` holds exactly when some tag, lower-cased, includes the query |
| `Search.UntaggedMatchesTitleOrError` | src/App.tsx:38 | an entry without tags matches only through its title or its error text |
| `Search.KeepIf` | src/App.tsx:670 | `filter` keeps exactly the accepted elements of its input and never returns more than it was given |
| `Search.KeepIfIsOrderedSelection` | src/App.tsx:670 | the filter result is the input's accepted elements at strictly increasing positions: a subsequence in input order, with nothing taken twice |
| `Search.KeepIfAppend` | src/App.tsx:664-670 | filtering two lists joined end to end gives the first list's hits followed by the second list's hits |
| `Search.KeepIfKeepsIdsDistinct` | src/App.tsx:670 | filtering a list with distinct ids gives a list with distinct ids |
| `Search.FilterErrors` | src/App.tsx:667-676 | the result is `None` ("no filter") exactly when the query is empty or whitespace only |
| `Search.MatcherAccepts` | src/App.tsx:671-675 | the filter's callback accepts an entry exactly when its lower-cased title, error text or one of its tags includes the query |
| `Search.FilterErrorsExact` | src/App.tsx:667-676 | a non-blank query returns exactly the catalog entries whose lower-cased title, error text or some tag includes the lower-cased query, as an ordered selection of the catalog |
| `Search.CaseInsensitive` | src/App.tsx:668-669 | a query and its lower-cased form give the same result, "no filter" included |
| `Search.ProductOrderKept` | src/App.tsx:664 | filtering PostgreSQL entries followed by Odoo entries puts every PostgreSQL hit before every Odoo hit |
| `Search.FilteredErrorsOrdered` | src/App.tsx:663-676 | over the shipped catalog, no entry is returned twice and no Odoo hit comes before a PostgreSQL hit |
| `Search.LowerPort` | src/App.tsx:669 | "port", "Port" and "PORT" lower-case to "port"; " port" keeps its leading space |
| `Search.PortNotBlank` | src/App.tsx:668 | "port", "PORT" and " port" are not blank, so each one runs the filter |
| `Search.PortTitledMatches` | src/App.tsx:669-673 | "port" matches an entry titled "Port", and " port" does not |
| `Search.PaddedQueryNotTrimmed` | src/App.tsx:668-669 | the matching query is not trimmed: an entry titled "Port" is found by "port" and "PORT" but not by " port", and that empty list is not "no filter" |
| `Search.TaggedEntryFound` | src/App.tsx:674 | an entry tagged with a lower-case, non-blank query is always among that query's results |
| `Search.PortTaggedEntries` | src/App.tsx:91-202 | `pg-connection-refused` and `odoo-psycopg2-connection` are both in the catalog and both tagged "port" |
| `Search.PortFindsTagged` | src/App.tsx:669-674 | over the shipped catalog, "port" returns every entry tagged "port" |
| `Search.PortQuery` | src/App.tsx:663-676 | over the shipped catalog, "PORT" and "port" give the same result, and it lists `pg-connection-refused` before `odoo-psycopg2-connection` |
| `Navigation.Nodes` | src/App.tsx:298-335 | the flattened tree holds every top-level node and has at least as many nodes as the forest has roots |
| `Navigation.NodesOf` | src/App.tsx:298-335 | a node's flattening starts with the node itself |
| `Navigation.LeavesOfExact` | src/App.tsx:613 | the leaf ids are exactly the ids of nodes whose child list is absent or empty |
| `Navigation.NavigationNodes` | src/App.tsx:298-335 | the shipped tree flattens to overview, installation, its two guides, troubleshooting and its two lists, in that order |
| `Navigation.NavigationIds` | src/App.tsx:298-335 | the seven node ids of the shipped tree, in display order, are pairwise distinct |
| `Navigation.NavigationLeaves` | src/App.tsx:298-335 | the shipped tree has exactly five selectable leaves: overview, install-pg, install-odoo, troubleshoot-pg, troubleshoot-odoo |
| `Navigation.Indent` | src/App.tsx:633 | the left padding is 12 pixels at the top level and grows by 16 with each level |
| `Navigation.Rows` | src/App.tsx:640-652 | a forest renders at least one button per root |
| `Navigation.ItemRows` | src/App.tsx:618-652 | a node's buttons start with its own button, at the node's level |
| `Navigation.RowsWellLaidOut` | src/App.tsx:611-652 | every rendered button sits at or below the starting level, is indented for its own level, is highlighted exactly when it is the active tab, and is at most one level deeper than the button before it |
| `Navigation.ItemRowsWellLaidOut` | src/App.tsx:611-652 | the same layout rules hold for the buttons of a single node |
| `Navigation.GroupRows` | src/App.tsx:613-652 | an unfolded group shows a down chevron and is followed by its first child one level deeper; a folded group shows a right chevron and nothing below it; a leaf shows no chevron and renders alone |
| `Navigation.FullyExpandedShowsAll` | src/App.tsx:612-652 | with no group folded, the sidebar shows every node of the tree in the tree's order |
| `Navigation.FullyExpandedItemShowsAll` | src/App.tsx:612-652 | the same holds for the buttons of a single node |
| `Navigation.RowsShowOnlyNodes` | src/App.tsx:640-652 | folding only hides: every button belongs to a node of the tree, and there are never more buttons than nodes |
| `Navigation.ItemRowsShowOnlyNodes` | src/App.tsx:640-652 | the same holds for the buttons of a single node |
| `Navigation.InstallationFolded` | src/App.tsx:640-652 | folding "installation" in the shipped tree hides its two guides and nothing else |
| `Content.TabPanel` | src/App.tsx:721-862 | a troubleshooting panel lists its own product's catalog section, and a tab never yields search results |
| `Content.CurrentContent` | src/App.tsx:686-719 | the view is the search results exactly when the query is not blank, and they carry the untrimmed query |
| `Content.ResultNoun` | src/App.tsx:695-696 | the count label is exactly "résultats" when the count is greater than one, and exactly "résultat" for zero or one |
| `Content.CardsShown` | src/App.tsx:700-856 | the error cards on screen are the search results while the query is not blank; otherwise the PostgreSQL section on "troubleshoot-pg", the Odoo section on "troubleshoot-odoo", and none on any other tab; every card is an entry of `allErrors` |
| `Content.CardKeysDistinct` | src/App.tsx:702-856 | whenever the catalog's ids are distinct, no screen renders two cards with the same `key` |
| `Content.ShippedCardKeysDistinct` | src/App.tsx:702-856 | in the shipped guide, no screen, whatever the tab and the query, renders two cards with the same `key` |
| `Content.SearchWins` | src/App.tsx:687-719 | while the query is not blank, the view is the same whatever tab is selected, and it shows the filter's result |
| `Content.BlankQueryShowsTab` | src/App.tsx:687-721 | with a blank query, the selected tab alone decides the view, exactly as if the query were empty |
| `Content.PanelsAreLeaves` | src/App.tsx:721-862 | a tab id gives a non-empty view exactly when it is a leaf of the sidebar; any other id, a group's included, gives the empty view |
| `Content.PanelsDistinct` | src/App.tsx:721-860 | two ids that give the same non-empty panel are the same id |
| `Content.ShippedPanels` | src/App.tsx:722-862 | "overview", "install-pg", "install-odoo", "troubleshoot-pg" and "troubleshoot-odoo" give their five panels, and the group id "installation" gives the empty view |
| `Content.ProductSection` | src/App.tsx:811-860 | when each product list holds only its own product's entries, a troubleshooting panel lists exactly that product's entries of `allErrors`, in order |
| `Content.SplitByProduct` | src/App.tsx:664 | filtering PostgreSQL entries followed by Odoo entries by product gives back the product's own list |
| `Content.ShippedSections` | src/App.tsx:825-850 | in the shipped guide, each troubleshooting panel lists exactly its product's entries of `allErrors` |
| `Guide.LeafHasPanel` | src/App.tsx:622-626 | every leaf of the sidebar opens a non-empty panel |
| `Guide.HelloGuide.View` | src/App.tsx:686-862 | the guide shows search results exactly when its query is not blank; otherwise it shows the active tab's panel |
| `Guide.HelloGuide.Sidebar` | src/App.tsx:929-940 | every sidebar button is a node of the tree, indented for its level and highlighted exactly when it is the active tab; there are never more buttons than nodes, and with no group folded every node shows in tree order |
| `Guide.HelloGuide.constructor` | src/App.tsx:658-661 | the guide starts on "overview" with the sidebar closed, light mode, an empty search, every group unfolded and every card folded, and it shows the overview |
| `Guide.HelloGuide.SetSearchQuery` | src/App.tsx:900 | typing replaces the search text and changes nothing else |
| `Guide.HelloGuide.SelectTab` | src/App.tsx:934-938 | selecting an id makes it the active tab, closes the sidebar and clears the search, so the id's panel shows; dark mode and all expansion flags are untouched |
| `Guide.HelloGuide.ClickNavItem` | src/App.tsx:612-652 | clicking a group flips only that group's expansion flag (default unfolded) and never changes the tab; the group then renders folded (a right chevron, nothing below it) if it was unfolded, and unfolded (a down chevron, its first child next) if it was folded; clicking a leaf selects it and shows its non-empty panel |
| `Guide.HelloGuide.ToggleSidebar` | src/App.tsx:873 | the menu button negates the sidebar's open flag and changes nothing else |
| `Guide.HelloGuide.CloseSidebar` | src/App.tsx:947 | an overlay click always leaves the sidebar closed and changes nothing else |
| `Guide.HelloGuide.ToggleDarkMode` | src/App.tsx:905 | the theme button negates dark mode and changes nothing else |
| `Guide.HelloGuide.ToggleCard` | src/App.tsx:458-463 | a click on a card header negates that card's expansion flag (default folded) and changes nothing else |
| `Guide.ToggleTwice` | src/App.tsx:873-905 | starting from a fresh guide, two clicks on the theme button, the menu button, a group or a card header leave each flag as it started |

## Left out

- `Search.PortQuery`: does not prove the exact result the source gives
  for "port" over the shipped catalog, which is
  `[pg-connection-refused, odoo-psycopg2-connection]` and nothing else.
  That would need the verifier to evaluate `includes` over the other five
  entries' long error texts, which it cannot do. The lemma proves that both
  entries are returned, in that order, and that "PORT" gives the same list.
- `Text.Lower` covers only the capitals of the Basic Latin and Latin-1
  blocks, because those are the only ones the guide's texts contain. It
  does not model the rest of Unicode's case mapping, nor locale-dependent
  or length-changing mappings.
- `Guide.HelloGuide.ToggleCard` keeps each card's flag per entry id for the
  life of the guide. React instead drops a card's state when the card
  leaves the screen (another tab, another search), and the card comes back
  folded. The model does not capture that reset.
- `Guide.HelloGuide.SelectTab` leaves every card flag as it was. In the
  source, a tab change unmounts the cards that leave the screen, so they
  come back folded (the reset described for `ToggleCard`).
- `Guide.HelloGuide.SetSearchQuery` leaves every card flag as it was. In
  the source, a query that changes which cards are on screen folds the
  cards it removes, for the same reason.
- `Guide.HelloGuide.ClickNavItem` keeps each group's flag per node id. The
  source keeps it in a `SidebarItem` component instance, which is the same
  thing here because the sidebar is always mounted and node ids are distinct.
  A leaf click leaves every card flag as it was, whereas in the source the
  cards that leave the screen come back folded (see `ToggleCard`).
- `Guide.HelloGuide.SetSearchQuery` takes the new text as a parameter. The
  keyboard event it comes from is not modelled.
- The solution payload of each entry (steps, commands, images, videos,
  notes) and the install guides' steps are not modelled. They are only
  rendered.
- The `CodeBlock` clipboard write and its 2-second timer are not modelled,
  because they are an external side effect and a clock.
- The effect that writes the `dark` class on the document element is not
  modelled, because it is DOM output. Only the `darkMode` flag is modelled.
- Markup, styling classes, icons, `MediaViewer` and `InstallGuide`
  rendering, `src/pages/dashboard.tsx` and `tailwind.config.js` are not
  part of this model. They hold no behaviour beyond presentation.

/** The guide's search filter (`filteredErrors`): a blank query means "no
    filter"; any other query keeps, in catalog order, the entries whose
    lower-cased title, error text or some tag includes the lower-cased
    query. The query is lower-cased but not trimmed. */
module Search {
  import opened Optional
  import opened Text
  import opened Catalog

  /** Some tag of the list includes `query` once lower-cased
      (`tags.some(tag => tag.toLowerCase().includes(query))`). */
  function AnyTag(tags: seq<string>, query: string): (b: bool)
    ensures b <==> exists i :: 0 <= i < |tags| && Includes(ToLower(tags[i]), query)
  {
    if tags == [] then false
    else Includes(ToLower(tags[0]), query) || AnyTag(tags[1..], query)
  }

  /** `tags?.some(...)`: an entry without tags matches through none. */
  function TagsMatch(tags: Option<seq<string>>, query: string): bool
  {
    match tags
    case None => false
    case Some(ts) => AnyTag(ts, query)
  }

  /** The filter's predicate, for a query the caller has lower-cased. */
  predicate Matches(e: Entry, query: string)
  {
    || Includes(ToLower(e.title), query)
    || Includes(ToLower(e.error), query)
    || TagsMatch(e.tags, query)
  }

  /** An entry without tags can match only through its title or its error
      text. */
  lemma UntaggedMatchesTitleOrError(e: Entry, query: string)
    requires e.tags.None?
    ensures Matches(e, query) <==> Includes(ToLower(e.title), query) || Includes(ToLower(e.error), query)
  {
  }

  /** `Array.prototype.filter`: keeps, in order, the elements `keep`
      accepts; it keeps exactly those, and never more than there were. */
  function KeepIf<T(!new)>(xs: seq<T>, keep: T -> bool): (r: seq<T>)
    ensures |r| <= |xs|
    ensures forall x :: x in r <==> x in xs && keep(x)
  {
    if xs == [] then []
    else if keep(xs[0]) then [xs[0]] + KeepIf(xs[1..], keep)
    else KeepIf(xs[1..], keep)
  }

  ghost predicate StrictlyIncreasing(ix: seq<nat>)
  {
    forall k, l :: 0 <= k < l < |ix| ==> ix[k] < ix[l]
  }

  /** `r` is the ordered selection of `xs` at positions `ix`: the positions
      increase strictly (input order, nothing twice), and a position is
      among them exactly when `keep` accepts its element. */
  ghost predicate Selects<T(!new)>(ix: seq<nat>, xs: seq<T>, r: seq<T>, keep: T -> bool)
  {
    && |ix| == |r|
    && StrictlyIncreasing(ix)
    && (forall k :: 0 <= k < |ix| ==> ix[k] < |xs| && r[k] == xs[ix[k]])
    && (forall i :: 0 <= i < |xs| ==> (i in ix <==> keep(xs[i])))
  }

  /** Every position moved one place on. */
  function Shift(ix: seq<nat>): (r: seq<nat>)
    ensures |r| == |ix|
    ensures forall k :: 0 <= k < |ix| ==> r[k] == ix[k] + 1
  {
    seq(|ix|, k requires 0 <= k < |ix| => ix[k] + 1)
  }

  /** A position is in the shifted list exactly when the one before it is
      in the original. */
  lemma ShiftMembers(ix: seq<nat>, i: nat)
    ensures i in Shift(ix) <==> i > 0 && i - 1 in ix
  {
    var s := Shift(ix);
    if i in s {
      var k :| 0 <= k < |s| && s[k] == i;
      assert ix[k] == i - 1;
    }
    if i > 0 && i - 1 in ix {
      var k :| 0 <= k < |ix| && ix[k] == i - 1;
      assert s[k] == i;
    }
  }

  /** A selection of `xs` stays a selection when one element is put in
      front: shifted by one, with position 0 added when it is accepted. */
  lemma ShiftSelects<T(!new)>(ix: seq<nat>, x: T, xs: seq<T>, r: seq<T>, keep: T -> bool)
    requires Selects(ix, xs, r, keep)
    ensures !keep(x) ==> Selects(Shift(ix), [x] + xs, r, keep)
    ensures keep(x) ==> Selects([0] + Shift(ix), [x] + xs, [x] + r, keep)
  {
    var s := Shift(ix);
    var xs' := [x] + xs;
    forall i | 0 <= i < |xs'| ensures i in s <==> i > 0 && i - 1 in ix {
      ShiftMembers(ix, i);
    }
    assert forall i :: 1 <= i < |xs'| ==> xs'[i] == xs[i - 1];
    if keep(x) {
      var ix' := [0] + s;
      assert forall i :: i in ix' <==> i == 0 || i in s;
    }
  }

  /** The result of a filter is the ordered selection of the accepted
      elements: it is a subsequence of the input, in input order, with
      nothing repeated, holding every accepted element and no other. */
  lemma {:induction false} KeepIfIsOrderedSelection<T(!new)>(xs: seq<T>, keep: T -> bool) returns (ix: seq<nat>)
    ensures Selects(ix, xs, KeepIf(xs, keep), keep)
  {
    if xs == [] {
      return [];
    }
    var rest := KeepIfIsOrderedSelection(xs[1..], keep);
    ShiftSelects(rest, xs[0], xs[1..], KeepIf(xs[1..], keep), keep);
    assert [xs[0]] + xs[1..] == xs;
    ix := if keep(xs[0]) then [0] + Shift(rest) else Shift(rest);
  }

  /** Filtering a concatenation filters each part: everything accepted in
      the first part comes before everything accepted in the second. */
  lemma {:induction false} KeepIfAppend<T(!new)>(a: seq<T>, b: seq<T>, keep: T -> bool)
    ensures KeepIf(a + b, keep) == KeepIf(a, keep) + KeepIf(b, keep)
  {
    if a != [] {
      assert (a + b)[1..] == a[1..] + b;
      KeepIfAppend(a[1..], b, keep);
    } else {
      assert a + b == b;
    }
  }

  /** A filter never duplicates an entry: distinct ids stay distinct. */
  lemma KeepIfKeepsIdsDistinct(es: seq<Entry>, keep: Entry -> bool)
    requires DistinctIds(es)
    ensures DistinctIds(KeepIf(es, keep))
  {
    var ix := KeepIfIsOrderedSelection(es, keep);
    var r := KeepIf(es, keep);
    forall i, j | 0 <= i < j < |r| ensures r[i].id != r[j].id {
      assert ix[i] < ix[j];
    }
  }

  /** The callback the guide passes to `filter` for a lower-cased query. */
  function Matcher(query: string): Entry -> bool
  {
    e => Matches(e, query)
  }

  /** `filteredErrors` over a list `all`: `None` (the source's `null`, "no
      filter") for a blank query; otherwise `all` filtered by the
      lower-cased, untrimmed query. */
  function FilterErrors(all: seq<Entry>, searchQuery: string): (r: Option<seq<Entry>>)
    ensures r.None? <==> forall i :: 0 <= i < |searchQuery| ==> IsWhitespace(searchQuery[i])
  {
    if IsBlank(searchQuery) then None
    else Some(KeepIf(all, Matcher(ToLower(searchQuery))))
  }

  /** `filteredErrors` as the guide computes it, over `allErrors`. */
  function FilteredErrors(searchQuery: string): Option<seq<Entry>>
  {
    FilterErrors(ALL_ERRORS, searchQuery)
  }

  /** The callback accepts an entry exactly when its lower-cased title,
      error text or one of its tags includes the query. */
  lemma MatcherAccepts(e: Entry, query: string)
    ensures Matcher(query)(e) <==>
      || Includes(ToLower(e.title), query)
      || Includes(ToLower(e.error), query)
      || (e.tags.Some? && exists t :: t in e.tags.value && Includes(ToLower(t), query))
  {
    if e.tags.Some? {
      var ts := e.tags.value;
      if TagsMatch(e.tags, query) {
        var i :| 0 <= i < |ts| && Includes(ToLower(ts[i]), query);
        assert ts[i] in ts;
      }
      if exists t :: t in ts && Includes(ToLower(t), query) {
        var t :| t in ts && Includes(ToLower(t), query);
        var i :| 0 <= i < |ts| && ts[i] == t;
      }
    }
  }

  /** For a non-blank query the result holds exactly the entries of `all`
      whose lower-cased title, error text or some tag includes the
      lower-cased query, and holds them as an ordered selection of `all`
      (input order, nothing twice). */
  lemma FilterErrorsExact(all: seq<Entry>, searchQuery: string) returns (ix: seq<nat>)
    requires !IsBlank(searchQuery)
    ensures FilterErrors(all, searchQuery).Some?
    ensures Selects(ix, all, FilterErrors(all, searchQuery).value, Matcher(ToLower(searchQuery)))
    ensures forall e :: e in FilterErrors(all, searchQuery).value <==>
      && e in all
      && (|| Includes(ToLower(e.title), ToLower(searchQuery))
          || Includes(ToLower(e.error), ToLower(searchQuery))
          || (e.tags.Some? && exists t :: t in e.tags.value && Includes(ToLower(t), ToLower(searchQuery))))
  {
    var q := ToLower(searchQuery);
    forall e | e in all {
      MatcherAccepts(e, q);
    }
    ix := KeepIfIsOrderedSelection(all, Matcher(q));
  }

  /** Matching ignores case: a query and its lower-cased form give the same
      answer, "no filter" included. */
  lemma {:induction false} CaseInsensitive(all: seq<Entry>, searchQuery: string)
    ensures FilterErrors(all, ToLower(searchQuery)) == FilterErrors(all, searchQuery)
  {
    BlankIffLowerBlank(searchQuery);
    ToLowerIdempotent(searchQuery);
  }

  /** Filtering a list of PostgreSQL entries followed by a list of Odoo
      entries puts every PostgreSQL hit before every Odoo hit. */
  lemma ProductOrderKept(pg: seq<Entry>, odoo: seq<Entry>, keep: Entry -> bool)
    requires AllOf(pg, PostgreSQL) && AllOf(odoo, Odoo)
    ensures forall i, j :: 0 <= i < j < |KeepIf(pg + odoo, keep)| ==>
              KeepIf(pg + odoo, keep)[i].category == Odoo ==> KeepIf(pg + odoo, keep)[j].category == Odoo
  {
    KeepIfAppend(pg, odoo, keep);
    var kp, ko := KeepIf(pg, keep), KeepIf(odoo, keep);
    var r := kp + ko;
    forall i, j | 0 <= i < j < |r| && r[i].category == Odoo ensures r[j].category == Odoo {
      if |kp| <= j {
        assert r[j] == ko[j - |kp|];
        assert r[j] in ko;
      }
    }
  }

  /** Over the shipped catalog: no entry is returned twice, and all
      PostgreSQL hits come before all Odoo hits. */
  lemma FilteredErrorsOrdered(searchQuery: string)
    requires !IsBlank(searchQuery)
    ensures DistinctIds(FilteredErrors(searchQuery).value)
    ensures forall i, j :: 0 <= i < j < |FilteredErrors(searchQuery).value| ==>
              FilteredErrors(searchQuery).value[i].category == Odoo ==> FilteredErrors(searchQuery).value[j].category == Odoo
  {
    var keep := Matcher(ToLower(searchQuery));
    CatalogIdsDistinct();
    KeepIfKeepsIdsDistinct(ALL_ERRORS, keep);
    CatalogByProduct();
    ProductOrderKept(PG_ENTRIES, ODOO_ENTRIES, keep);
  }

  /** `includes` never finds a needle longer than the haystack. */
  lemma {:induction false} IncludesNoLonger(s: string, p: string)
    requires Includes(s, p)
    ensures |p| <= |s|
  {
    if !(p <= s) {
      IncludesNoLonger(s[1..], p);
    }
  }

  /** "port", "Port" and "PORT" all lower-case to "port"; " port" keeps its
      space. */
  lemma LowerPort()
    ensures ToLower("port") == ToLower("Port") == ToLower("PORT") == "port"
    ensures ToLower(" port") == " port"
  {
    var a, b, c := ToLower("port"), ToLower("Port"), ToLower("PORT");
    assert a[0] == b[0] == c[0] == 'p' && a[1] == b[1] == c[1] == 'o';
    assert a[2] == b[2] == c[2] == 'r' && a[3] == b[3] == c[3] == 't';
    var d := ToLower(" port");
    assert d[0] == ' ' && d[1] == 'p' && d[2] == 'o' && d[3] == 'r' && d[4] == 't';
  }

  /** None of the three queries is blank. */
  lemma PortNotBlank()
    ensures !IsBlank("port") && !IsBlank("PORT") && !IsBlank(" port")
  {
    assert !IsWhitespace("port"[0]) && !IsWhitespace("PORT"[0]) && !IsWhitespace(" port"[1]);
  }

  /** A one-entry list filters to itself or to nothing. */
  lemma KeepIfSingle(e: Entry, keep: Entry -> bool)
    ensures KeepIf([e], keep) == if keep(e) then [e] else []
  {
    assert [e][1..] == [];
  }

  /** An entry titled "Port", with an empty error text and no tags. */
  const PORT_TITLED := Entry("e", "Port", "", None, PostgreSQL)

  /** "port" matches that entry through its title; " port" matches it
      through nothing. */
  lemma PortTitledMatches()
    ensures Matcher("port")(PORT_TITLED) && !Matcher(" port")(PORT_TITLED)
  {
    LowerPort();
    assert Includes(ToLower(PORT_TITLED.title), "port");
    if Includes(ToLower(PORT_TITLED.title), " port") {
      IncludesNoLonger(ToLower(PORT_TITLED.title), " port");
    }
    if Includes(ToLower(PORT_TITLED.error), " port") {
      IncludesNoLonger(ToLower(PORT_TITLED.error), " port");
    }
  }

  /** The query is lower-cased but not trimmed: an entry titled "Port" is
      found by "port" and by "PORT", but not by " port". */
  lemma PaddedQueryNotTrimmed()
    ensures FilterErrors([PORT_TITLED], "port") == Some([PORT_TITLED])
    ensures FilterErrors([PORT_TITLED], "PORT") == Some([PORT_TITLED])
    ensures FilterErrors([PORT_TITLED], " port") == Some([])
  {
    LowerPort();
    PortNotBlank();
    PortTitledMatches();
    KeepIfSingle(PORT_TITLED, Matcher("port"));
    KeepIfSingle(PORT_TITLED, Matcher(" port"));
  }

  /** An entry carrying a tag equal to a lower-case, non-blank query is
      always among that query's results. */
  lemma TaggedEntryFound(all: seq<Entry>, e: Entry, query: string)
    requires e in all && e.tags.Some? && query in e.tags.value
    requires ToLower(query) == query && !IsBlank(query)
    ensures FilterErrors(all, query).Some? && e in FilterErrors(all, query).value
  {
    var ts := e.tags.value;
    var i :| 0 <= i < |ts| && ts[i] == query;
    assert Includes(ToLower(ts[i]), query);
    assert Matcher(query)(e);
  }

  /** In a result where Odoo hits never precede PostgreSQL hits, a
      PostgreSQL entry comes before an Odoo entry. */
  lemma PostgreSQLBeforeOdoo(r: seq<Entry>, a: Entry, b: Entry)
    requires forall i, j :: 0 <= i < j < |r| ==> r[i].category == Odoo ==> r[j].category == Odoo
    requires a in r && b in r && a.category == PostgreSQL && b.category == Odoo
    ensures exists i, j :: 0 <= i < j < |r| && r[i] == a && r[j] == b
  {
    var i :| 0 <= i < |r| && r[i] == a;
    var j :| 0 <= j < |r| && r[j] == b;
    assert i != j;
  }

  /** With the shipped catalog, "port" finds every entry tagged "port". */
  lemma PortFindsTagged(e: Entry)
    requires e in ALL_ERRORS && e.tags.Some? && "port" in e.tags.value
    ensures FilteredErrors("port").Some? && e in FilteredErrors("port").value
  {
    LowerPort();
    PortNotBlank();
    TaggedEntryFound(ALL_ERRORS, e, "port");
  }

  /** Both `pg-connection-refused` and `odoo-psycopg2-connection` are tagged
      "port". */
  lemma PortTaggedEntries()
    ensures PG_CONNECTION_REFUSED in ALL_ERRORS && ODOO_PSYCOPG2_CONNECTION in ALL_ERRORS
    ensures "port" in PG_CONNECTION_REFUSED.tags.value && "port" in ODOO_PSYCOPG2_CONNECTION.tags.value
  {
    assert ALL_ERRORS[1] == PG_CONNECTION_REFUSED && ALL_ERRORS[6] == ODOO_PSYCOPG2_CONNECTION;
  }

  /** With the shipped catalog, "port" and "PORT" give the same result,
      which lists `pg-connection-refused` before `odoo-psycopg2-connection`. */
  lemma PortQuery()
    ensures FilteredErrors("PORT") == FilteredErrors("port")
    ensures FilteredErrors("port").Some?
    ensures exists i, j ::
      && 0 <= i < j < |FilteredErrors("port").value|
      && FilteredErrors("port").value[i] == PG_CONNECTION_REFUSED
      && FilteredErrors("port").value[j] == ODOO_PSYCOPG2_CONNECTION
  {
    LowerPort();
    CaseInsensitive(ALL_ERRORS, "PORT");
    PortTaggedEntries();
    PortFindsTagged(PG_CONNECTION_REFUSED);
    PortFindsTagged(ODOO_PSYCOPG2_CONNECTION);
    PortNotBlank();
    FilteredErrorsOrdered("port");
    PostgreSQLBeforeOdoo(FilteredErrors("port").value, PG_CONNECTION_REFUSED, ODOO_PSYCOPG2_CONNECTION);
  }
}

/**
 * What the translator promises: each feature's pairs appear only when the
 * feature is requested, in input order, untouched by the other features,
 * and the whole list can be read back into the request it came from.
 */
module Properties {
  import opened Wrappers
  import opened Text
  import opened Params
  import opened Query
  import opened Encoders
  import opened Decode

  /** The two pairs every request with options starts with. */
  function Head(query: SolrQuery, o: QueryOptions, defaultRows: Int32): seq<Param> {
    [("q", query.text), ("rows", IntToString(EffectiveRows(o, defaultRows) as int))]
  }

  /** No highlighting key is used by any other feature of the translator. */
  lemma HighlightKeysApart()
    ensures forall k :: k in HighlightKeySet ==>
      k !in {"q", "rows", "start", "sort", "fl", "fq"} && k !in FacetKeys
  {
  }

  lemma HighlightKeysDistinct()
    ensures forall i, j :: 0 <= i < j < |HighlightKeys| ==> HighlightKeys[i] != HighlightKeys[j]
  {
  }

  /** The translator's output split into its features, in emission order. */
  function Parts(query: SolrQuery, o: QueryOptions, d: Int32): (r: seq<seq<Param>>)
    ensures |r| == 7
  {
    [Head(query, o, d), StartParams(o.start), SortParams(o.orderBy), FieldParams(o.fields),
     FacetParams(o.facetQueries), HighlightParams(o.highlight), FilterParams(o.filterQueries)]
  }

  /** The keys each part may use; no two parts share a key. */
  function PartKeys(): (r: seq<set<string>>)
    ensures |r| == 7
  {
    [{"q", "rows"}, {"start"}, {"sort"}, {"fl"}, FacetKeys, HighlightKeySet, {"fq"}]
  }

  /** The feature a key belongs to, by its position in `Parts`. */
  function PartOf(key: string): nat {
    if key == "q" || key == "rows" then 0
    else if key == "start" then 1
    else if key == "sort" then 2
    else if key == "fl" then 3
    else if key in FacetKeys then 4
    else if key in HighlightKeySet then 5
    else if key == "fq" then 6
    else 7
  }

  /** No two parts share a key: every key of part `j` belongs to feature `j` alone. */
  lemma PartKeysOf()
    ensures forall j, k :: 0 <= j < 7 && k in PartKeys()[j] ==> PartOf(k) == j
  {
    HighlightKeysApart();
  }

  lemma PartsKeyed(query: SolrQuery, o: QueryOptions, d: Int32)
    ensures forall j :: 0 <= j < 7 ==> KeysIn(Parts(query, o, d)[j], PartKeys()[j])
  {
  }

  lemma TranslateParts(query: SolrQuery, o: QueryOptions, d: Int32)
    ensures Translate(query, Some(o), d) == Flatten(Parts(query, o, d))
  {
    var a, b, c := Head(query, o, d), StartParams(o.start), SortParams(o.orderBy);
    var e, f := FieldParams(o.fields), FacetParams(o.facetQueries);
    var g, h := HighlightParams(o.highlight), FilterParams(o.filterQueries);
    Flatten7(a, b, c, e, f, g, h);
  }

  lemma Flatten7(a: seq<Param>, b: seq<Param>, c: seq<Param>, e: seq<Param>,
                 f: seq<Param>, g: seq<Param>, h: seq<Param>)
    ensures Flatten([a, b, c, e, f, g, h]) == a + b + c + e + f + g + h
  {
    FlattenCons(h, []);
    assert [h] == [h] + [];
    FlattenCons(g, [h]);
    assert [g, h] == [g] + [h];
    FlattenCons(f, [g, h]);
    assert [f, g, h] == [f] + [g, h];
    FlattenCons(e, [f, g, h]);
    assert [e, f, g, h] == [e] + [f, g, h];
    FlattenCons(c, [e, f, g, h]);
    assert [c, e, f, g, h] == [c] + [e, f, g, h];
    FlattenCons(b, [c, e, f, g, h]);
    assert [b, c, e, f, g, h] == [b] + [c, e, f, g, h];
    FlattenCons(a, [b, c, e, f, g, h]);
    assert [a, b, c, e, f, g, h] == [a] + [b, c, e, f, g, h];
  }

  /** Selecting keys of one feature from the whole list sees that feature's pairs only. */
  lemma Isolated(query: SolrQuery, o: QueryOptions, d: Int32, j: nat, keys: set<string>)
    requires j < 7 && keys <= PartKeys()[j]
    ensures Select(Translate(query, Some(o), d), keys) == Select(Parts(query, o, d)[j], keys)
  {
    var parts := Parts(query, o, d);
    TranslateParts(query, o, d);
    SelectFlatten(parts, keys);
    PartsKeyed(query, o, d);
    PartKeysOf();
    var each := SelectEach(parts, keys);
    forall m | 0 <= m < 7 && m != j
      ensures each[m] == []
    {
      forall i | 0 <= i < |parts[m]| ensures parts[m][i].0 !in keys {
        assert PartOf(parts[m][i].0) == m;
      }
      SelectNone(parts[m], keys);
    }
    FlattenOne(each, j);
  }

  /** Selecting all of one feature's keys yields exactly that feature's pairs. */
  lemma IsolatedPart(query: SolrQuery, o: QueryOptions, d: Int32, j: nat)
    requires j < 7
    ensures Select(Translate(query, Some(o), d), PartKeys()[j]) == Parts(query, o, d)[j]
  {
    Isolated(query, o, d, j, PartKeys()[j]);
    PartsKeyed(query, o, d);
    SelectAll(Parts(query, o, d)[j], PartKeys()[j]);
  }

  predicate Distinct(keys: seq<string>) {
    forall a, b :: 0 <= a < b < |keys| ==> keys[a] != keys[b]
  }

  lemma {:induction false} PresentSelect(keys: seq<string>, vals: seq<Option<string>>, i: nat)
    requires |keys| == |vals| && i < |keys| && Distinct(keys)
    ensures Select(Present(keys, vals), {keys[i]}) == Setting(keys[i], vals[i])
    decreases |keys|
  {
    var head := Setting(keys[0], vals[0]);
    var rest := Present(keys[1..], vals[1..]);
    PresentStep(keys, vals);
    SelectAppend(head, rest, {keys[i]});
    if i == 0 {
      FirstKeyOnce(keys, vals);
      SelectNone(rest, {keys[0]});
      SelectAll(head, {keys[0]});
    } else {
      assert keys[0] != keys[i];
      SelectNone(head, {keys[i]});
      assert keys[1..][i - 1] == keys[i];
      PresentSelect(keys[1..], vals[1..], i - 1);
    }
  }

  /** With distinct keys, the first key does not recur in the rest of the table. */
  lemma FirstKeyOnce(keys: seq<string>, vals: seq<Option<string>>)
    requires |keys| == |vals| && keys != [] && Distinct(keys)
    ensures KeysOutside(Present(keys[1..], vals[1..]), {keys[0]})
  {
    var rest := Present(keys[1..], vals[1..]);
    forall m | 0 <= m < |rest| ensures rest[m].0 !in {keys[0]} {
      var x := rest[m].0;
      assert x in keys[1..];
      var n :| 0 <= n < |keys[1..]| && keys[1..][n] == x;
      assert keys[n + 1] == x;
    }
  }

  /** The index of the first occurrence of `k` in `keys`. */
  function Position(keys: seq<string>, k: string): (n: nat)
    requires k in keys
    ensures n < |keys| && keys[n] == k
  {
    if keys[0] == k then 0 else 1 + Position(keys[1..], k)
  }

  /** Every key of `ps` is in `keys`, and the pairs come in the order of their keys there. */
  predicate InKeyOrder(ps: seq<Param>, keys: seq<string>) {
    (forall i :: 0 <= i < |ps| ==> ps[i].0 in keys) &&
    forall a, b :: 0 <= a < b < |ps| ==> Position(keys, ps[a].0) < Position(keys, ps[b].0)
  }

  /** With distinct keys, the table's pairs come out in the order of their keys. */
  lemma {:induction false} PresentOrdered(keys: seq<string>, vals: seq<Option<string>>)
    requires |keys| == |vals| && Distinct(keys)
    ensures InKeyOrder(Present(keys, vals), keys)
    decreases |keys|
  {
    if keys != [] {
      var head, tail := Setting(keys[0], vals[0]), keys[1..];
      var rest := Present(tail, vals[1..]);
      var r := Present(keys, vals);
      PresentStep(keys, vals);
      FirstKeyOnce(keys, vals);
      assert Distinct(tail) by {
        forall a, b | 0 <= a < b < |tail| ensures tail[a] != tail[b] {
          assert tail[a] == keys[a + 1] && tail[b] == keys[b + 1];
        }
      }
      PresentOrdered(tail, vals[1..]);
      forall m | 0 <= m < |rest| ensures Position(keys, rest[m].0) == 1 + Position(tail, rest[m].0) {
        assert rest[m].0 != keys[0];
      }
      forall a, b | 0 <= a < b < |r| ensures Position(keys, r[a].0) < Position(keys, r[b].0) {
        assert r[b] == rest[b - |head|];
        if a < |head| {
          assert r[a].0 == keys[0];
        } else {
          assert r[a] == rest[a - |head|];
        }
      }
    }
  }

  /** A key of one feature reads the same from the whole list as from that feature's pairs. */
  lemma ValueOfPart(query: SolrQuery, o: QueryOptions, d: Int32, j: nat, key: string)
    requires j < 7 && key in PartKeys()[j]
    ensures ValueOf(Translate(query, Some(o), d), key) == ValueOf(Parts(query, o, d)[j], key)
  {
    Isolated(query, o, d, j, {key});
  }

  /** Options with every feature absent send exactly `q` and the default `rows`. */
  lemma DefaultsOnly(query: SolrQuery, d: Int32)
    ensures Translate(query, Some(NoOptions), d) == [("q", query.text), ("rows", IntToString(d as int))]
  {
  }

  /** Options asking for highlighting only send `q`, `rows` and the `hl*` pairs. */
  lemma HighlightOnly(query: SolrQuery, h: Option<HighlightingParameters>, d: Int32)
    ensures Translate(query, Some(NoOptions.(highlight := h)), d) ==
      [("q", query.text), ("rows", IntToString(d as int))] + HighlightParams(h)
  {
    var o := NoOptions.(highlight := h);
    var head, hl := Head(query, o, d), HighlightParams(h);
    TranslateParts(query, o, d);
    assert Parts(query, o, d) == [head, [], [], [], [], hl, []];
    Flatten7(head, [], [], [], [], hl, []);
    AroundEmpty(head, hl);
  }

  lemma AroundEmpty(a: seq<Param>, b: seq<Param>)
    ensures a + [] + [] + [] + [] + b + [] == a + b
  {
  }

  // ----- Sorting -----

  predicate SortFieldsFree(orders: seq<SortOrder>) {
    forall i :: 0 <= i < |orders| ==> ',' !in orders[i].field
  }

  lemma SortEntryRoundTrip(s: SortOrder)
    ensures DecodeSortEntry(SortEntry(s)) == Some(s)
  {
    var e := SortEntry(s);
    match s.order
    case Asc =>
      assert e[|e| - 4..] == " asc" && e[..|e| - 4] == s.field;
    case Desc =>
      assert e[|e| - 4..] == "desc" && e[|e| - 5..] == " desc" && e[..|e| - 5] == s.field;
  }

  lemma {:induction false} SortEntriesRoundTrip(orders: seq<SortOrder>)
    ensures DecodeSortEntries(SortEntries(orders)) == Some(orders)
    decreases |orders|
  {
    if orders != [] {
      SortEntryRoundTrip(orders[0]);
      assert SortEntries(orders)[1..] == SortEntries(orders[1..]);
      SortEntriesRoundTrip(orders[1..]);
      assert orders == [orders[0]] + orders[1..];
    }
  }

  /** The `sort` value lists every sort order, in input order, and reads back to them. */
  lemma SortRoundTrip(orders: seq<SortOrder>)
    requires orders != [] && SortFieldsFree(orders)
    ensures DecodeSort(Some(Join(',', SortEntries(orders)))) == Some(orders)
  {
    var es := SortEntries(orders);
    forall i | 0 <= i < |es| ensures ',' !in es[i] {
      assert es[i] == orders[i].field + " " + OrderName(orders[i].order);
    }
    SplitJoin(',', es);
    SortEntriesRoundTrip(orders);
  }

  /** A sort order given without a direction goes on the wire as `<field> asc`. */
  lemma SortOrderWire(field: string)
    ensures SortParams([SortOrderOf(field)]) == [("sort", field + " asc")]
  {
    var es := SortEntries([SortOrderOf(field)]);
    assert SortEntry(SortOrderOf(field)) == field + " asc";
    assert es == [field + " asc"];
    assert Join(',', es) == field + " asc";
  }

  lemma SortEmitted(query: SolrQuery, o: QueryOptions, d: Int32)
    ensures o.orderBy == [] ==> Select(Translate(query, Some(o), d), {"sort"}) == []
    ensures o.orderBy != [] ==> |Select(Translate(query, Some(o), d), {"sort"})| == 1
    ensures o.orderBy != [] ==>
      ValueOf(Translate(query, Some(o), d), "sort") == Some(Join(',', SortEntries(o.orderBy)))
    ensures SortFieldsFree(o.orderBy) ==>
      DecodeSort(ValueOf(Translate(query, Some(o), d), "sort")) == Some(o.orderBy)
  {
    Isolated(query, o, d, 2, {"sort"});
    SelectAll(SortParams(o.orderBy), {"sort"});
    if o.orderBy != [] && SortFieldsFree(o.orderBy) {
      SortRoundTrip(o.orderBy);
    }
  }

  // ----- Field selection -----

  lemma ListRoundTrip(xs: seq<string>)
    requires FreeOf(',', xs)
    ensures DecodeList(if xs == [] then None else Some(Join(',', xs))) == xs
  {
    if xs != [] {
      SplitJoin(',', xs);
    }
  }

  lemma FieldsEmitted(query: SolrQuery, o: QueryOptions, d: Int32)
    ensures o.fields == [] ==> Select(Translate(query, Some(o), d), {"fl"}) == []
    ensures o.fields != [] ==> |Select(Translate(query, Some(o), d), {"fl"})| == 1
    ensures o.fields != [] ==> ValueOf(Translate(query, Some(o), d), "fl") == Some(Join(',', o.fields))
    ensures FreeOf(',', o.fields) ==>
      DecodeList(ValueOf(Translate(query, Some(o), d), "fl")) == o.fields
  {
    Isolated(query, o, d, 3, {"fl"});
    SelectAll(FieldParams(o.fields), {"fl"});
    if FreeOf(',', o.fields) {
      ListRoundTrip(o.fields);
    }
  }

  // ----- Facets -----

  lemma FacetsRoundTrip(fs: seq<FacetQuery>)
    ensures DecodeFacets(FacetEntries(fs)) == fs
  {
    forall i | 0 <= i < |fs| ensures DecodeFacets(FacetEntries(fs))[i] == fs[i] {
      match fs[i]
      case FieldFacet(_) =>
      case QueryFacet(_) =>
    }
  }

  /**
   * Facets: `facet=true` exactly once and before the entries, then one entry
   * per request in input order (repeated keys kept), nothing when none asked.
   */
  lemma FacetsEmitted(query: SolrQuery, o: QueryOptions, d: Int32)
    ensures o.facetQueries == [] ==> Select(Translate(query, Some(o), d), FacetKeys) == []
    ensures o.facetQueries != [] ==>
      Select(Translate(query, Some(o), d), {"facet"}) == [("facet", "true")] &&
      |Select(Translate(query, Some(o), d), FacetKeys)| == |o.facetQueries| + 1 &&
      Select(Translate(query, Some(o), d), FacetKeys)[0] == ("facet", "true")
    ensures var entries := Select(Translate(query, Some(o), d), FacetEntryKeys);
      |entries| == |o.facetQueries| &&
      (forall i :: 0 <= i < |entries| ==> entries[i] == FacetParam(o.facetQueries[i])) &&
      DecodeFacets(entries) == o.facetQueries
  {
    var fs := o.facetQueries;
    IsolatedPart(query, o, d, 4);
    Isolated(query, o, d, 4, {"facet"});
    Isolated(query, o, d, 4, FacetEntryKeys);
    if fs != [] {
      var flag: seq<Param> := [("facet", "true")];
      SelectAppend(flag, FacetEntries(fs), {"facet"});
      SelectNone(FacetEntries(fs), {"facet"});
      SelectAppend(flag, FacetEntries(fs), FacetEntryKeys);
      SelectAll(FacetEntries(fs), FacetEntryKeys);
    }
    FacetsRoundTrip(fs);
  }

  // ----- Highlighting -----

  lemma HighlightValueOf(query: SolrQuery, o: QueryOptions, d: Int32, i: nat)
    requires o.highlight.Some? && i < |HighlightKeys|
    ensures Select(Translate(query, Some(o), d), {HighlightKeys[i]}) ==
      Setting(HighlightKeys[i], HighlightValues(o.highlight.value)[i])
    ensures ValueOf(Translate(query, Some(o), d), HighlightKeys[i]) == HighlightValues(o.highlight.value)[i]
  {
    var k, vs := HighlightKeys[i], HighlightValues(o.highlight.value);
    assert {k} <= PartKeys()[5];
    Isolated(query, o, d, 5, {k});
    assert Parts(query, o, d)[5] == Present(HighlightKeys, vs);
    HighlightKeysDistinct();
    PresentSelect(HighlightKeys, vs, i);
    ValueOfSetting(Translate(query, Some(o), d), k, vs[i]);
  }

  lemma ValueOfSetting(ps: seq<Param>, key: string, v: Option<string>)
    requires Select(ps, {key}) == Setting(key, v)
    ensures ValueOf(ps, key) == v
  {
  }

  lemma IntSettingRoundTrip(n: Option<Int32>)
    ensures DecodeIntSetting(IntSetting(n)) == Some(n)
  {
    if n.Some? {
      IntRoundTrip(n.value as int);
    }
  }

  lemma HighlightValuesRoundTrip(h: HighlightingParameters)
    requires FreeOf(',', h.fields)
    ensures DecodeHighlightValues(HighlightValues(h)) == Some(h)
  {
    IntSettingRoundTrip(h.snippets);
    IntSettingRoundTrip(h.fragsize);
    IntSettingRoundTrip(h.regexMaxAnalyzedChars);
    if h.regexSlop.Some? {
      DecimalRoundTrip(h.regexSlop.value);
    }
    ListRoundTrip(h.fields);
  }

  /** Highlighting: nothing when not asked for. */
  lemma HighlightAbsent(query: SolrQuery, o: QueryOptions, d: Int32)
    requires o.highlight.None?
    ensures Select(Translate(query, Some(o), d), HighlightKeySet) == []
  {
    IsolatedPart(query, o, d, 5);
  }

  /**
   * Highlighting asked for: each `hl.*` key occurs at most once, and exactly
   * when its setting is set, with that setting's rendering.
   */
  lemma HighlightEmitted(query: SolrQuery, o: QueryOptions, d: Int32)
    requires o.highlight.Some?
    ensures forall i :: 0 <= i < |HighlightKeys| ==>
      Select(Translate(query, Some(o), d), {HighlightKeys[i]}) ==
        Setting(HighlightKeys[i], HighlightValues(o.highlight.value)[i])
    ensures InKeyOrder(Select(Translate(query, Some(o), d), HighlightKeySet), HighlightKeys)
  {
    HighlightOrdered(query, o, d);
    forall i | 0 <= i < |HighlightKeys|
      ensures Select(Translate(query, Some(o), d), {HighlightKeys[i]}) ==
        Setting(HighlightKeys[i], HighlightValues(o.highlight.value)[i])
    {
      HighlightValueOf(query, o, d, i);
    }
  }

  /** The `hl.*` pairs read back to the highlighting settings they came from. */
  lemma HighlightRoundTrip(query: SolrQuery, o: QueryOptions, d: Int32)
    requires o.highlight.Some? && FreeOf(',', o.highlight.value.fields)
    ensures DecodeHighlighting(Translate(query, Some(o), d)) == Some(o.highlight)
  {
    var ps := Translate(query, Some(o), d);
    var h := o.highlight.value;
    forall i | 0 <= i < |HighlightKeys|
      ensures LookupAll(ps, HighlightKeys)[i] == HighlightValues(h)[i]
    {
      HighlightValueOf(query, o, d, i);
    }
    assert LookupAll(ps, HighlightKeys) == HighlightValues(h);
    assert ValueOf(ps, "hl").Some? by { assert LookupAll(ps, HighlightKeys)[0] == ValueOf(ps, "hl"); }
    HighlightValuesRoundTrip(h);
  }

  /** Highlighting with only fields, snippet count and fragment size set sends exactly four `hl*` pairs. */
  lemma HighlightFieldsSnippetsFragsize(query: SolrQuery, o: QueryOptions, d: Int32,
                                        fields: seq<string>, snippets: Int32, fragsize: Int32)
    requires fields != []
    requires o.highlight == Some(NoHighlighting.(fields := fields, snippets := Some(snippets), fragsize := Some(fragsize)))
    ensures Select(Translate(query, Some(o), d), HighlightKeySet) ==
      [("hl", "true"), ("hl.fl", Join(',', fields)),
       ("hl.snippets", IntToString(snippets as int)), ("hl.fragsize", IntToString(fragsize as int))]
  {
    HighlightSelected(query, o, d);
    FourSettings(fields, snippets, fragsize);
  }

  /** The `hl*` pairs of a request follow the order of `HighlightKeys`. */
  lemma HighlightOrdered(query: SolrQuery, o: QueryOptions, d: Int32)
    requires o.highlight.Some?
    ensures InKeyOrder(Select(Translate(query, Some(o), d), HighlightKeySet), HighlightKeys)
  {
    HighlightSelected(query, o, d);
    assert HighlightParams(o.highlight) == Present(HighlightKeys, HighlightValues(o.highlight.value));
    HighlightKeysDistinct();
    PresentOrdered(HighlightKeys, HighlightValues(o.highlight.value));
  }

  lemma HighlightSelected(query: SolrQuery, o: QueryOptions, d: Int32)
    ensures Select(Translate(query, Some(o), d), HighlightKeySet) == HighlightParams(o.highlight)
  {
    IsolatedPart(query, o, d, 5);
  }

  lemma FourSettings(fields: seq<string>, snippets: Int32, fragsize: Int32)
    requires fields != []
    ensures HighlightParams(Some(NoHighlighting.(fields := fields, snippets := Some(snippets), fragsize := Some(fragsize)))) ==
      [("hl", "true"), ("hl.fl", Join(',', fields)),
       ("hl.snippets", IntToString(snippets as int)), ("hl.fragsize", IntToString(fragsize as int))]
  {
    var h := NoHighlighting.(fields := fields, snippets := Some(snippets), fragsize := Some(fragsize));
    var vs := HighlightValues(h);
    assert vs[0] == Some("true") && vs[1] == Some(Join(',', fields));
    assert vs[2] == Some(IntToString(snippets as int)) && vs[3] == Some(IntToString(fragsize as int));
    assert forall i :: 4 <= i < |vs| ==> vs[i].None?;
    PresentFirstFour(HighlightKeys, vs);
  }

  /** A table whose values are unset after the fourth sends exactly its first four pairs. */
  lemma PresentFirstFour(ks: seq<string>, vs: seq<Option<string>>)
    requires |ks| == |vs| >= 4 && vs[0].Some? && vs[1].Some? && vs[2].Some? && vs[3].Some?
    requires forall i :: 4 <= i < |vs| ==> vs[i].None?
    ensures Present(ks, vs) ==
      [(ks[0], vs[0].value), (ks[1], vs[1].value), (ks[2], vs[2].value), (ks[3], vs[3].value)]
  {
    var a, b, c, e := (ks[0], vs[0].value), (ks[1], vs[1].value), (ks[2], vs[2].value), (ks[3], vs[3].value);
    PresentNone(ks[4..], vs[4..]);
    assert ks[3..][1..] == ks[4..] && vs[3..][1..] == vs[4..];
    PresentStep(ks[3..], vs[3..]);
    assert Present(ks[3..], vs[3..]) == [e];
    assert ks[2..][1..] == ks[3..] && vs[2..][1..] == vs[3..];
    PresentStep(ks[2..], vs[2..]);
    assert Present(ks[2..], vs[2..]) == [c, e];
    assert ks[1..][1..] == ks[2..] && vs[1..][1..] == vs[2..];
    PresentStep(ks[1..], vs[1..]);
    assert Present(ks[1..], vs[1..]) == [b, c, e];
    PresentStep(ks, vs);
  }

  lemma PresentStep(keys: seq<string>, vals: seq<Option<string>>)
    requires |keys| == |vals| && keys != []
    ensures Present(keys, vals) == Setting(keys[0], vals[0]) + Present(keys[1..], vals[1..])
  {
  }

  lemma {:induction false} PresentNone(keys: seq<string>, vals: seq<Option<string>>)
    requires |keys| == |vals| && forall i :: 0 <= i < |vals| ==> vals[i].None?
    ensures Present(keys, vals) == []
    decreases |keys|
  {
    if keys != [] {
      PresentNone(keys[1..], vals[1..]);
    }
  }

  // ----- Filter queries -----

  /** One `fq` pair per filter query, in input order, and none when there are none. */
  lemma FiltersEmitted(query: SolrQuery, o: QueryOptions, d: Int32)
    ensures var fq := Select(Translate(query, Some(o), d), {"fq"});
      |fq| == |o.filterQueries| &&
      (forall i :: 0 <= i < |fq| ==> fq[i] == ("fq", o.filterQueries[i].text)) &&
      DecodeFilters(fq) == o.filterQueries
  {
    IsolatedPart(query, o, d, 6);
  }

  // ----- The whole request -----

  /** The options as the server sees them: the row count is always filled in. */
  function WithRows(options: Option<QueryOptions>, defaultRows: Int32): Option<QueryOptions> {
    match options
    case None => None
    case Some(o) => Some(o.(rows := Some(EffectiveRows(o, defaultRows))))
  }

  /** No name that is comma-joined on the wire contains a comma itself. */
  predicate CommaFree(o: QueryOptions) {
    SortFieldsFree(o.orderBy) && FreeOf(',', o.fields) &&
    (o.highlight.Some? ==> FreeOf(',', o.highlight.value.fields))
  }

  lemma HeadValues(query: SolrQuery, o: QueryOptions, d: Int32)
    ensures ValueOf(Translate(query, Some(o), d), "q") == Some(query.text)
    ensures ValueOf(Translate(query, Some(o), d), "rows") == Some(IntToString(EffectiveRows(o, d) as int))
    ensures ValueOf(Translate(query, Some(o), d), "start") == IntSetting(o.start)
  {
    ValueOfPart(query, o, d, 0, "q");
    ValueOfPart(query, o, d, 0, "rows");
    ValueOfPart(query, o, d, 1, "start");
    HeadPairs(query.text, IntToString(EffectiveRows(o, d) as int));
    StartValue(o.start);
  }

  lemma HeadPairs(text: string, rows: string)
    ensures ValueOf([("q", text), ("rows", rows)], "q") == Some(text)
    ensures ValueOf([("q", text), ("rows", rows)], "rows") == Some(rows)
  {
    var head := [("q", text), ("rows", rows)];
    assert head[1..] == [("rows", rows)] && head[1..][1..] == [];
    assert Select(head[1..], {"rows"}) == [("rows", rows)];
  }

  lemma StartValue(start: Option<Int32>)
    ensures ValueOf(StartParams(start), "start") == IntSetting(start)
  {
  }

  lemma HighlightFlagAbsent(query: SolrQuery, o: QueryOptions, d: Int32)
    requires o.highlight.None?
    ensures DecodeHighlighting(Translate(query, Some(o), d)) == Some(None)
  {
    ValueOfPart(query, o, d, 5, "hl");
  }

  /** Decoding needs only what each key reads back to. */
  lemma DecodeRequestOf(ps: seq<Param>, text: string, o: QueryOptions, rowsText: string, rows: Int32)
    requires ValueOf(ps, "q") == Some(text) && ValueOf(ps, "rows") == Some(rowsText)
    requires ParseInt32(rowsText) == Some(rows)
    requires DecodeIntSetting(ValueOf(ps, "start")) == Some(o.start)
    requires DecodeSort(ValueOf(ps, "sort")) == Some(o.orderBy)
    requires DecodeHighlighting(ps) == Some(o.highlight)
    requires DecodeList(ValueOf(ps, "fl")) == o.fields
    requires DecodeFacets(Select(ps, FacetEntryKeys)) == o.facetQueries
    requires DecodeFilters(Select(ps, {"fq"})) == o.filterQueries
    ensures DecodeRequest(ps) == Some(Request(SolrQuery(text), Some(o.(rows := Some(rows)))))
  {
  }

  /**
   * The translation loses nothing: reading the parameter list back gives the
   * query and the options, with only the row count filled in.
   */
  lemma RoundTrip(query: SolrQuery, options: Option<QueryOptions>, d: Int32)
    requires options.Some? ==> CommaFree(options.value)
    ensures DecodeRequest(Translate(query, options, d)) == Some(Request(query, WithRows(options, d)))
  {
    match options
    case None =>
      assert Translate(query, options, d) == [("q", query.text)];
    case Some(o) =>
      RoundTripSome(query, o, d);
  }

  lemma RoundTripSome(query: SolrQuery, o: QueryOptions, d: Int32)
    requires CommaFree(o)
    ensures DecodeRequest(Translate(query, Some(o), d)) ==
      Some(Request(query, Some(o.(rows := Some(EffectiveRows(o, d))))))
  {
    var ps := Translate(query, Some(o), d);
    var rows := EffectiveRows(o, d);
    HeadValues(query, o, d);
    IntRoundTrip(rows as int);
    assert ParseInt32(IntToString(rows as int)) == Some(rows);
    IntSettingRoundTrip(o.start);
    assert DecodeIntSetting(ValueOf(ps, "start")) == Some(o.start);
    SortEmitted(query, o, d);
    assert DecodeSort(ValueOf(ps, "sort")) == Some(o.orderBy);
    FieldsEmitted(query, o, d);
    assert DecodeList(ValueOf(ps, "fl")) == o.fields;
    FacetsEmitted(query, o, d);
    assert DecodeFacets(Select(ps, FacetEntryKeys)) == o.facetQueries;
    if o.highlight.Some? {
      HighlightRoundTrip(query, o, d);
    } else {
      HighlightFlagAbsent(query, o, d);
    }
    assert DecodeHighlighting(ps) == Some(o.highlight);
    FiltersEmitted(query, o, d);
    assert DecodeFilters(Select(ps, {"fq"})) == o.filterQueries;
    DecodeRequestOf(ps, query.text, o, IntToString(rows as int), rows);
  }
}

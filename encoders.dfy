/**
 * The translator at the heart of the query executer: one encoder per query
 * feature, each appending its own pairs, composed in a fixed order.
 */
module Encoders {
  import opened Wrappers
  import opened Text
  import opened Params
  import opened Query

  /** The request path every query is sent to. */
  const SelectPath: string := "/select"

  /** The executer's built-in row count, `SolrQueryExecuter.ConstDefaultRows`. */
  const ConstDefaultRows: Int32 := 100000000

  function OrderName(o: Order): string {
    match o
    case Asc => "asc"
    case Desc => "desc"
  }

  /** One sort entry on the wire: `<field> <asc|desc>`. */
  function SortEntry(s: SortOrder): string {
    s.field + " " + OrderName(s.order)
  }

  function SortEntries(orders: seq<SortOrder>): (r: seq<string>)
    ensures |r| == |orders| && forall i :: 0 <= i < |orders| ==> r[i] == SortEntry(orders[i])
  {
    seq(|orders|, i requires 0 <= i < |orders| => SortEntry(orders[i]))
  }

  /** Sorting: nothing, or a single `sort` pair holding every entry comma-joined. */
  function SortParams(orders: seq<SortOrder>): (r: seq<Param>)
    ensures KeysIn(r, {"sort"})
  {
    if orders == [] then [] else [("sort", Join(',', SortEntries(orders)))]
  }

  /** Field selection: nothing, or a single `fl` pair holding the names comma-joined. */
  function FieldParams(fields: seq<string>): (r: seq<Param>)
    ensures KeysIn(r, {"fl"})
  {
    if fields == [] then [] else [("fl", Join(',', fields))]
  }

  const FacetKeys: set<string> := {"facet", "facet.field", "facet.query"}
  const FacetEntryKeys: set<string> := {"facet.field", "facet.query"}

  /** The one pair a facet request contributes. */
  function FacetParam(f: FacetQuery): (p: Param)
    ensures p.0 in FacetEntryKeys
  {
    match f
    case FieldFacet(name) => ("facet.field", name)
    case QueryFacet(q) => ("facet.query", q.text)
  }

  function FacetEntries(fs: seq<FacetQuery>): (r: seq<Param>)
    ensures |r| == |fs| && forall i :: 0 <= i < |fs| ==> r[i] == FacetParam(fs[i])
  {
    seq(|fs|, i requires 0 <= i < |fs| => FacetParam(fs[i]))
  }

  /** Facets: nothing, or `facet=true` followed by one pair per request in input order. */
  function FacetParams(fs: seq<FacetQuery>): (r: seq<Param>)
    ensures KeysIn(r, FacetKeys)
  {
    if fs == [] then [] else [("facet", "true")] + FacetEntries(fs)
  }

  /** The highlighting keys, in the order they are emitted. */
  const HighlightKeys: seq<string> := [
    "hl", "hl.fl", "hl.snippets", "hl.fragsize", "hl.requireFieldMatch",
    "hl.alternateField", "hl.simple.pre", "hl.simple.post",
    "hl.regex.slop", "hl.regex.pattern", "hl.regex.maxAnalyzedChars"]

  const HighlightKeySet: set<string> := set k | k in HighlightKeys

  function IntSetting(n: Option<Int32>): Option<string> {
    match n
    case None => None
    case Some(v) => Some(IntToString(v as int))
  }

  /** The value of each highlighting key, aligned with `HighlightKeys`; `None` emits nothing. */
  function HighlightValues(h: HighlightingParameters): (vs: seq<Option<string>>)
    ensures |vs| == |HighlightKeys|
  {
    [ Some("true"),
      if h.fields == [] then None else Some(Join(',', h.fields)),
      IntSetting(h.snippets),
      IntSetting(h.fragsize),
      if h.requireFieldMatch then Some("true") else None,
      h.alternateField,
      h.beforeTerm,
      h.afterTerm,
      match h.regexSlop case None => None case Some(s) => Some(HundredthsToString(s)),
      h.regexPattern,
      IntSetting(h.regexMaxAnalyzedChars) ]
  }

  /** The pair a table entry contributes: none when the value is unset. */
  function Setting(key: string, v: Option<string>): (r: seq<Param>)
  {
    match v
    case None => []
    case Some(x) => [(key, x)]
  }

  /** One pair per key whose value is set, in key order. */
  function Present(keys: seq<string>, vals: seq<Option<string>>): (r: seq<Param>)
    requires |keys| == |vals|
    ensures forall i :: 0 <= i < |r| ==> r[i].0 in keys
    decreases |keys|
  {
    if keys == [] then [] else Setting(keys[0], vals[0]) + Present(keys[1..], vals[1..])
  }

  /** Highlighting: nothing, or `hl=true` and one `hl.*` pair per setting that is set. */
  function HighlightParams(h: Option<HighlightingParameters>): (r: seq<Param>)
    ensures KeysIn(r, HighlightKeySet)
  {
    match h
    case None => []
    case Some(p) => Present(HighlightKeys, HighlightValues(p))
  }

  /** Filter queries: one `fq` pair per filter, in input order. */
  function FilterParams(fqs: seq<SolrQuery>): (r: seq<Param>)
    ensures |r| == |fqs| && forall i :: 0 <= i < |fqs| ==> r[i] == ("fq", fqs[i].text)
    ensures KeysIn(r, {"fq"})
  {
    seq(|fqs|, i requires 0 <= i < |fqs| => ("fq", fqs[i].text))
  }

  function StartParams(start: Option<Int32>): (r: seq<Param>)
    ensures KeysIn(r, {"start"})
  {
    match start
    case None => []
    case Some(n) => [("start", IntToString(n as int))]
  }

  /** The row count sent: the options' own, else the executer's default. */
  function EffectiveRows(o: QueryOptions, defaultRows: Int32): Int32
  {
    match o.rows
    case None => defaultRows
    case Some(n) => n
  }

  /**
   * The full parameter list for a query. Without options only `q` is sent;
   * with options `q` and `rows` come first and each feature follows in a
   * fixed order.
   */
  function Translate(query: SolrQuery, options: Option<QueryOptions>, defaultRows: Int32): (ps: seq<Param>)
    ensures |ps| >= 1 && ps[0] == ("q", query.text)
    ensures options.None? <==> |ps| == 1
    ensures options.Some? && options.value.rows.None? ==> ps[1] == ("rows", IntToString(defaultRows as int))
    ensures options.Some? && options.value.rows.Some? ==>
      ps[1] == ("rows", IntToString(options.value.rows.value as int))
  {
    match options
    case None => [("q", query.text)]
    case Some(o) =>
      [("q", query.text), ("rows", IntToString(EffectiveRows(o, defaultRows) as int))]
      + StartParams(o.start)
      + SortParams(o.orderBy)
      + FieldParams(o.fields)
      + FacetParams(o.facetQueries)
      + HighlightParams(o.highlight)
      + FilterParams(o.filterQueries)
  }
}

/**
 * Reading a parameter list back into a query and its options. This is the
 * inverse the translator is checked against: what a server sees on the wire
 * determines what the caller asked for.
 */
module Decode {
  import opened Wrappers
  import opened Text
  import opened Params
  import opened Query
  import opened Encoders

  function ParseInt32(s: string): (r: Option<Int32>)
  {
    match ParseInt(s)
    case None => None
    case Some(n) => if -0x8000_0000 <= n < 0x8000_0000 then Some(n as Int32) else None
  }

  /** An absent setting decodes to `Some(None)`; a malformed one to `None`. */
  function DecodeIntSetting(v: Option<string>): Option<Option<Int32>> {
    match v
    case None => Some(None)
    case Some(s) => match ParseInt32(s) case None => None case Some(n) => Some(Some(n))
  }

  function DecodeDecimalSetting(v: Option<string>): Option<Option<int>> {
    match v
    case None => Some(None)
    case Some(s) => match ParseDecimal(s) case None => None case Some(n) => Some(Some(n))
  }

  /** Reads `<field> asc` or `<field> desc` by its trailing ` asc` or ` desc`. */
  function DecodeSortEntry(e: string): Option<SortOrder> {
    if |e| >= 4 && e[|e| - 4..] == " asc" then Some(SortOrder(e[..|e| - 4], Asc))
    else if |e| >= 5 && e[|e| - 5..] == " desc" then Some(SortOrder(e[..|e| - 5], Desc))
    else None
  }

  function DecodeSortEntries(es: seq<string>): Option<seq<SortOrder>>
    decreases |es|
  {
    if es == [] then Some([])
    else
      var first :- DecodeSortEntry(es[0]);
      var rest :- DecodeSortEntries(es[1..]);
      Some([first] + rest)
  }

  function DecodeSort(v: Option<string>): Option<seq<SortOrder>> {
    match v
    case None => Some([])
    case Some(s) => DecodeSortEntries(Split(',', s))
  }

  function DecodeList(v: Option<string>): seq<string> {
    match v
    case None => []
    case Some(s) => Split(',', s)
  }

  function DecodeFacet(p: Param): FacetQuery {
    if p.0 == "facet.field" then FieldFacet(p.1) else QueryFacet(SolrQuery(p.1))
  }

  function DecodeFacets(ps: seq<Param>): seq<FacetQuery> {
    seq(|ps|, i requires 0 <= i < |ps| => DecodeFacet(ps[i]))
  }

  function DecodeFilters(ps: seq<Param>): seq<SolrQuery> {
    seq(|ps|, i requires 0 <= i < |ps| => SolrQuery(ps[i].1))
  }

  /** The value of each key in `keys`, read from `ps`. */
  function LookupAll(ps: seq<Param>, keys: seq<string>): (vs: seq<Option<string>>)
    ensures |vs| == |keys| && forall i :: 0 <= i < |keys| ==> vs[i] == ValueOf(ps, keys[i])
  {
    seq(|keys|, i requires 0 <= i < |keys| => ValueOf(ps, keys[i]))
  }

  /** The highlighting settings given the values of the `hl.*` keys, aligned with `HighlightKeys`. */
  function DecodeHighlightValues(vs: seq<Option<string>>): Option<HighlightingParameters>
    requires |vs| == |HighlightKeys|
  {
    var snippets :- DecodeIntSetting(vs[2]);
    var fragsize :- DecodeIntSetting(vs[3]);
    var slop :- DecodeDecimalSetting(vs[8]);
    var maxChars :- DecodeIntSetting(vs[10]);
    Some(HighlightingParameters(
      DecodeList(vs[1]), snippets, fragsize, vs[4] == Some("true"),
      vs[5], vs[6], vs[7], slop, vs[9], maxChars))
  }

  /** Highlighting is requested when the `hl` key is present. */
  function DecodeHighlighting(ps: seq<Param>): Option<Option<HighlightingParameters>> {
    if ValueOf(ps, "hl").None? then Some(None)
    else
      var h :- DecodeHighlightValues(LookupAll(ps, HighlightKeys));
      Some(Some(h))
  }

  /** A request as the executer receives it. */
  datatype Request = Request(query: SolrQuery, options: Option<QueryOptions>)

  /**
   * The request a parameter list stands for. A list with no `rows` pair is a
   * request without options; every feature is read from its own keys only.
   */
  function DecodeRequest(ps: seq<Param>): Option<Request> {
    var text :- ValueOf(ps, "q");
    match ValueOf(ps, "rows")
    case None => Some(Request(SolrQuery(text), None))
    case Some(r) =>
      var rows :- ParseInt32(r);
      var start :- DecodeIntSetting(ValueOf(ps, "start"));
      var orderBy :- DecodeSort(ValueOf(ps, "sort"));
      var highlight :- DecodeHighlighting(ps);
      Some(Request(SolrQuery(text), Some(QueryOptions(
        start,
        Some(rows),
        orderBy,
        DecodeList(ValueOf(ps, "fl")),
        DecodeFacets(Select(ps, FacetEntryKeys)),
        highlight,
        DecodeFilters(Select(ps, {"fq"}))))))
  }
}

/**
 * What a caller hands to the executer: the query text and the options
 * bundle. Every option is independently absent (`None` or empty).
 */
module Query {
  import opened Wrappers

  /** The CLR `int` the options use. */
  newtype Int32 = x: int | -0x8000_0000 <= x < 0x8000_0000

  /** A query expression; only its textual form reaches the wire. */
  datatype SolrQuery = SolrQuery(text: string)

  /** `SolrQuery.All`, the match-everything query. */
  const All: SolrQuery := SolrQuery("*:*")

  datatype Order = Asc | Desc

  datatype SortOrder = SortOrder(field: string, order: Order)

  /** `new SortOrder(field)`: a sort order given without a direction is ascending. */
  function SortOrderOf(field: string): SortOrder
  {
    SortOrder(field, Asc)
  }

  /** A facet request: on a field's values, or on the hits of a sub-query. */
  datatype FacetQuery = FieldFacet(field: string) | QueryFacet(query: SolrQuery)

  /**
   * Highlighting settings. `regexSlop` is a decimal held in hundredths
   * (4.12 is 412); `requireFieldMatch` is a plain flag.
   */
  datatype HighlightingParameters = HighlightingParameters(
    fields: seq<string>,
    snippets: Option<Int32>,
    fragsize: Option<Int32>,
    requireFieldMatch: bool,
    alternateField: Option<string>,
    beforeTerm: Option<string>,
    afterTerm: Option<string>,
    regexSlop: Option<int>,
    regexPattern: Option<string>,
    regexMaxAnalyzedChars: Option<Int32>)

  /** Highlighting requested with nothing set: `new HighlightingParameters()`. */
  const NoHighlighting: HighlightingParameters :=
    HighlightingParameters([], None, None, false, None, None, None, None, None, None)

  datatype QueryOptions = QueryOptions(
    start: Option<Int32>,
    rows: Option<Int32>,
    orderBy: seq<SortOrder>,
    fields: seq<string>,
    facetQueries: seq<FacetQuery>,
    highlight: Option<HighlightingParameters>,
    filterQueries: seq<SolrQuery>)

  /** `new QueryOptions()`: every feature absent. */
  const NoOptions: QueryOptions := QueryOptions(None, None, [], [], [], None, [])
}

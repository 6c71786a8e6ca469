/**
 * The executer's test fixture, one method per test: each builds an executer
 * over a recording connection, runs one query and returns what was sent.
 */
module Fixture {
  import opened Wrappers
  import opened Text
  import opened Params
  import opened Query
  import opened Encoders
  import opened Executer
  import opened Properties

  /** The fixture's document type; its shape plays no part in the request. */
  datatype TestDocument = TestDocument(id: Int32, otherField: string)

  type Results = seq<TestDocument>

  /** The default row count as the fixture spells it, `ConstDefaultRows.ToString()`. */
  function DefaultRowsText(): string {
    IntToString(ConstDefaultRows as int)
  }

  method Setup() returns (conn: Connection, parser: ResultParser<Results>, executer: SolrQueryExecuter<Results>)
    ensures fresh(conn) && fresh(parser) && fresh(executer)
    ensures conn.reply == Success("") && conn.calls == [] && parser.reply == Success([]) && parser.parsed == []
    ensures executer.connection == conn && executer.parser == parser
    ensures executer.DefaultRows == ConstDefaultRows
  {
    conn := new Connection(Success(""));
    parser := new ResultParser(Success([]));
    executer := new SolrQueryExecuter(conn, parser);
  }

  /** Without options only `q` is sent, once, to `/select`, and the reply is parsed once. */
  method ExecuteTest() returns (calls: seq<Call>, parses: nat, r: Result<Results, ExecuteError>)
    ensures calls == [Call("/select", [Kvp("q", "id:123456")])]
    ensures parses == 1 && r == Success([])
  {
    var conn, parser, executer := Setup();
    var query := SolrQuery("id:123456");
    assert Translate(query, None, ConstDefaultRows) == [Kvp("q", "id:123456")];
    r := executer.Execute(query, None);
    calls, parses := conn.calls, |parser.parsed|;
  }

  method SortTest() returns (calls: seq<Call>, parses: nat)
    ensures calls == [Call("/select", [Kvp("q", "id:123456"), Kvp("rows", DefaultRowsText()), Kvp("sort", "id asc")])]
    ensures parses == 1
  {
    var conn, parser, executer := Setup();
    var query, options := SolrQuery("id:123456"), NoOptions.(orderBy := [SortOrderOf("id")]);
    SortOrderWire("id");
    assert "id" + " asc" == "id asc";
    assert Translate(query, Some(options), ConstDefaultRows) ==
      [Kvp("q", "id:123456"), Kvp("rows", DefaultRowsText()), Kvp("sort", "id asc")];
    var _ := executer.Execute(query, Some(options));
    calls, parses := conn.calls, |parser.parsed|;
  }

  method SortMultipleWithOrdersTest() returns (calls: seq<Call>, parses: nat)
    ensures calls == [Call("/select", [Kvp("q", "id:123456"), Kvp("rows", DefaultRowsText()),
                                       Kvp("sort", "id asc,name desc")])]
    ensures parses == 1
  {
    var conn, parser, executer := Setup();
    var orders := [SortOrder("id", Asc), SortOrder("name", Desc)];
    var query, options := SolrQuery("id:123456"), NoOptions.(orderBy := orders);
    assert SortEntry(orders[0]) == "id asc" && SortEntry(orders[1]) == "name desc";
    assert SortEntries(orders) == ["id asc", "name desc"];
    assert Join(',', ["id asc", "name desc"]) == "id asc,name desc";
    assert SortParams(orders) == [("sort", "id asc,name desc")];
    assert Translate(query, Some(options), ConstDefaultRows) ==
      [Kvp("q", "id:123456"), Kvp("rows", DefaultRowsText()), Kvp("sort", "id asc,name desc")];
    var _ := executer.Execute(query, Some(options));
    calls, parses := conn.calls, |parser.parsed|;
  }

  method ResultFieldsTest() returns (calls: seq<Call>, parses: nat)
    ensures calls == [Call("/select", [Kvp("q", "id:123456"), Kvp("rows", DefaultRowsText()), Kvp("fl", "id,name")])]
    ensures parses == 1
  {
    var conn, parser, executer := Setup();
    var query, options := SolrQuery("id:123456"), NoOptions.(fields := ["id", "name"]);
    assert Join(',', ["id", "name"]) == "id,name";
    assert FieldParams(["id", "name"]) == [("fl", "id,name")];
    assert Translate(query, Some(options), ConstDefaultRows) ==
      [Kvp("q", "id:123456"), Kvp("rows", DefaultRowsText()), Kvp("fl", "id,name")];
    var _ := executer.Execute(query, Some(options));
    calls, parses := conn.calls, |parser.parsed|;
  }

  method FacetsTest() returns (calls: seq<Call>)
    ensures calls == [Call("/select", [Kvp("q", ""), Kvp("rows", DefaultRowsText()), Kvp("facet", "true"),
                                       Kvp("facet.field", "Id"), Kvp("facet.query", "id:[1 TO 5]")])]
  {
    var conn, parser, executer := Setup();
    var facets := [FieldFacet("Id"), QueryFacet(SolrQuery("id:[1 TO 5]"))];
    var query, options := SolrQuery(""), NoOptions.(facetQueries := facets);
    assert FacetEntries(facets) == [("facet.field", "Id"), ("facet.query", "id:[1 TO 5]")];
    assert Translate(query, Some(options), ConstDefaultRows) ==
      [Kvp("q", ""), Kvp("rows", DefaultRowsText()), Kvp("facet", "true"),
       Kvp("facet.field", "Id"), Kvp("facet.query", "id:[1 TO 5]")];
    var _ := executer.Execute(query, Some(options));
    calls := conn.calls;
  }

  method MultipleFacetFieldsTest() returns (calls: seq<Call>)
    ensures calls == [Call("/select", [Kvp("q", ""), Kvp("rows", DefaultRowsText()), Kvp("facet", "true"),
                                       Kvp("facet.field", "Id"), Kvp("facet.field", "OtherField")])]
  {
    var conn, parser, executer := Setup();
    var facets := [FieldFacet("Id"), FieldFacet("OtherField")];
    var query, options := SolrQuery(""), NoOptions.(facetQueries := facets);
    assert FacetEntries(facets) == [("facet.field", "Id"), ("facet.field", "OtherField")];
    assert Translate(query, Some(options), ConstDefaultRows) ==
      [Kvp("q", ""), Kvp("rows", DefaultRowsText()), Kvp("facet", "true"),
       Kvp("facet.field", "Id"), Kvp("facet.field", "OtherField")];
    var _ := executer.Execute(query, Some(options));
    calls := conn.calls;
  }

  /** The settings of the highlighting test: every one of them set. */
  function HighlightingTestSettings(): HighlightingParameters {
    HighlightingParameters(
      fields := ["field1"], snippets := Some(3), fragsize := Some(7), requireFieldMatch := true,
      alternateField := Some("alt"), beforeTerm := Some("before"), afterTerm := Some("after"),
      regexSlop := Some(412), regexPattern := Some("\\."), regexMaxAnalyzedChars := Some(8000))
  }

  /** The expected `hl*` pairs of the highlighting test. */
  function HighlightingTestPairs(): seq<Param> {
    [Kvp("hl", "true"), Kvp("hl.fl", "field1"), Kvp("hl.snippets", "3"), Kvp("hl.fragsize", "7"),
     Kvp("hl.requireFieldMatch", "true"), Kvp("hl.alternateField", "alt"), Kvp("hl.simple.pre", "before"),
     Kvp("hl.simple.post", "after"), Kvp("hl.regex.slop", "4.12"), Kvp("hl.regex.pattern", "\\."),
     Kvp("hl.regex.maxAnalyzedChars", "8000")]
  }

  lemma HighlightingTestRendering()
    ensures HighlightParams(Some(HighlightingTestSettings())) == HighlightingTestPairs()
  {
    HighlightingTestValues();
    var vs := HighlightValues(HighlightingTestSettings());
    var pairs := HighlightingTestPairs();
    assert forall i :: 0 <= i < |HighlightKeys| ==> vs[i].Some? && pairs[i] == (HighlightKeys[i], vs[i].value);
    PresentAllSet(HighlightKeys, vs, pairs);
  }

  lemma HighlightingTestValues()
    ensures HighlightValues(HighlightingTestSettings()) == [Some("true"), Some("field1"), Some("3"), Some("7"), Some("true"), Some("alt"),
                   Some("before"), Some("after"), Some("4.12"), Some("\\."), Some("8000")]
  {
    assert IntToString(3) == "3" && IntToString(7) == "7";
    assert NatToString(8) == "8" && NatToString(80) == "80" && NatToString(800) == "800";
    assert IntToString(8000) == "8000";
    assert FractionDigits(12) == "12";
    assert HundredthsToString(412) == "4.12";
  }

  /** A table whose values are all set sends every key, in order. */
  lemma {:induction false} PresentAllSet(keys: seq<string>, vals: seq<Option<string>>, pairs: seq<Param>)
    requires |keys| == |vals| == |pairs|
    requires forall i :: 0 <= i < |vals| ==> vals[i].Some? && pairs[i] == (keys[i], vals[i].value)
    ensures Present(keys, vals) == pairs
    decreases |keys|
  {
    if keys != [] {
      PresentAllSet(keys[1..], vals[1..], pairs[1..]);
      assert pairs == [pairs[0]] + pairs[1..];
    }
  }

  method HighlightingTest() returns (calls: seq<Call>)
    ensures calls == [Call("/select", [Kvp("q", ""), Kvp("rows", DefaultRowsText())] + HighlightingTestPairs())]
  {
    var conn, parser, executer := Setup();
    var query, options := SolrQuery(""), NoOptions.(highlight := Some(HighlightingTestSettings()));
    HighlightOnly(query, options.highlight, ConstDefaultRows);
    HighlightingTestRendering();
    var _ := executer.Execute(query, Some(options));
    calls := conn.calls;
  }

  method FilterQueryTest() returns (calls: seq<Call>)
    ensures calls == [Call("/select", [Kvp("q", "*:*"), Kvp("rows", "10"), Kvp("fq", "id:0"), Kvp("fq", "id:2")])]
  {
    var conn, parser, executer := Setup();
    executer.DefaultRows := 10;
    var filters := [SolrQuery("id:0"), SolrQuery("id:2")];
    var options := NoOptions.(filterQueries := filters);
    assert FilterParams(filters) == [("fq", "id:0"), ("fq", "id:2")];
    assert IntToString(10) == "10";
    assert Translate(All, Some(options), 10) ==
      [Kvp("q", "*:*"), Kvp("rows", "10"), Kvp("fq", "id:0"), Kvp("fq", "id:2")];
    var _ := executer.Execute(All, Some(options));
    calls := conn.calls;
  }
}

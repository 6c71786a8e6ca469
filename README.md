# SolrNet query executer: options to request parameters

This project models the core of SolrNet's `SolrQueryExecuter<T>`. The executer
turns a query and a `QueryOptions` bundle into the ordered list of request
parameters sent to Solr's `/select` handler, sends that list once over an
`ISolrConnection`, and hands the reply to an `ISolrQueryResultParser<T>`.
The behaviour is pinned down by the NUnit fixture
`SolrNet.Tests/SolrQueryExecuterTests.cs`. Each of its tests gives the exact
parameters expected for one feature.

The request is a list of `(key, value)` pairs in which keys may repeat.
It is built from these parts, in this order:

- `q`: the query text.
- `rows`: the options' own row count, or else the executer's mutable
  `DefaultRows`, which starts at `ConstDefaultRows`.
- `start`.
- `sort`: the comma-joined `<field> asc|desc` entries. A `SortOrder` given
  without a direction is ascending.
- `fl`: the comma-joined field names.
- `facet=true`, then one `facet.field` or `facet.query` pair per facet
  request, in input order.
- `hl=true`, then one `hl.*` pair per highlighting setting that is set.
- One `fq` pair per filter query, in input order.

When no options are given at all, only `q` is sent.

Modules, in dependency order:

| module | file | contents |
|---|---|---|
| `Wrappers` | `wrappers.dfy` | `Option` and `Result` |
| `Text` | `text.dfy` | Decimal rendering of integers and of hundredths (for example 412 renders as `4.12`). Comma join and split. The parsers that invert each of these. |
| `Params` | `params.dfy` | The parameter multimap and `Select`, which keeps the pairs whose key lies in a set, in order. |
| `Query` | `query.dfy` | `SolrQuery`, `SortOrder`, facet requests, `HighlightingParameters`, `QueryOptions`. |
| `Encoders` | `encoders.dfy` | One encoder per feature, and `Translate`, which composes them. |
| `Decode` | `decode.dfy` | `DecodeRequest`, which reads a parameter list back into a query and options. It is the inverse the translator is proved against. |
| `Properties` | `properties.dfy` | The translator's promises. |
| `Executer` | `executer.dfy` | Classes `Connection`, `ResultParser<T>` and `SolrQueryExecuter<T>`, with `Execute`. |
| `Fixture` | `fixture.dfy` | One method per fixture test. It builds an executer, runs the test's query and returns what the connection received. Its postcondition is the test's literal expected list. |

The fixture's `Execute` test (lines 47-57) expects exactly `q` when the
options are `null`, so `Translate` sends only `q` in that case. Whenever
options are given, `rows` is sent, as every other test expects.

The fixture compares most requests as a `Dictionary`, which does not fix
the order of keys. The model emits them in the order listed above, which is
also the order of the `List` in `MultipleFacetFields` and `FilterQuery`.

## Model

| member | source | states |
|---|---|---|
| Encoders.Translate | SolrNet.Tests/SolrQueryExecuterTests.cs:280-288 | The list starts with `("q", text)`. It has exactly one pair iff no options are given (also the null-options test at lines 47-57). With options, the second pair is `rows`: the options' own row count when they set one, otherwise the executer's default, in decimal. |
| Properties.SortOrderWire | SolrNet.Tests/SolrQueryExecuterTests.cs:75-89 | A sort order given without a direction is sent as the single pair `sort=<field> asc`. |
| Text.IntRoundTrip | SolrNet.Tests/SolrQueryExecuterTests.cs:240-241 | Parsing an integer's decimal rendering gives the integer back, negatives included. This is the rendering used for `rows`, `start`, `hl.snippets`, `hl.fragsize` and `hl.regex.maxAnalyzedChars`. |
| Text.DecimalRoundTrip | SolrNet.Tests/SolrQueryExecuterTests.cs:246 | Parsing the shortest decimal rendering of a number of hundredths gives the number back. `4.12` is this rendering of 412. |
| Text.SplitJoin | SolrNet.Tests/SolrQueryExecuterTests.cs:108 | Splitting a non-empty comma-joined list of comma-free names at its commas gives the names back, in order. |
| Properties.Isolated | SolrNet.Tests/SolrQueryExecuterTests.cs:280-285 | Selecting one feature's keys from the whole request sees only that feature's own pairs. The other features never add a pair under those keys. |
| Properties.DefaultsOnly | SolrNet.Tests/SolrQueryExecuterTests.cs:72-74 | Options with every feature absent send exactly `q` and `rows` with the default. |
| Properties.SortEmitted | SolrNet.Tests/SolrQueryExecuterTests.cs:105-108 | With no sort orders, no `sort` pair is sent. Otherwise exactly one is sent, and its value is the `<field> asc|desc` entries comma-joined in input order. For comma-free field names, that value decodes back to the sort orders. |
| Properties.SortRoundTrip | SolrNet.Tests/SolrQueryExecuterTests.cs:117-120 | For a non-empty list of comma-free field names, the comma-joined `<field> asc|desc` entries decode back to every sort order, with its direction, in input order. |
| Properties.FieldsEmitted | SolrNet.Tests/SolrQueryExecuterTests.cs:139-148 | With no fields, no `fl` pair is sent. Otherwise exactly one is sent, and its value is the field names comma-joined in input order. For comma-free names, it splits back into the field names. |
| Properties.FacetsEmitted | SolrNet.Tests/SolrQueryExecuterTests.cs:176-179 | With no facet requests, no facet key is sent. Otherwise `facet=true` is sent exactly once and before every entry, followed by one `facet.field` or `facet.query` pair per request, in input order, with repeated keys kept. |
| Properties.HighlightAbsent | SolrNet.Tests/SolrQueryExecuterTests.cs:235-237 | Without highlighting, no `hl*` key is sent. |
| Properties.HighlightEmitted | SolrNet.Tests/SolrQueryExecuterTests.cs:238-248 | With highlighting, each of the eleven `hl*` keys occurs exactly once when its setting is set, with that setting's rendering, and not at all when it is unset. The `hl*` pairs come in the fixed order `hl`, `hl.fl`, `hl.snippets`, `hl.fragsize`, `hl.requireFieldMatch`, `hl.alternateField`, `hl.simple.pre`, `hl.simple.post`, `hl.regex.slop`, `hl.regex.pattern`, `hl.regex.maxAnalyzedChars`. |
| Properties.HighlightOrdered | SolrNet.Tests/SolrQueryExecuterTests.cs:238-248 | Whatever settings are set, the `hl*` pairs of the request follow that fixed key order. |
| Properties.HighlightRoundTrip | SolrNet.Tests/SolrQueryExecuterTests.cs:257-267 | For comma-free highlight field names, the `hl*` pairs decode back to the highlighting settings they were built from. |
| Properties.HighlightFieldsSnippetsFragsize | SolrNet.Tests/SolrQueryExecuterTests.cs:238-241 | With only fields, snippet count and fragment size set, exactly `hl`, `hl.fl`, `hl.snippets` and `hl.fragsize` are sent, in that order. |
| Properties.HighlightOnly | SolrNet.Tests/SolrQueryExecuterTests.cs:235-248 | Options asking for highlighting alone send exactly `q`, `rows` and the `hl*` pairs. |
| Properties.FiltersEmitted | SolrNet.Tests/SolrQueryExecuterTests.cs:289-294 | The `fq` pairs of the whole request are one per filter query, in input order, and decode back to the filters. |
| Properties.RoundTrip | SolrNet.Tests/SolrQueryExecuterTests.cs:47-57 | Decoding the request gives back the query and the options, with only the row count filled in. With no options, it gives back the query alone. |
| Executer.Connection.Get | SolrNet.Tests/SolrQueryExecuterTests.cs:76-78 | The connection records the call's path and parameters after the earlier calls and answers with its reply. |
| Executer.ResultParser.Parse | SolrNet.Tests/SolrQueryExecuterTests.cs:79-82 | The parser records the body it is given and answers with its result. |
| Executer.SolrQueryExecuter.constructor | SolrNet.Tests/SolrQueryExecuterTests.cs:56 | A new executer holds the connection and the parser, and its `DefaultRows` is `ConstDefaultRows`. |
| Executer.SolrQueryExecuter.Execute | SolrNet.Tests/SolrQueryExecuterTests.cs:47-57 | Exactly one call to `/select` carrying the translated parameters. A transport failure is returned without parsing. Otherwise the body is parsed exactly once, and the parser's answer is returned. |
| Fixture.ExecuteTest | SolrNet.Tests/SolrQueryExecuterTests.cs:38-58 | Without options, the one call sends only `("q", "id:123456")`, and the reply is parsed once. |
| Fixture.SortTest | SolrNet.Tests/SolrQueryExecuterTests.cs:62-91 | The one call sends `q`, default `rows` and `sort=id asc`, and the reply is parsed once. |
| Fixture.SortMultipleWithOrdersTest | SolrNet.Tests/SolrQueryExecuterTests.cs:95-122 | The one call sends `q`, default `rows` and `sort=id asc,name desc`, and the reply is parsed once. |
| Fixture.ResultFieldsTest | SolrNet.Tests/SolrQueryExecuterTests.cs:126-150 | The one call sends `q`, default `rows` and `fl=id,name`, and the reply is parsed once. |
| Fixture.FacetsTest | SolrNet.Tests/SolrQueryExecuterTests.cs:154-181 | The one call sends `q`, default `rows`, `facet=true`, `facet.field=Id` and `facet.query=id:[1 TO 5]`. |
| Fixture.MultipleFacetFieldsTest | SolrNet.Tests/SolrQueryExecuterTests.cs:189-217 | The one call sends exactly `q`, `rows`, `facet=true`, `facet.field=Id` and `facet.field=OtherField`, in that order. |
| Fixture.HighlightingTestRendering | SolrNet.Tests/SolrQueryExecuterTests.cs:238-248 | The test's settings render as the eleven expected `hl*` pairs, including `hl.regex.slop=4.12` and the pattern `\.` passed through unescaped. |
| Fixture.HighlightingTest | SolrNet.Tests/SolrQueryExecuterTests.cs:221-270 | The one call sends `q`, default `rows` and the eleven expected `hl*` pairs. |
| Fixture.FilterQueryTest | SolrNet.Tests/SolrQueryExecuterTests.cs:274-294 | After `DefaultRows` is set to 10, the one call sends exactly `q=*:*`, `rows=10`, `fq=id:0` and `fq=id:2`. |

## Left out

- Mocking and the test harness: Rhino Mocks' `MockRepository`, `With.Mocks` and `Expect.Call`, NUnit's attributes, and the internals of `MockConnection`. The fixture methods stand in for them. They return what the recording connection received, and their postconditions state the expected lists.
- Service location: `ServiceLocator` and `IListRandomizer` are ambient state that plays no part in building the request.
- Reflection-based mapping: `IReadOnlyMappingManager` and `[SolrUniqueKey]` are not used to build parameters. `TestDocument` is a plain datatype.
- The network and response parsing: the connection and the parser answer with replies fixed when they are built, and record what they receive. XML parsing of the response is not modelled.
- Floating-point `RegexSlop`: the slop is held as a whole number of hundredths and rendered in the shortest plain decimal form, which is how a .NET double with at most two fractional digits and at most 15 significant digits prints under the invariant culture. Not modelled: values with more than two fractional digits; culture-specific separators; values with 16 or more significant digits (10^13 and above with a fractional part), which .NET Framework's default `ToString()` rounds to 15 significant digits (`12345678901234.56` prints as `12345678901234.6`, while the model renders hundredths 1234567890123456 as `12345678901234.56`); and the `1E+15` exponent form used for magnitudes of 10^15 and above.
- `HighlightingParameters.RequireFieldMatch` is a plain flag here. `hl.requireFieldMatch=true` is sent when it is set, and nothing is sent when it is clear. The fixture only shows the value `true`.
- `ConstDefaultRows`: the fixture only uses it symbolically. The model fixes it at 100000000, and no lemma depends on the value.
- `start` and the options' own `rows` are the model's own choice: `start` is sent right after `rows` when set, and an options' row count replaces the default. No fixture test sets `Start` or `Rows`, so neither is pinned by the source.
- Properties.RoundTrip: requires that sort fields, result fields and highlight fields contain no comma, because a comma inside a name cannot be told apart on the wire from the separator the joined values use (`SortOrder("a asc,b", Asc)` and the two orders `a asc`, `b asc` send the same `sort` value).
- Text.SplitJoin: requires a non-empty list, because the empty list joins to `""`, which splits to `[""]`; the translator never joins an empty list.
- Properties.SortRoundTrip: decodes back only for a non-empty list of comma-free field names: the comma reason above, and an empty list is never joined because no `sort` pair is sent for it.
- Properties.SortEmitted: the exact `sort` value is stated for all inputs; decoding it back is stated only for comma-free field names, for the same reason.
- Properties.FieldsEmitted: the exact `fl` value is stated for all inputs; splitting it back is stated only for comma-free names, for the same reason.
- Properties.HighlightRoundTrip: decodes back only for comma-free highlight field names, for the same reason.

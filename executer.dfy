/**
 * The query executer: holds the connection, the result parser and a mutable
 * default row count; each `Execute` sends one request and parses one reply.
 */
module Executer {
  import opened Wrappers
  import opened Params
  import opened Query
  import opened Encoders

  /** One request as the connection received it. */
  datatype Call = Call(path: string, params: seq<Param>)

  /**
   * The transport. The network is not modelled: the connection records every
   * call it receives and answers with a reply fixed in advance, either a
   * response body or a transport failure.
   */
  class Connection {
    var reply: Result<string, string>
    var calls: seq<Call>

    constructor (reply: Result<string, string>)
      ensures this.reply == reply && calls == []
    {
      this.reply := reply;
      calls := [];
    }

    method Get(path: string, params: seq<Param>) returns (r: Result<string, string>)
      modifies this`calls
      ensures calls == old(calls) + [Call(path, params)]
      ensures r == reply
    {
      calls := calls + [Call(path, params)];
      r := reply;
    }
  }

  /**
   * The response parser for documents of type `T`. Parsing is not modelled:
   * the parser records every body it is given and answers with a fixed result.
   */
  class ResultParser<T> {
    var reply: Result<T, string>
    var parsed: seq<string>

    constructor (reply: Result<T, string>)
      ensures this.reply == reply && parsed == []
    {
      this.reply := reply;
      parsed := [];
    }

    method Parse(body: string) returns (r: Result<T, string>)
      modifies this`parsed
      ensures parsed == old(parsed) + [body]
      ensures r == reply
    {
      parsed := parsed + [body];
      r := reply;
    }
  }

  datatype ExecuteError = TransportError(message: string) | ParseError(message: string)

  class SolrQueryExecuter<T> {
    const connection: Connection
    const parser: ResultParser<T>
    /** Rows requested when the options do not say; settable by the caller. */
    var DefaultRows: Int32

    constructor (connection: Connection, parser: ResultParser<T>)
      ensures this.connection == connection && this.parser == parser
      ensures DefaultRows == ConstDefaultRows
    {
      this.connection := connection;
      this.parser := parser;
      DefaultRows := ConstDefaultRows;
    }

    /**
     * Sends the translated query to `/select` exactly once. A transport
     * failure ends the call before parsing; otherwise the body is parsed
     * exactly once and the parser's answer is returned unchanged.
     */
    method Execute(query: SolrQuery, options: Option<QueryOptions>) returns (r: Result<T, ExecuteError>)
      modifies connection`calls, parser`parsed
      ensures connection.calls == old(connection.calls) + [Call(SelectPath, Translate(query, options, DefaultRows))]
      ensures connection.reply.Failure? ==>
        r == Failure(TransportError(connection.reply.error)) && parser.parsed == old(parser.parsed)
      ensures connection.reply.Success? ==>
        parser.parsed == old(parser.parsed) + [connection.reply.value] &&
        r == match parser.reply
             case Success(results) => Success(results)
             case Failure(e) => Failure(ParseError(e))
    {
      var ps := Translate(query, options, DefaultRows);
      var response := connection.Get(SelectPath, ps);
      match response
      case Failure(e) =>
        r := Failure(TransportError(e));
      case Success(body) =>
        var parsed := parser.Parse(body);
        match parsed
        case Success(results) => r := Success(results);
        case Failure(e) => r := Failure(ParseError(e));
    }
  }
}

/**
  api/netlify/functions/api/main.go: the Lambda-compatible entry point. It strips
  the function's mount prefix from the path, merges the API Gateway query
  parameters into the request's query, runs the request through the shared
  application and copies the recorder's status, headers and body into the proxy
  response.
 */
module Netlify {
  import opened Wrappers
  import opened Text
  import opened Http
  import opened Utils
  import opened Ledger
  import opened Router
  import opened Server

  /** Where Netlify mounts the function. */
  const FunctionPathPrefix: string := "/.netlify/functions/api"

  const InvalidRequestBody: string := "{\"error\":\"invalid request\"}"

  /**
    events.APIGatewayProxyRequest, as far as the handler reads it. The body is
    given by what decoding it yields, as for `Request`.
   */
  datatype ProxyRequest = ProxyRequest(
    httpMethod: string,
    path: string,
    queryStringParameters: map<string, string>,
    multiValueQueryStringParameters: map<string, seq<string>>,
    body: Body)

  /** events.APIGatewayProxyResponse: status, one value per header, and the body written. */
  datatype ProxyResponse = ProxyResponse(statusCode: int, headers: map<string, string>, body: seq<Payload>)

  datatype ProxyOutcome = ProxyOutcome(response: ProxyResponse, tables: Tables)

  /** The path the router sees: the prefix removed once, and `/` for the bare prefix. */
  function StripFunctionPrefix(path: string): (r: string)
    ensures !HasPrefix(path, FunctionPathPrefix) ==> r == path
    ensures HasPrefix(path, FunctionPathPrefix) && path != FunctionPathPrefix ==> FunctionPathPrefix + r == path
    ensures path == FunctionPathPrefix ==> r == "/"
  {
    if HasPrefix(path, FunctionPathPrefix) then
      var p := TrimPrefix(path, FunctionPathPrefix);
      if p == "" then "/" else p
    else path
  }

  /** Whatever follows the prefix reaches the router unchanged, so the prefix is removed only once. */
  lemma StripRoundTrip(rest: string)
    requires rest != ""
    ensures StripFunctionPrefix(FunctionPathPrefix + rest) == rest
  {
    PrefixOfConcat(FunctionPathPrefix, rest);
    assert (FunctionPathPrefix + rest)[|FunctionPathPrefix|..] == rest;
  }

  /** The bare mount point is the health check's path. */
  lemma StripBarePrefix()
    ensures StripFunctionPrefix(FunctionPathPrefix) == HealthPattern
  {
    PrefixOfConcat(FunctionPathPrefix, "");
    assert FunctionPathPrefix + "" == FunctionPathPrefix;
  }

  /**
    The prefix test is on characters, not on path segments: a path that only
    starts with the prefix's characters is cut too, and what remains does not
    begin with `/`.
   */
  lemma StripNotSegmentAware(rest: string)
    requires rest != "" && rest[0] != '/'
    ensures var r := StripFunctionPrefix(FunctionPathPrefix + rest);
      r == rest && r != HealthPattern && r != AccountsPattern && !HasPrefix(r, AccountsPrefix)
  {
    StripRoundTrip(rest);
  }

  /** The values of `key` in `q`, none when it is absent. */
  function Values(q: Query, key: string): seq<string> {
    if key in q then q[key] else []
  }

  /** The value `q.Set` gave `key`, if any. */
  function SetValues(single: map<string, string>, key: string): seq<string> {
    if key in single then [single[key]] else []
  }

  /** The keys `q.Add` gives at least one value to. */
  function AddedKeys(multi: map<string, seq<string>>, done: set<string>): set<string> {
    set k | k in multi.Keys && k in done && multi[k] != []
  }

  /** The query after the Set loop and the Add loops of the keys in `done`. */
  function PartialQuery(single: map<string, string>, multi: map<string, seq<string>>, done: set<string>): Query {
    map k | k in single.Keys + AddedKeys(multi, done) ::
      SetValues(single, k) + (if k in done then Values(multi, k) else [])
  }

  /**
    The query the handler builds: `q.Set` of each single-valued parameter, then
    `q.Add` of every value of every multi-valued one. The path carries no query
    string of its own, so the merge starts from an empty query.
   */
  function MergedQuery(single: map<string, string>, multi: map<string, seq<string>>): (q: Query)
    ensures forall k :: k in q <==> k in single || (k in multi && multi[k] != [])
    ensures forall k | k in q :: q[k] == SetValues(single, k) + Values(multi, k)
  {
    PartialQuery(single, multi, multi.Keys)
  }

  /** url.Values.Get on the merged query prefers the single-valued parameter, then the first of the rest. */
  lemma MergedQueryGet(single: map<string, string>, multi: map<string, seq<string>>, key: string)
    ensures key in single ==> QueryGet(MergedQuery(single, multi), key) == single[key]
    ensures key !in single && key in multi && multi[key] != [] ==>
      QueryGet(MergedQuery(single, multi), key) == multi[key][0]
    ensures key !in single && (key !in multi || multi[key] == []) ==>
      QueryGet(MergedQuery(single, multi), key) == ""
  {
  }

  /** `q.Add(key, v)` for each `v` of `vs` in turn. */
  function AddAll(q: Query, key: string, vs: seq<string>): Query {
    if vs == [] then q else q[key := Values(q, key) + vs]
  }

  lemma AddAllStep(q: Query, key: string, vs: seq<string>, v: string)
    ensures AddAll(q, key, vs + [v]) == AddAll(q, key, vs)[key := Values(AddAll(q, key, vs), key) + [v]]
  {
    if vs == [] {
      assert vs + [v] == [v] && Values(q, key) + [v] == Values(q, key) + [v];
    } else {
      var once := q[key := Values(q, key) + vs];
      assert Values(once, key) == Values(q, key) + vs;
      assert Values(q, key) + (vs + [v]) == Values(q, key) + vs + [v];
      assert once[key := Values(q, key) + vs + [v]] == q[key := Values(q, key) + vs + [v]];
    }
  }

  /** Adding every value of one more key moves that key into `done`. */
  lemma PartialQueryStep(single: map<string, string>, multi: map<string, seq<string>>, done: set<string>, key: string)
    requires key in multi && key !in done
    ensures AddAll(PartialQuery(single, multi, done), key, multi[key]) == PartialQuery(single, multi, done + {key})
  {
    var before := PartialQuery(single, multi, done);
    var after := PartialQuery(single, multi, done + {key});
    var added := AddAll(before, key, multi[key]);
    assert added.Keys == after.Keys;
    forall k | k in after ensures added[k] == after[k] {
      if k == key && multi[key] != [] {
        assert Values(before, key) == SetValues(single, key);
      }
    }
  }

  /** Before any Add loop, the query holds the Set values alone. */
  lemma EmptyPartialQuery(single: map<string, string>, multi: map<string, seq<string>>)
    ensures PartialQuery(single, multi, {}) == map k | k in single.Keys :: [single[k]]
  {
    var p := PartialQuery(single, multi, {});
    assert AddedKeys(multi, {}) == {};
    assert p.Keys == single.Keys;
    forall k | k in p ensures p[k] == [single[k]] {
      assert p[k] == SetValues(single, k) + [];
    }
  }

  /** The inner loop: `q.Add(key, v)` for each value in order. */
  method AddValues(q0: Query, key: string, vals: seq<string>) returns (q: Query)
    ensures q == AddAll(q0, key, vals)
  {
    q := q0;
    var i := 0;
    while i < |vals|
      invariant 0 <= i <= |vals|
      invariant q == AddAll(q0, key, vals[..i])
    {
      AddAllStep(q0, key, vals[..i], vals[i]);
      assert vals[..i + 1] == vals[..i] + [vals[i]];
      q := q[key := Values(q, key) + [vals[i]]];
      i := i + 1;
    }
    assert vals[..|vals|] == vals;
  }

  /** The Set loop and then the Add loops of the handler. */
  method MergeQuery(single: map<string, string>, multi: map<string, seq<string>>) returns (q: Query)
    ensures q == MergedQuery(single, multi)
  {
    q := map[];
    var todo := single.Keys;
    while todo != {}
      invariant todo <= single.Keys
      invariant q == map k | k in single.Keys - todo :: [single[k]]
      decreases todo
    {
      var k :| k in todo;
      q := q[k := [single[k]]];
      todo := todo - {k};
    }
    assert single.Keys - todo == single.Keys;
    EmptyPartialQuery(single, multi);
    var keys := multi.Keys;
    while keys != {}
      invariant keys <= multi.Keys
      invariant q == PartialQuery(single, multi, multi.Keys - keys)
      decreases keys
    {
      var k :| k in keys;
      q := AddValues(q, k, multi[k]);
      PartialQueryStep(single, multi, multi.Keys - keys, k);
      assert (multi.Keys - keys) + {k} == multi.Keys - (keys - {k});
      keys := keys - {k};
    }
    assert multi.Keys - keys == multi.Keys;
  }

  /** What the handler returns for each shape of response the recorder can hold. */
  function ToProxy(r: Response): (p: ProxyResponse)
    ensures p.statusCode == r.status && |p.body| == 1
    ensures ContentTypeHeader in p.headers <==> !r.Plain?
    ensures r.Json? ==> p.body == [r.payload]
  {
    match r
    case Failure(status, message) =>
      ProxyResponse(status, map[ContentTypeHeader := TextContentType, NoSniffHeader := "nosniff"], [Text(message + "\n")])
    case Json(status, payload) => ProxyResponse(status, map[ContentTypeHeader := JsonContentType], [payload])
    case Plain(status, text) => ProxyResponse(status, map[], [Text(text)])
  }

  /** The request the handler builds from the proxy request. */
  function ToRequest(request: ProxyRequest): (req: Request)
    ensures req.path == StripFunctionPrefix(request.path)
    ensures req.httpMethod == request.httpMethod && req.body == request.body
    ensures req.query == MergedQuery(request.queryStringParameters, request.multiValueQueryStringParameters)
  {
    Request(request.httpMethod, StripFunctionPrefix(request.path),
      MergedQuery(request.queryStringParameters, request.multiValueQueryStringParameters), request.body)
  }

  /**
    The handler's answer. `accepted` says whether http.NewRequestWithContext
    accepted the method and path; when it did not, the answer is a 400 with a
    JSON error and the tables are untouched.
   */
  function HandlerOutcome(request: ProxyRequest, accepted: bool, t: Tables, newId: string, driver: Driver, parseDate: DateParser): (o: ProxyOutcome)
    ensures !accepted ==> o == ProxyOutcome(
      ProxyResponse(StatusBadRequest, map[ContentTypeHeader := JsonContentType], [Text(InvalidRequestBody)]), t)
    ensures accepted ==> o.response.statusCode == AppOutcome(ToRequest(request), t, newId, driver, parseDate).response.status
  {
    if !accepted then
      ProxyOutcome(ProxyResponse(StatusBadRequest, map[ContentTypeHeader := JsonContentType], [Text(InvalidRequestBody)]), t)
    else
      var o := AppOutcome(ToRequest(request), t, newId, driver, parseDate);
      ProxyOutcome(ToProxy(o.response), o.tables)
  }

  /** A request under the mount point is answered as the bare application answers the path after it. */
  lemma MountedLikeDirect(request: ProxyRequest, rest: string, t: Tables, newId: string, driver: Driver, parseDate: DateParser)
    requires rest != "" && request.path == FunctionPathPrefix + rest
    ensures var direct := Request(request.httpMethod, rest,
        MergedQuery(request.queryStringParameters, request.multiValueQueryStringParameters), request.body);
      var o := AppOutcome(direct, t, newId, driver, parseDate);
      HandlerOutcome(request, true, t, newId, driver, parseDate) == ProxyOutcome(ToProxy(o.response), o.tables)
  {
    StripRoundTrip(rest);
  }

  /** A path cut in the middle of a segment is answered 404 and changes nothing. */
  lemma PrefixLookalikeNotFound(request: ProxyRequest, rest: string, t: Tables, newId: string, driver: Driver, parseDate: DateParser)
    requires rest != "" && rest[0] != '/' && request.path == FunctionPathPrefix + rest
    ensures HandlerOutcome(request, true, t, newId, driver, parseDate) ==
      ProxyOutcome(ToProxy(Failure(StatusNotFound, NotFoundText)), t)
  {
    StripNotSegmentAware(rest);
    UnknownPathNotFound(ToRequest(request), t, newId, driver, parseDate);
  }

  /** No proxy request breaks the store's keys or its foreign key. */
  lemma HandlerKeepsWellFormed(request: ProxyRequest, accepted: bool, t: Tables, newId: string, driver: Driver, parseDate: DateParser)
    requires WellFormed(t)
    ensures WellFormed(HandlerOutcome(request, accepted, t, newId, driver, parseDate).tables)
  {
    if accepted {
      AppKeepsWellFormed(ToRequest(request), t, newId, driver, parseDate);
    }
  }

  /** The handler: build the request, serve it into a fresh recorder, copy the recorder out. */
  method Handle(app: App, request: ProxyRequest, accepted: bool, newId: string, driver: Driver) returns (response: ProxyResponse)
    requires app.Valid()
    modifies app.Pool()
    ensures var o := HandlerOutcome(request, accepted, old(app.Pool().tables), newId, driver, app.transactions.parseDate);
      response == o.response && app.Pool().tables == o.tables
  {
    var path := request.path;
    if HasPrefix(path, FunctionPathPrefix) {
      path := TrimPrefix(path, FunctionPathPrefix);
      if path == "" {
        path := "/";
      }
    }
    if !accepted {
      return ProxyResponse(StatusBadRequest, map[ContentTypeHeader := JsonContentType], [Text(InvalidRequestBody)]);
    }
    var q := MergeQuery(request.queryStringParameters, request.multiValueQueryStringParameters);
    var req := Request(request.httpMethod, path, q, request.body);
    var rec := new ResponseRecorder();
    app.ServeHTTP(rec, req, newId, driver);
    response := ProxyResponse(rec.code, rec.header, rec.body);
  }
}

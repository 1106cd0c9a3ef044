/** The REST connection to a TigerGraph server (src/tg_connection.js): the URL
    each call is made to. The HTTP exchange itself is not modelled; a call's
    outcome is given to the model as a `Response`. */
module Connection {
  import opened Wrappers
  import opened Dict
  import opened Js

  /** An HTTP call as the connection would issue it. */
  datatype Request =
    | HttpGet(url: string)
    | HttpDelete(url: string)
    | HttpPost(url: string, body: Json)
      /** A GET whose query string axios builds from `params`. */
    | HttpQuery(url: string, params: Dict<Json>)

  /** What an HTTP call came back with: a transport failure (the rejected
      promise's message) or the parsed response body `res.data`. */
  datatype Response = Failed(message: string) | Received(data: Json)

  const RestPort := "9000"
  const GsPort := "14240"

  function HostUrl(host: string): string
  {
    "https://" + host
  }

  /** The REST++ endpoint of a host. */
  function RestUrl(host: string): string
  {
    HostUrl(host) + ":" + RestPort
  }

  /** The GSQL server endpoint of a host. */
  function GsUrl(host: string): string
  {
    HostUrl(host) + ":" + GsPort
  }

  /** The Authorization header value fixed from a token. */
  function Bearer(token: Json): string
  {
    "Bearer " + ToStr(token)
  }

  function GraphPath(restUrl: string, graph: string): string
  {
    restUrl + "/graph/" + graph
  }

  function VerticesPath(restUrl: string, graph: string, vertexType: Json): string
  {
    GraphPath(restUrl, graph) + "/vertices/" + ToStr(vertexType)
  }

  function EdgesPath(restUrl: string, graph: string, sourceType: Json, sourceId: Json): string
  {
    GraphPath(restUrl, graph) + "/edges/" + ToStr(sourceType) + "/" + ToStr(sourceId)
  }

  /** One path segment `'/' + x`. */
  function Segment(x: Json): string
  {
    "/" + ToStr(x)
  }

  /** The segments `/x1/x2…` of `xs`, appended one after the other. */
  function Segments(xs: seq<Json>): string
  {
    if xs == [] then "" else Segments(xs[..|xs| - 1]) + "/" + ToStr(xs[|xs| - 1])
  }

  predicate IsDefined(x: Json)
  {
    !IsUndefined(x)
  }

  /** Whether a path or query piece is used: `x !== undefined`, or, with
      `truthy`, `if (x)`. */
  predicate Keep(x: Json, truthy: bool)
  {
    if truthy then Truthy(x) else IsDefined(x)
  }

  /** The longest prefix of `xs` whose elements are all kept. */
  function TakeWhile(xs: seq<Json>, truthy: bool): seq<Json>
  {
    if xs == [] || !Keep(xs[0], truthy) then [] else [xs[0]] + TakeWhile(xs[1..], truthy)
  }

  /** TakeWhile is the longest kept prefix. */
  lemma {:induction false} TakeWhileIsLongestKeptPrefix(xs: seq<Json>, truthy: bool)
    ensures TakeWhile(xs, truthy) <= xs
    ensures forall i :: 0 <= i < |TakeWhile(xs, truthy)| ==> Keep(xs[i], truthy)
    ensures |TakeWhile(xs, truthy)| < |xs| ==> !Keep(xs[|TakeWhile(xs, truthy)|], truthy)
  {
    if xs != [] && Keep(xs[0], truthy) {
      TakeWhileIsLongestKeptPrefix(xs[1..], truthy);
    }
  }

  /** `?k1=v1&k2=v2…`, or nothing when there are no parameters: each
      parameter is appended after `?` when it is the first and `&` otherwise. */
  function QueryString(params: seq<(string, string)>): string
  {
    if params == [] then ""
    else
      var n := |params| - 1;
      QueryString(params[..n]) + (if n == 0 then "?" else "&") + params[n].0 + "=" + params[n].1
  }

  /** The parameter `k=v` when `x` is present. */
  function OptionalParam(k: string, x: Json, present: bool): seq<(string, string)>
  {
    if present then [(k, ToStr(x))] else []
  }

  const PageLimit := "?limit=100"
  const SourceError := "Both source vertex type and source vertex ID must be provided."
  const VertexTypeError := "Vertex type must be provided to delete vertices."
  const QueryNameError := "Query name should be provided"

  /** getVertices: one vertex by id, or the first page of a vertex type. */
  function VerticesRequest(restUrl: string, graph: string, vertexName: Json, vertexId: Json): (r: Request)
    ensures r.HttpGet?
    ensures vertexId != JUndefined ==> r.url == VerticesPath(restUrl, graph, vertexName) + Segment(vertexId)
    ensures vertexId == JUndefined ==> r.url == VerticesPath(restUrl, graph, vertexName) + PageLimit
  {
    if vertexId != JUndefined then
      HttpGet(restUrl + "/graph/" + graph + "/vertices/" + ToStr(vertexName) + "/" + ToStr(vertexId))
    else
      HttpGet(restUrl + "/graph/" + graph + "/vertices/" + ToStr(vertexName) + "?limit=100")
  }

  /** getEdges, declaratively: the edges path narrowed by the defined prefix of
      (edge type, target type, target id). */
  function EdgesRequest(restUrl: string, graph: string, sourceType: Json, sourceId: Json,
                        edgeType: Json, targetType: Json, targetId: Json): (r: Result<Request>)
    ensures r.Err? <==> IsUndefined(sourceType) || IsUndefined(sourceId)
    ensures r.Err? ==> r.message == SourceError
    ensures r.Ok? ==> r.value.HttpGet?
  {
    if IsUndefined(sourceType) || IsUndefined(sourceId) then Err(SourceError)
    else Ok(HttpGet(EdgesPath(restUrl, graph, sourceType, sourceId)
                + Segments(TakeWhile([edgeType, targetType, targetId], false))))
  }

  /** The query parameters of deleteVertices: a filter, then limit and sort together. */
  function DeleteVerticesParams(where: Json, limit: Json, sort: Json): seq<(string, string)>
  {
    OptionalParam("filter", where, IsDefined(where))
      + (if IsDefined(limit) then [("limit", ToStr(limit)), ("sort", ToStr(sort))] else [])
  }

  /** deleteVertices, declaratively. */
  function DeleteVerticesRequest(restUrl: string, graph: string, vertexType: Json, vertexId: Json,
                                 where: Json, limit: Json, sort: Json): (r: Result<Request>)
    ensures r.Err? <==> IsUndefined(vertexType)
    ensures r.Err? ==> r.message == VertexTypeError
    ensures r.Ok? ==> r.value.HttpDelete?
  {
    if IsUndefined(vertexType) then Err(VertexTypeError)
    else Ok(HttpDelete(VerticesPath(restUrl, graph, vertexType)
                   + Segments(TakeWhile([vertexId], false))
                   + QueryString(DeleteVerticesParams(where, limit, sort))))
  }

  /** deleteEdges, declaratively. */
  function DeleteEdgesRequest(restUrl: string, graph: string, sourceType: Json, sourceId: Json,
                              edgeType: Json, targetType: Json, targetId: Json, limit: Json): (r: Result<Request>)
    ensures r.Err? <==> IsUndefined(sourceType) || IsUndefined(sourceId)
    ensures r.Err? ==> r.message == SourceError
    ensures r.Ok? ==> r.value.HttpDelete?
  {
    if IsUndefined(sourceId) || IsUndefined(sourceType) then Err(SourceError)
    else Ok(HttpDelete(EdgesPath(restUrl, graph, sourceType, sourceId)
                   + Segments(TakeWhile([edgeType, targetType, targetId], false))
                   + QueryString(OptionalParam("limit", limit, IsDefined(limit)))))
  }

  /** upsertData: a POST of the payload to the graph. */
  function UpsertRequest(restUrl: string, graph: string, body: Json): Request
  {
    HttpPost(GraphPath(restUrl, graph), body)
  }

  /** getSchema: the GSQL schema document of the graph. */
  function SchemaRequest(gsUrl: string, graph: string): Request
  {
    HttpGet(gsUrl + "/gsqlserver/gsql/schema?graph=" + graph)
  }

  /** runInstalledQuery: throws on a missing query name. */
  function InstalledQueryRequest(restUrl: string, graph: string, queryName: Json, params: Dict<Json>): (r: Result<Request>)
    ensures r.Err? <==> IsUndefined(queryName)
    ensures r.Err? ==> r.message == QueryNameError
    ensures r.Ok? ==> r.value == HttpQuery(restUrl + "/query/" + graph + Segment(queryName), params)
  {
    if queryName == JUndefined then Err(QueryNameError)
    else Ok(HttpQuery(restUrl + "/query/" + graph + Segment(queryName), params))
  }

  /** `res.data.token` of a token reply; a transport failure is rethrown with
      its own message. */
  function TokenOf(response: Response): Result<Json>
  {
    match response
    case Failed(m) => Err(m)
    case Received(data) => Member(data, "token")
  }

  /** The module-level getToken: asks the REST++ endpoint of `host` for a
      token, adding the lifetime only when one is given. */
  method RequestToken(secret: Json, host: string, lifetime: Json, response: Response)
    returns (request: Request, token: Result<Json>)
    ensures request == HttpGet(RestUrl(host) + "/requesttoken"
                           + QueryString([("secret", ToStr(secret))] + OptionalParam("lifetime", lifetime, IsDefined(lifetime))))
    ensures token == TokenOf(response)
  {
    var url := "https://" + host + ":9000/requesttoken?secret=" + ToStr(secret);
    if lifetime != JUndefined {
      url := url + "&lifetime=" + ToStr(lifetime);
    }
    if lifetime != JUndefined {
      assert OptionalParam("lifetime", lifetime, IsDefined(lifetime)) == [("lifetime", ToStr(lifetime))];
      TokenUrlWithLifetime(host, ToStr(secret), ToStr(lifetime));
    } else {
      assert OptionalParam("lifetime", lifetime, IsDefined(lifetime)) == [];
      TokenUrl(host, ToStr(secret));
    }
    request := HttpGet(url);
    token := TokenOf(response);
  }

  /** The narrowing shared by getEdges and deleteEdges: `url += '/' + a`,
      and under it `b`, and under that `c`, each only when kept. */
  method Narrow(url: string, a: Json, b: Json, c: Json, truthy: bool) returns (r: string)
    ensures r == url + Segments(TakeWhile([a, b, c], truthy))
  {
    r := url;
    if Keep(a, truthy) {
      r := r + "/" + ToStr(a);
      if Keep(b, truthy) {
        r := r + "/" + ToStr(b);
        if Keep(c, truthy) {
          r := r + "/" + ToStr(c);
          KeepsAll(url, a, b, c, truthy);
        } else {
          KeepsTwo(url, a, b, c, truthy);
        }
      } else {
        KeepsOne(url, a, b, c, truthy);
      }
    } else {
      KeepsNone(url, a, b, c, truthy);
    }
  }

  class TigerGraphConnection {
    var host: string
    var restPort: string
    var gsPort: string
    var graphName: string
    var username: string
    var password: string
    var secret: Json
    var token: Json
    var gsUrl: string
    var restUrl: string
    /** `HEADERS.Authorization`, fixed when the connection is made. */
    var authorization: string

    constructor (host: string, graphName: string, username: string, password: string, secret: Json, token: Json)
      ensures this.host == HostUrl(host) && restPort == RestPort && gsPort == GsPort
      ensures restUrl == RestUrl(host) && gsUrl == GsUrl(host)
      ensures this.graphName == graphName && this.username == username && this.password == password
      ensures this.secret == secret && this.token == token
      ensures authorization == Bearer(token)
    {
      this.host := "https://" + host;
      restPort := "9000";
      gsPort := "14240";
      this.graphName := graphName;
      this.username := username;
      this.password := password;
      this.secret := secret;
      this.token := token;
      gsUrl := "https://" + host + ":" + "14240";
      restUrl := "https://" + host + ":" + "9000";
      authorization := "Bearer " + ToStr(token);
    }

    /** getToken: the request reads `this.secret`, a property the connection
        never sets (it stores `SECRET`), so the secret sent is "undefined". A
        token received replaces `token` but not the Authorization header. */
    method GetToken(response: Response) returns (request: Request, outcome: Outcome)
      modifies this`token
      ensures request == HttpGet(restUrl + "/requesttoken" + QueryString([("secret", "undefined")]))
      ensures TokenOf(response).Ok? ==> outcome == Pass && token == TokenOf(response).value
      ensures TokenOf(response).Err? ==> outcome == Fail(TokenOf(response).message) && token == old(token)
      ensures authorization == old(authorization) && secret == old(secret)
    {
      request := HttpGet(restUrl + "/requesttoken?secret=" + ToStr(JUndefined));
      TokenUrlOf(restUrl);
      var t := TokenOf(response);
      if t.Ok? {
        token := t.value;
        outcome := Pass;
      } else {
        outcome := Fail(t.message);
      }
    }

    /** getEdges: throws unless both source arguments are given, then narrows
        the path by edge type, target type and target id in turn. */
    method GetEdges(sourceType: Json, sourceId: Json, edgeType: Json, targetType: Json, targetId: Json)
      returns (r: Result<Request>)
      ensures r == EdgesRequest(restUrl, graphName, sourceType, sourceId, edgeType, targetType, targetId)
    {
      if sourceType == JUndefined || sourceId == JUndefined {
        return Err(SourceError);
      }
      var url := restUrl + "/graph/" + graphName + "/edges/" + ToStr(sourceType) + "/" + ToStr(sourceId);
      url := Narrow(url, edgeType, targetType, targetId, false);
      r := Ok(HttpGet(url));
    }

    /** deleteVertices: throws on a missing vertex type; the query string gets
        the filter first and then limit and sort, which only come together. */
    method DeleteVertices(vertexType: Json, vertexId: Json, where: Json, limit: Json, sort: Json)
      returns (r: Result<Request>)
      ensures r == DeleteVerticesRequest(restUrl, graphName, vertexType, vertexId, where, limit, sort)
    {
      if vertexType == JUndefined {
        return Err(VertexTypeError);
      }
      var url := restUrl + "/graph/" + graphName + "/vertices/" + ToStr(vertexType);
      if vertexId != JUndefined {
        url := url + "/" + ToStr(vertexId);
      }
      var isFirst := true;
      if where != JUndefined {
        url := url + "?filter=" + ToStr(where);
        isFirst := false;
      }
      if limit != JUndefined {
        if isFirst {
          url := url + "?";
        } else {
          url := url + "&";
        }
        url := url + "limit=" + ToStr(limit) + "&sort=" + ToStr(sort);
      }
      DeleteVerticesAsBuilt(restUrl, graphName, vertexType, vertexId, where, limit, sort);
      r := Ok(HttpDelete(url));
    }

    /** deleteEdges: the getEdges path, then `?limit=` when a limit is given. */
    method DeleteEdges(sourceType: Json, sourceId: Json, edgeType: Json, targetType: Json, targetId: Json, limit: Json)
      returns (r: Result<Request>)
      ensures r == DeleteEdgesRequest(restUrl, graphName, sourceType, sourceId, edgeType, targetType, targetId, limit)
    {
      if sourceId == JUndefined || sourceType == JUndefined {
        return Err(SourceError);
      }
      var url := restUrl + "/graph/" + graphName + "/edges/" + ToStr(sourceType) + "/" + ToStr(sourceId);
      url := Narrow(url, edgeType, targetType, targetId, false);
      if limit != JUndefined {
        url := url + "?limit=" + ToStr(limit);
      }
      DeleteEdgesAsBuilt(restUrl, graphName, sourceType, sourceId, edgeType, targetType, targetId, limit);
      r := Ok(HttpDelete(url));
    }
  }

  /** The kept prefix of (a, b, c) is empty when a is not kept. */
  lemma KeepsNone(base: string, a: Json, b: Json, c: Json, truthy: bool)
    requires !Keep(a, truthy)
    ensures base + Segments(TakeWhile([a, b, c], truthy)) == base
  {
    KeptPrefix(a, b, c, truthy);
    assert base + "" == base;
  }

  lemma KeepsOne(base: string, a: Json, b: Json, c: Json, truthy: bool)
    requires Keep(a, truthy) && !Keep(b, truthy)
    ensures base + Segments(TakeWhile([a, b, c], truthy)) == base + "/" + ToStr(a)
  {
    KeptPrefix(a, b, c, truthy);
    AppendSegment(base, [], a);
    assert [] + [a] == [a];
  }

  lemma KeepsTwo(base: string, a: Json, b: Json, c: Json, truthy: bool)
    requires Keep(a, truthy) && Keep(b, truthy) && !Keep(c, truthy)
    ensures base + Segments(TakeWhile([a, b, c], truthy)) == base + "/" + ToStr(a) + "/" + ToStr(b)
  {
    KeptPrefix(a, b, c, truthy);
    TwoSegments(base, a, b);
  }

  lemma KeepsAll(base: string, a: Json, b: Json, c: Json, truthy: bool)
    requires Keep(a, truthy) && Keep(b, truthy) && Keep(c, truthy)
    ensures base + Segments(TakeWhile([a, b, c], truthy))
         == base + "/" + ToStr(a) + "/" + ToStr(b) + "/" + ToStr(c)
  {
    KeptPrefix(a, b, c, truthy);
    TwoSegments(base, a, b);
    AppendSegment(base, [a, b], c);
    assert [a, b] + [c] == [a, b, c];
  }

  lemma TwoSegments(base: string, a: Json, b: Json)
    ensures base + Segments([a, b]) == base + "/" + ToStr(a) + "/" + ToStr(b)
  {
    AppendSegment(base, [], a);
    assert [] + [a] == [a];
    AppendSegment(base, [a], b);
    assert [a] + [b] == [a, b];
  }

  /** `if (x !== undefined) url += '/' + x` (or `if (x)`) appends the
      segment of a kept x. */
  lemma OptionalSegment(base: string, x: Json, truthy: bool)
    ensures base + Segments(TakeWhile([x], truthy))
         == if Keep(x, truthy) then base + "/" + ToStr(x) else base
  {
    assert [x][1..] == [];
    assert TakeWhile([], truthy) == [];
    if Keep(x, truthy) {
      assert [x] + [] == [x];
      AppendSegment(base, [], x);
      assert [] + [x] == [x];
    }
  }

  /** Appending one segment to a url that already carries the segments of `xs`. */
  lemma AppendSegment(url: string, xs: seq<Json>, x: Json)
    ensures url + Segments(xs + [x]) == url + Segments(xs) + "/" + ToStr(x)
  {
    assert (xs + [x])[..|xs|] == xs;
  }

  lemma KeptPrefix(a: Json, b: Json, c: Json, truthy: bool)
    ensures TakeWhile([a, b, c], truthy)
         == if !Keep(a, truthy) then [] else if !Keep(b, truthy) then [a]
            else if !Keep(c, truthy) then [a, b] else [a, b, c]
  {
    assert [a, b, c][1..] == [b, c];
    assert [b, c][1..] == [c];
    assert [c][1..] == [];
    assert TakeWhile([], truthy) == [];
    assert [c] + [] == [c];
    var tc := TakeWhile([c], truthy);
    assert tc == if Keep(c, truthy) then [c] else [];
    var tb := TakeWhile([b, c], truthy);
    assert tb == if Keep(b, truthy) then [b] + tc else [];
  }

  /** Appending one parameter to a url that already carries the query
      string of `ps`. */
  lemma AppendParam(url: string, ps: seq<(string, string)>, k: string, v: string)
    ensures url + QueryString(ps + [(k, v)])
         == url + QueryString(ps) + (if ps == [] then "?" else "&") + k + "=" + v
  {
    assert (ps + [(k, v)])[..|ps|] == ps;
  }

  /** The filter of deleteVertices as the first query parameter. */
  lemma FilterQuery(path: string, where: Json)
    ensures path + QueryString(OptionalParam("filter", where, IsDefined(where)))
         == if IsDefined(where) then path + "?filter=" + ToStr(where) else path
  {
    if IsDefined(where) {
      AppendParam(path, [], "filter", ToStr(where));
      assert [] + [("filter", ToStr(where))] == [("filter", ToStr(where))];
    }
  }

  /** The url deleteVertices builds step by step carries the path segment
      and the query string of DeleteVerticesParams. */
  lemma DeleteVerticesAsBuilt(restUrl: string, graph: string, vertexType: Json, vertexId: Json, where: Json, limit: Json, sort: Json)
    requires vertexType != JUndefined
    ensures DeleteVerticesRequest(restUrl, graph, vertexType, vertexId, where, limit, sort)
         == (var base := restUrl + "/graph/" + graph + "/vertices/" + ToStr(vertexType);
             var path := if vertexId != JUndefined then base + "/" + ToStr(vertexId) else base;
             var filtered := if where != JUndefined then path + "?filter=" + ToStr(where) else path;
             Ok(HttpDelete(if limit != JUndefined then
               filtered + (if where != JUndefined then "&" else "?") + "limit=" + ToStr(limit) + "&sort=" + ToStr(sort)
             else filtered)))
  {
    var base := VerticesPath(restUrl, graph, vertexType);
    OptionalSegment(base, vertexId, false);
    DeleteVerticesQuery(base + Segments(TakeWhile([vertexId], false)), where, limit, sort);
  }

  /** The url deleteEdges builds step by step: the narrowed edges path and
      then the optional limit. */
  lemma DeleteEdgesAsBuilt(restUrl: string, graph: string, sourceType: Json, sourceId: Json,
                           edgeType: Json, targetType: Json, targetId: Json, limit: Json)
    requires sourceType != JUndefined && sourceId != JUndefined
    ensures DeleteEdgesRequest(restUrl, graph, sourceType, sourceId, edgeType, targetType, targetId, limit)
         == (var path := restUrl + "/graph/" + graph + "/edges/" + ToStr(sourceType) + "/" + ToStr(sourceId)
                         + Segments(TakeWhile([edgeType, targetType, targetId], false));
             Ok(HttpDelete(if limit != JUndefined then path + "?limit=" + ToStr(limit) else path)))
  {
    OptionalLimit(EdgesPath(restUrl, graph, sourceType, sourceId)
                  + Segments(TakeWhile([edgeType, targetType, targetId], false)), limit, false);
  }

  lemma DeleteVerticesQuery(path: string, where: Json, limit: Json, sort: Json)
    ensures path + QueryString(DeleteVerticesParams(where, limit, sort))
         == (var filtered := if where != JUndefined then path + "?filter=" + ToStr(where) else path;
             if limit != JUndefined then
               filtered + (if where != JUndefined then "&" else "?") + "limit=" + ToStr(limit) + "&sort=" + ToStr(sort)
             else filtered)
  {
    var filter := OptionalParam("filter", where, IsDefined(where));
    FilterQuery(path, where);
    if IsDefined(limit) {
      LimitSortQuery(path, filter, ToStr(limit), ToStr(sort));
      assert DeleteVerticesParams(where, limit, sort) == filter + [("limit", ToStr(limit)), ("sort", ToStr(sort))];
    } else {
      assert DeleteVerticesParams(where, limit, sort) == filter;
    }
  }

  /** Limit and sort appended together after the parameters `ps`. */
  lemma LimitSortQuery(url: string, ps: seq<(string, string)>, l: string, o: string)
    ensures url + QueryString(ps + [("limit", l), ("sort", o)])
         == url + QueryString(ps) + (if ps == [] then "?" else "&") + "limit=" + l + "&sort=" + o
  {
    AppendParam(url, ps, "limit", l);
    AppendParam(url, ps + [("limit", l)], "sort", o);
    assert ps + [("limit", l), ("sort", o)] == (ps + [("limit", l)]) + [("sort", o)];
    var sep := if ps == [] then "?" else "&";
    assert url + QueryString(ps) + sep + "limit" + "=" + l + "&" + "sort" + "=" + o
        == url + QueryString(ps) + sep + "limit=" + l + "&sort=" + o;
  }

  /** `if (limit !== undefined) url += '?limit=' + limit` (or `if (limit)`). */
  lemma OptionalLimit(path: string, limit: Json, truthy: bool)
    ensures path + QueryString(OptionalParam("limit", limit, Keep(limit, truthy)))
         == if Keep(limit, truthy) then path + "?limit=" + ToStr(limit) else path
  {
    if Keep(limit, truthy) {
      AppendParam(path, [], "limit", ToStr(limit));
      assert [] + [("limit", ToStr(limit))] == [("limit", ToStr(limit))];
    } else {
      assert path + "" == path;
    }
  }

  lemma SecretQuery(base: string, s: string)
    ensures base + "?secret=" + s == base + QueryString([("secret", s)])
  {
    AppendParam(base, [], "secret", s);
    assert [] + [("secret", s)] == [("secret", s)];
  }

  lemma TokenUrlOf(restUrl: string)
    ensures restUrl + "/requesttoken?secret=" + ToStr(JUndefined)
         == restUrl + "/requesttoken" + QueryString([("secret", "undefined")])
  {
    SecretQuery(restUrl + "/requesttoken", "undefined");
    assert ToStr(JUndefined) == "undefined";
    assert "/requesttoken?secret=" == "/requesttoken" + "?secret=";
  }

  /** The literal prefix getToken starts from is the REST++ endpoint's
      token path followed by `?secret=`. */
  lemma TokenPrefix(host: string)
    ensures "https://" + host + ":9000/requesttoken?secret=" == RestUrl(host) + "/requesttoken" + "?secret="
  {
    assert ":9000/requesttoken?secret=" == ":" + RestPort + "/requesttoken" + "?secret=";
  }

  lemma TokenUrl(host: string, s: string)
    ensures "https://" + host + ":9000/requesttoken?secret=" + s
         == RestUrl(host) + "/requesttoken" + QueryString([("secret", s)])
  {
    TokenPrefix(host);
    SecretQuery(RestUrl(host) + "/requesttoken", s);
  }

  lemma TokenUrlWithLifetime(host: string, s: string, t: string)
    ensures "https://" + host + ":9000/requesttoken?secret=" + s + "&lifetime=" + t
         == RestUrl(host) + "/requesttoken" + QueryString([("secret", s), ("lifetime", t)])
  {
    TokenUrl(host, s);
    AppendParam(RestUrl(host) + "/requesttoken", [("secret", s)], "lifetime", t);
    assert [("secret", s)] + [("lifetime", t)] == [("secret", s), ("lifetime", t)];
  }

  /** getVertices with an id and deleteVertices with that id and no query
      address the same vertex. */
  lemma GetAndDeleteSameVertex(restUrl: string, graph: string, vertexType: Json, vertexId: Json, sort: Json)
    requires IsDefined(vertexType) && IsDefined(vertexId)
    ensures DeleteVerticesRequest(restUrl, graph, vertexType, vertexId, JUndefined, JUndefined, sort)
         == Ok(HttpDelete(VerticesRequest(restUrl, graph, vertexType, vertexId).url))
  {
    DeleteVerticesAsBuilt(restUrl, graph, vertexType, vertexId, JUndefined, JUndefined, sort);
  }

  /** deleteEdges without a limit removes exactly the edges getEdges lists. */
  lemma GetAndDeleteSameEdges(restUrl: string, graph: string, sourceType: Json, sourceId: Json,
                              edgeType: Json, targetType: Json, targetId: Json)
    ensures EdgesRequest(restUrl, graph, sourceType, sourceId, edgeType, targetType, targetId).Err?
        <==> DeleteEdgesRequest(restUrl, graph, sourceType, sourceId, edgeType, targetType, targetId, JUndefined).Err?
    ensures EdgesRequest(restUrl, graph, sourceType, sourceId, edgeType, targetType, targetId).Ok?
        ==> DeleteEdgesRequest(restUrl, graph, sourceType, sourceId, edgeType, targetType, targetId, JUndefined)
            == Ok(HttpDelete(EdgesRequest(restUrl, graph, sourceType, sourceId, edgeType, targetType, targetId).value.url))
  {
    var path := EdgesPath(restUrl, graph, sourceType, sourceId)
                + Segments(TakeWhile([edgeType, targetType, targetId], false));
    assert QueryString(OptionalParam("limit", JUndefined, IsDefined(JUndefined))) == "";
    assert path + "" == path;
  }

  /** The target id narrows the edges only under a target type: without one
      it is ignored. */
  lemma TargetIdNeedsTargetType(restUrl: string, graph: string, sourceType: Json, sourceId: Json,
                                edgeType: Json, targetId1: Json, targetId2: Json)
    ensures EdgesRequest(restUrl, graph, sourceType, sourceId, edgeType, JUndefined, targetId1)
         == EdgesRequest(restUrl, graph, sourceType, sourceId, edgeType, JUndefined, targetId2)
  {
    KeptPrefix(edgeType, JUndefined, targetId1, false);
    KeptPrefix(edgeType, JUndefined, targetId2, false);
    assert !Keep(JUndefined, false);
    assert TakeWhile([edgeType, JUndefined, targetId1], false) == TakeWhile([edgeType, JUndefined, targetId2], false);
  }

  /** deleteVertices sends the sort order only together with a limit. */
  lemma SortNeedsLimit(restUrl: string, graph: string, vertexType: Json, vertexId: Json, where: Json, sort1: Json, sort2: Json)
    ensures DeleteVerticesRequest(restUrl, graph, vertexType, vertexId, where, JUndefined, sort1)
         == DeleteVerticesRequest(restUrl, graph, vertexType, vertexId, where, JUndefined, sort2)
  {
    assert DeleteVerticesParams(where, JUndefined, sort1) == DeleteVerticesParams(where, JUndefined, sort2);
  }
}

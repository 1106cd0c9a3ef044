/** The earlier REST connection (tg_connection.js at the repository root).
    getSchema, getVertices, getEdges and upsertData are the same code as in
    src/tg_connection.js and are modelled by the same functions of module
    Connection; this module holds what differs: a getToken that returns the
    token instead of storing it, a deleteVertices without query parameters,
    and a deleteEdges that tests its arguments for truthiness. */
module LegacyConnection {
  import opened Wrappers
  import opened Js
  import opened Connection

  /** deleteVertices: the vertex id narrows the path only when truthy; the
      filter and limit arguments are accepted and never used. */
  function DeleteVerticesByTruthyId(restUrl: string, graph: string, vertexType: Json, vertexId: Json): (r: Result<Request>)
    ensures r.Err? <==> IsUndefined(vertexType)
    ensures r.Err? ==> r.message == VertexTypeError
    ensures r.Ok? ==> r.value.HttpDelete?
  {
    if IsUndefined(vertexType) then Err(VertexTypeError)
    else Ok(HttpDelete(VerticesPath(restUrl, graph, vertexType) + Segments(TakeWhile([vertexId], true))))
  }

  /** deleteEdges: refuses only when BOTH source arguments are missing; the
      path is narrowed by the truthy prefix of (edge type, target type,
      target id) and a truthy limit is sent. */
  function DeleteEdgesByTruthyPrefix(restUrl: string, graph: string, sourceType: Json, sourceId: Json,
                              edgeType: Json, targetType: Json, targetId: Json, limit: Json): (r: Result<Request>)
    ensures r.Err? <==> IsUndefined(sourceType) && IsUndefined(sourceId)
    ensures r.Err? ==> r.message == SourceError
    ensures r.Ok? ==> r.value.HttpDelete?
  {
    if IsUndefined(sourceId) && IsUndefined(sourceType) then Err(SourceError)
    else Ok(HttpDelete(EdgesPath(restUrl, graph, sourceType, sourceId)
                   + Segments(TakeWhile([edgeType, targetType, targetId], true))
                   + QueryString(OptionalParam("limit", limit, Truthy(limit)))))
  }

  class TigerGraphConnection {
    var host: string
    var restPort: string
    var gsPort: string
    var graphName: string
    var username: string
    var password: string
    var secret: Json
    var token: Json
    var gsUrl: string
    var restUrl: string
    /** `HEADERS.Authorization`, fixed when the connection is made. */
    var authorization: string

    constructor (host: string, graphName: string, username: string, password: string, secret: Json, token: Json)
      ensures this.host == HostUrl(host) && restPort == RestPort && gsPort == GsPort
      ensures restUrl == RestUrl(host) && gsUrl == GsUrl(host)
      ensures this.graphName == graphName && this.username == username && this.password == password
      ensures this.secret == secret && this.token == token
      ensures authorization == Bearer(token)
    {
      this.host := "https://" + host;
      restPort := "9000";
      gsPort := "14240";
      this.graphName := graphName;
      this.username := username;
      this.password := password;
      this.secret := secret;
      this.token := token;
      gsUrl := "https://" + host + ":" + "14240";
      restUrl := "https://" + host + ":" + "9000";
      authorization := "Bearer " + ToStr(token);
    }

    /** getToken: like the src connection it sends `this.secret`, which is
        never set, but it hands the token back and leaves the connection as
        it was. */
    method GetToken(response: Response) returns (request: Request, token: Result<Json>)
      ensures request == HttpGet(restUrl + "/requesttoken" + QueryString([("secret", "undefined")]))
      ensures token == TokenOf(response)
    {
      request := HttpGet(restUrl + "/requesttoken?secret=" + ToStr(JUndefined));
      TokenUrlOf(restUrl);
      token := TokenOf(response);
    }

    /** deleteVertices: throws on a missing vertex type; `where` and `limit`
        play no part in the request. */
    method DeleteVertices(vertexType: Json, vertexId: Json, where: Json, limit: Json)
      returns (r: Result<Request>)
      ensures r == DeleteVerticesByTruthyId(restUrl, graphName, vertexType, vertexId)
    {
      if vertexType == JUndefined {
        return Err(VertexTypeError);
      }
      var url := restUrl + "/graph/" + graphName + "/vertices/" + ToStr(vertexType);
      if Truthy(vertexId) {
        url := url + "/" + ToStr(vertexId);
      }
      OptionalSegment(VerticesPath(restUrl, graphName, vertexType), vertexId, true);
      r := Ok(HttpDelete(url));
    }

    /** deleteEdges: throws only when both source arguments are missing. */
    method DeleteEdges(sourceType: Json, sourceId: Json, edgeType: Json, targetType: Json, targetId: Json, limit: Json)
      returns (r: Result<Request>)
      ensures r == DeleteEdgesByTruthyPrefix(restUrl, graphName, sourceType, sourceId, edgeType, targetType, targetId, limit)
    {
      if sourceId == JUndefined && sourceType == JUndefined {
        return Err(SourceError);
      }
      var url := restUrl + "/graph/" + graphName + "/edges/" + ToStr(sourceType) + "/" + ToStr(sourceId);
      url := Narrow(url, edgeType, targetType, targetId, true);
      if Truthy(limit) {
        url := url + "?limit=" + ToStr(limit);
      }
      TruthyEdgesAsBuilt(restUrl, graphName, sourceType, sourceId, edgeType, targetType, targetId, limit);
      r := Ok(HttpDelete(url));
    }
  }

  /** The url the legacy deleteEdges builds step by step. */
  lemma TruthyEdgesAsBuilt(restUrl: string, graph: string, sourceType: Json, sourceId: Json,
                           edgeType: Json, targetType: Json, targetId: Json, limit: Json)
    requires sourceType != JUndefined || sourceId != JUndefined
    ensures DeleteEdgesByTruthyPrefix(restUrl, graph, sourceType, sourceId, edgeType, targetType, targetId, limit)
         == (var path := restUrl + "/graph/" + graph + "/edges/" + ToStr(sourceType) + "/" + ToStr(sourceId)
                         + Segments(TakeWhile([edgeType, targetType, targetId], true));
             Ok(HttpDelete(if Truthy(limit) then path + "?limit=" + ToStr(limit) else path)))
  {
    OptionalLimit(EdgesPath(restUrl, graph, sourceType, sourceId)
                  + Segments(TakeWhile([edgeType, targetType, targetId], true)), limit, true);
  }

  /** The truthy prefix and the defined prefix agree when every piece is
      either missing or truthy. */
  lemma {:induction false} TakeWhileAgrees(xs: seq<Json>)
    requires forall i :: 0 <= i < |xs| ==> IsUndefined(xs[i]) || Truthy(xs[i])
    ensures TakeWhile(xs, true) == TakeWhile(xs, false)
  {
    if xs != [] {
      TakeWhileAgrees(xs[1..]);
    }
  }

  /** With a truthy or missing id the legacy deleteVertices sends what the
      src one sends without filter and limit. */
  lemma AgreesWithoutQuery(restUrl: string, graph: string, vertexType: Json, vertexId: Json, sort: Json)
    requires IsUndefined(vertexId) || Truthy(vertexId)
    ensures DeleteVerticesByTruthyId(restUrl, graph, vertexType, vertexId)
         == Connection.DeleteVerticesRequest(restUrl, graph, vertexType, vertexId, JUndefined, JUndefined, sort)
  {
    TakeWhileAgrees([vertexId]);
    var path := VerticesPath(restUrl, graph, vertexType) + Segments(TakeWhile([vertexId], false));
    assert DeleteVerticesParams(JUndefined, JUndefined, sort) == [];
    assert path + "" == path;
  }

  /** A present but falsy id (0, "", false, null) is dropped: the call then
      deletes every vertex of the type. */
  lemma FalsyIdDeletesWholeType(restUrl: string, graph: string, vertexType: Json, vertexId: Json)
    requires !Truthy(vertexId)
    ensures DeleteVerticesByTruthyId(restUrl, graph, vertexType, vertexId)
         == DeleteVerticesByTruthyId(restUrl, graph, vertexType, JUndefined)
  {
    OptionalSegment(VerticesPath(restUrl, graph, vertexType), vertexId, true);
    OptionalSegment(VerticesPath(restUrl, graph, vertexType), JUndefined, true);
  }

  /** With the source id missing but the source type given, the legacy
      deleteEdges still issues a request: the same one as for a source vertex
      whose id is the text "undefined". */
  lemma MissingSourceIdAccepted(restUrl: string, graph: string, sourceType: Json,
                                edgeType: Json, targetType: Json, targetId: Json, limit: Json)
    requires IsDefined(sourceType)
    ensures DeleteEdgesByTruthyPrefix(restUrl, graph, sourceType, JUndefined, edgeType, targetType, targetId, limit).Ok?
    ensures DeleteEdgesByTruthyPrefix(restUrl, graph, sourceType, JUndefined, edgeType, targetType, targetId, limit)
         == DeleteEdgesByTruthyPrefix(restUrl, graph, sourceType, JStr("undefined"), edgeType, targetType, targetId, limit)
    ensures Connection.DeleteEdgesRequest(restUrl, graph, sourceType, JUndefined, edgeType, targetType, targetId, limit).Err?
  {
    assert ToStr(JUndefined) == ToStr(JStr("undefined"));
  }

  /** With both sources given and every optional argument missing or truthy,
      the legacy deleteEdges sends what the src one sends. */
  lemma EdgesAgreeOnTruthyArguments(restUrl: string, graph: string, sourceType: Json, sourceId: Json,
                                    edgeType: Json, targetType: Json, targetId: Json, limit: Json)
    requires IsDefined(sourceType) && IsDefined(sourceId)
    requires IsUndefined(edgeType) || Truthy(edgeType)
    requires IsUndefined(targetType) || Truthy(targetType)
    requires IsUndefined(targetId) || Truthy(targetId)
    requires IsUndefined(limit) || Truthy(limit)
    ensures DeleteEdgesByTruthyPrefix(restUrl, graph, sourceType, sourceId, edgeType, targetType, targetId, limit)
         == Connection.DeleteEdgesRequest(restUrl, graph, sourceType, sourceId, edgeType, targetType, targetId, limit)
  {
    var xs := [edgeType, targetType, targetId];
    TakeWhileAgrees(xs);
    assert OptionalParam("limit", limit, Truthy(limit)) == OptionalParam("limit", limit, IsDefined(limit));
  }
}

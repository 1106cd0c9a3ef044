/** The GraphQL schema that TGSchema (src/tg_schema.js) generates over a
    TigerGraph graph: the root query and mutation derived from the type
    registry, the resolvers bound to their fields, and the installed-query
    subschemas. A resolver is modelled as a tag saying which operation it
    performs; `Issue` gives the HTTP call it makes (or the error it throws
    before making one) and `Settle` what it yields once the call is answered. */
module Schema {
  import opened Wrappers
  import opened Dict
  import opened Js
  import opened GraphQL
  import opened Connection
  import opened Registry
  import opened Upsert

  datatype Resolver =
    | ListVertices(vertexType: string)
    | GetVertex(vertexType: string)
    | GetEdges(edgeType: string)
    | DeleteVertices(vertexType: string)
    | DeleteVertexById(vertexType: string)
      /** The attributes object is the one registered when the mutation was made. */
    | UpsertVertex(vertexType: string, attributes: Option<GraphQLType>)
    | DeleteEdges(edgeType: string)
    | UpsertEdges(edgeType: string, attributes: Option<GraphQLType>)
    | InstalledQuery(queryName: string)

  /** A schema in the stitched list: the generated one, or one built from
      user type definitions over installed queries. */
  datatype Subschema =
    | Generated(query: Option<OperationSet<Resolver>>, mutation: Option<OperationSet<Resolver>>)
    | Installed(typeDefs: string, resolvers: Dict<Resolver>)

  /** `stitchSchemas({subschemas})` */
  datatype Stitched = Stitched(subschemas: seq<Subschema>)

  const DelVertexResult := ObjectType("delVertexResult", [("v_type", StringType), ("deleted_vertices", IntType)])
  const DelEdgeResult := ObjectType("delEdgeResult", [("e_type", StringType), ("deleted_edges", IntType)])

  const DeleteVerticesFailure := "Fail to delete vertices"
  const DeleteVertexFailure := "Fail to delete vertex by id"
  const DeleteEdgesFailure := "fail to delete edges by source vertex and its id"
  const UpsertVertexFailure := "Fail to upsert vertex"
  const UpsertEdgesFailure := "Fail to upsert edges"
  const QueryNameMissing := "Please provide graphql query name"
  const WrongResultName := "Provide wrong query result name on tgcloud"
  const InstalledQueryFailure := "Fail to run installed query."
  const NoConnection := "TigerGraph connection is not established!"
  const SchemaFetchFailure := "Fail to get Graph Schema from tgcloud."
  const ResultNameArg := "TGQueryResultName"

  /** The names of an attributes object's fields, none without one. */
  function AttributeArgs(attributes: Option<GraphQLType>): Dict<GraphQLType>
  {
    if attributes.Some? then FieldsOf(attributes.value) else []
  }

  /** The HTTP call a resolver makes with the arguments GraphQL hands it, or
      the error the connection throws before making it. */
  function Issue(restUrl: string, graph: string, r: Resolver, args: Dict<Json>): Result<Request>
  {
    match r
    case ListVertices(k) => Ok(VerticesRequest(restUrl, graph, JStr(k), JUndefined))
    case GetVertex(k) => Ok(VerticesRequest(restUrl, graph, JStr(k), Arg(args, "id")))
    case GetEdges(k) =>
      EdgesRequest(restUrl, graph, Arg(args, "sourceVertexType"), Arg(args, "sourceVertexId"),
                   JStr(k), Arg(args, "targetVertexType"), Arg(args, "targetVertexId"))
    case DeleteVertices(k) =>
      DeleteVerticesRequest(restUrl, graph, JStr(k), JUndefined, Arg(args, "filter"), Arg(args, "limit"), Arg(args, "sort"))
    case DeleteVertexById(k) =>
      DeleteVerticesRequest(restUrl, graph, JStr(k), Arg(args, "vertexId"), JUndefined, JUndefined, JUndefined)
    case UpsertVertex(k, a) => Ok(UpsertRequest(restUrl, graph, VertexPayload(k, Keys(AttributeArgs(a)), args)))
    case DeleteEdges(k) =>
      DeleteEdgesRequest(restUrl, graph, Arg(args, "sourceVertexType"), Arg(args, "sourceVertexId"),
                         JStr(k), Arg(args, "targetVertexType"), Arg(args, "targetVertexId"), JUndefined)
    case UpsertEdges(k, a) => Ok(UpsertRequest(restUrl, graph, EdgePayload(k, Keys(AttributeArgs(a)), args)))
    case InstalledQuery(n) => InstalledQueryRequest(restUrl, graph, JStr(n), Remove(args, ResultNameArg))
  }

  /** `res.data.results[0]` */
  function FirstResult(data: Json): Result<Json>
  {
    match Member(data, "results")
    case Err(m) => Err(m)
    case Ok(results) => Element(results, 0)
  }

  /** The delete resolvers' chain: `res.data.error` truthy throws, otherwise
      `res.data.results`; whatever is thrown becomes `failure`. */
  function Checked(response: Response, failure: string): Result<Json>
  {
    match response
    case Failed(_) => Err(failure)
    case Received(data) =>
      match Member(data, "error")
      case Err(_) => Err(failure)
      case Ok(e) => if Truthy(e) then Err(failure) else Member(data, "results")
  }

  /** `res.data.results` */
  function Results(response: Response): Result<Json>
  {
    match response
    case Failed(m) => Err(m)
    case Received(data) => Member(data, "results")
  }

  /** `res.data`, with any failure replaced by `failure`. */
  function DataOr(response: Response, failure: string): Result<Json>
  {
    match response
    case Failed(_) => Err(failure)
    case Received(data) => Ok(data)
  }

  /** The installed-query resolver's chain: `res.data.results[0][name]`,
      where a missing value throws, and every failure's message is prefixed. */
  function QueryResult(response: Response, resultName: Json): Result<Json>
  {
    match response
    case Failed(m) => Err(InstalledQueryFailure + m)
    case Received(data) =>
      match FirstResult(data)
      case Err(m) => Err(InstalledQueryFailure + m)
      case Ok(first) =>
        match Member(first, ToStr(resultName))
        case Err(m) => Err(InstalledQueryFailure + m)
        case Ok(v) => if v == JUndefined then Err(InstalledQueryFailure + WrongResultName) else Ok(v)
  }

  /** What a resolver yields once its call is answered with `response`. */
  function Settle(r: Resolver, args: Dict<Json>, response: Response): Result<Json>
  {
    match r
    case ListVertices(_) => Results(response)
    case GetVertex(_) => if response.Failed? then Err(response.message) else FirstResult(response.data)
    case GetEdges(_) => Results(response)
    case DeleteVertices(_) => Checked(response, DeleteVerticesFailure)
    case DeleteVertexById(_) => Checked(response, DeleteVertexFailure)
    case UpsertVertex(_, _) => DataOr(response, UpsertVertexFailure)
    case DeleteEdges(_) => Checked(response, DeleteEdgesFailure)
    case UpsertEdges(_, _) => DataOr(response, UpsertEdgesFailure)
    case InstalledQuery(_) => QueryResult(response, Arg(args, ResultNameArg))
  }

  /** A resolver run end to end: the call it issues is answered by `response`. */
  function Resolve(restUrl: string, graph: string, r: Resolver, args: Dict<Json>, response: Response): Result<Json>
  {
    match Issue(restUrl, graph, r, args)
    case Err(m) => Err(m)
    case Ok(_) => Settle(r, args, response)
  }

  /** The message every failure of a delete resolver surfaces with. */
  function DeleteFailure(r: Resolver): string
  {
    match r
    case DeleteVertices(_) => DeleteVerticesFailure
    case DeleteVertexById(_) => DeleteVertexFailure
    case _ => DeleteEdgesFailure
  }

  /** A delete resolver whose call was made succeeds exactly when the reply
      has a falsy `error`, with the reply's `results`; every other outcome,
      a transport failure or an application error alike, is the fixed
      message of that resolver. */
  lemma DeleteFailuresFixed(restUrl: string, graph: string, r: Resolver, args: Dict<Json>, response: Response)
    requires r.DeleteVertices? || r.DeleteVertexById? || r.DeleteEdges?
    requires Issue(restUrl, graph, r, args).Ok?
    ensures var out := Resolve(restUrl, graph, r, args, response);
            && (out.Ok? <==> response.Received? && Member(response.data, "error").Ok?
                             && !Truthy(Member(response.data, "error").value))
            && (out.Ok? ==> out == Member(response.data, "results"))
            && (out.Err? ==> out.message == DeleteFailure(r))
  {
  }

  /** Deleting vertices when the store answers `{error: true, message: "x"}`
      fails with the fixed message, not with "x". */
  lemma ApplicationErrorHidden(restUrl: string, graph: string, vertexType: string, args: Dict<Json>)
    ensures Resolve(restUrl, graph, DeleteVertices(vertexType), args,
                    Received(JObject([("error", JBool(true)), ("message", JStr("x"))])))
         == Err(DeleteVerticesFailure)
  {
  }

  /** Get-by-id returns the first instance of the reply's `results`, and
      `undefined` (not an error) when there is none. */
  lemma GetVertexFirstOrUndefined(restUrl: string, graph: string, vertexType: string, args: Dict<Json>, data: Json, results: seq<Json>)
    requires Member(data, "results") == Ok(JArray(results))
    ensures Resolve(restUrl, graph, GetVertex(vertexType), args, Received(data))
         == Ok(if results == [] then JUndefined else results[0])
  {
  }

  /** The installed-query resolver sends every argument but
      `TGQueryResultName` as query parameters, and reads the result under
      the name that argument gives. */
  lemma InstalledQueryStripsResultName(restUrl: string, graph: string, name: string, args: Dict<Json>)
    ensures Issue(restUrl, graph, InstalledQuery(name), args).Ok?
    ensures var req := Issue(restUrl, graph, InstalledQuery(name), args).value;
            && req.HttpQuery? && req.url == restUrl + "/query/" + graph + "/" + name
            && ResultNameArg !in Keys(req.params)
            && (forall k :: k != ResultNameArg ==> (k in Keys(req.params) <==> k in Keys(args)) && Arg(req.params, k) == Arg(args, k))
  {
  }

  /** An installed query fails when the call fails, when the reply has no
      first result, and when that first result lacks the requested name,
      each time with the wrong-name or the underlying message after the
      prefix. */
  lemma InstalledQueryFailures(restUrl: string, graph: string, name: string, args: Dict<Json>, response: Response)
    ensures response.Failed? ==>
              Resolve(restUrl, graph, InstalledQuery(name), args, response) == Err(InstalledQueryFailure + response.message)
    ensures response.Received? && FirstResult(response.data).Err? ==>
              Resolve(restUrl, graph, InstalledQuery(name), args, response) == Err(InstalledQueryFailure + FirstResult(response.data).message)
    ensures (response.Received? && FirstResult(response.data).Ok? && FirstResult(response.data).value.JObject?
             && Get(FirstResult(response.data).value.members, ToStr(Arg(args, ResultNameArg))).None?) ==>
              Resolve(restUrl, graph, InstalledQuery(name), args, response) == Err(InstalledQueryFailure + WrongResultName)
  {
    InstalledQueryStripsResultName(restUrl, graph, name, args);
  }

  /** An installed query succeeds exactly when the reply's first result
      holds a defined value under the requested name, and yields that
      value. */
  lemma InstalledQueryAnswers(restUrl: string, graph: string, name: string, args: Dict<Json>, response: Response)
    ensures var out := Resolve(restUrl, graph, InstalledQuery(name), args, response);
            var key := ToStr(Arg(args, ResultNameArg));
            && (out.Ok? <==> response.Received? && FirstResult(response.data).Ok?
                             && Member(FirstResult(response.data).value, key).Ok?
                             && Member(FirstResult(response.data).value, key).value != JUndefined)
            && (out.Ok? ==> out == Member(FirstResult(response.data).value, key))
    ensures forall v: Json ::
              (response.Received? && FirstResult(response.data).Ok? && FirstResult(response.data).value.JObject?
               && Get(FirstResult(response.data).value.members, ToStr(Arg(args, ResultNameArg))) == Some(v) && v != JUndefined) ==>
                Resolve(restUrl, graph, InstalledQuery(name), args, response) == Ok(v)
  {
    InstalledQueryStripsResultName(restUrl, graph, name, args);
  }

  /** The root-query fields of a vertex type V: `Vs` lists its vertices,
      `V` fetches one by a required String `id`. */
  function VertexQueries(k: string, t: GraphQLType): seq<(string, Operation<Resolver>)>
  {
    [(k + "s", Operation(ListOf(t), [], ListVertices(k))),
     (k, Operation(t, [("id", NonNullOf(StringType))], GetVertex(k)))]
  }

  /** The arguments naming an edge's two ends, typed by its endpoint id
      types; the source ones required when `required`. */
  function EdgeArgs(ends: Endpoints, required: bool): Dict<GraphQLType>
  {
    [("sourceVertexType", if required then NonNullOf(StringType) else StringType),
     ("sourceVertexId", if required then NonNullOf(ends.fromIdType) else ends.fromIdType),
     ("targetVertexType", StringType),
     ("targetVertexId", ends.toIdType)]
  }

  /** The root-query field of an edge type E: the edges from a source,
      optionally narrowed to a target. */
  function EdgeQueries(k: string, t: GraphQLType, ends: Endpoints): seq<(string, Operation<Resolver>)>
  {
    [(k, Operation(ListOf(t), EdgeArgs(ends, true), GetEdges(k)))]
  }

  /** Every edge type has its endpoints recorded. */
  predicate HasEndpoints(es: Dict<GraphQLType>, endpoints: map<string, Endpoints>)
  {
    forall i :: 0 <= i < |es| ==> es[i].0 in endpoints
  }

  function VertexQueryBlocks(vs: Dict<GraphQLType>): seq<seq<(string, Operation<Resolver>)>>
  {
    seq(|vs|, i requires 0 <= i < |vs| => VertexQueries(vs[i].0, vs[i].1))
  }

  function EdgeQueryBlocks(es: Dict<GraphQLType>, endpoints: map<string, Endpoints>): seq<seq<(string, Operation<Resolver>)>>
    requires HasEndpoints(es, endpoints)
  {
    seq(|es|, i requires 0 <= i < |es| => EdgeQueries(es[i].0, es[i].1, endpoints[es[i].0]))
  }

  /** generateRootQuery: the vertex fields in registration order, then the
      edge fields, each assigned over any field of the same name. */
  function RootQuery(tb: Tables): OperationSet<Resolver>
    requires HasEndpoints(tb.edges, tb.endpoints)
  {
    OperationSet("rootQuery", PutAll(PutAll([], Concat(VertexQueryBlocks(tb.vertices))),
                                     Concat(EdgeQueryBlocks(tb.edges, tb.endpoints))))
  }

  /** All root-query entries in assignment order. */
  function RootQueryEntries(tb: Tables): seq<(string, Operation<Resolver>)>
    requires HasEndpoints(tb.edges, tb.endpoints)
  {
    Concat(VertexQueryBlocks(tb.vertices)) + Concat(EdgeQueryBlocks(tb.edges, tb.endpoints))
  }

  /** The mutation fields of a vertex type V: delete all (`delVs`), delete
      by id (`delVById`) and upsert (`upsertVertexV`), whose arguments are
      the id and the fields of V's attributes object. */
  function VertexMutations(k: string, t: GraphQLType, a: Option<GraphQLType>): seq<(string, Operation<Resolver>)>
  {
    [("del" + k + "s", Operation(DelVertexResult, [("filter", StringType), ("limit", IntType), ("sort", StringType)],
                                 DeleteVertices(k))),
     ("del" + k + "ById", Operation(DelVertexResult, [("vertexId", NonNullOf(FieldType(t, "v_id")))], DeleteVertexById(k))),
     ("upsertVertex" + k, Operation(t, PutAll([("vertexId", FieldType(t, "v_id"))], AttributeArgs(a)), UpsertVertex(k, a)))]
  }

  /** The mutation fields of an edge type E: delete (`delEdgesE`) and upsert
      (`upsertEdgesE`), whose arguments are the ends and the fields of E's
      attributes object. */
  function EdgeMutations(k: string, t: GraphQLType, ends: Endpoints, a: Option<GraphQLType>): seq<(string, Operation<Resolver>)>
  {
    [("delEdges" + k, Operation(ListOf(DelEdgeResult), EdgeArgs(ends, true), DeleteEdges(k))),
     ("upsertEdges" + k, Operation(t, PutAll(EdgeArgs(ends, false), AttributeArgs(a)), UpsertEdges(k, a)))]
  }

  /** `attributesObjectDict[k]` */
  function AttributesOf(attributes: map<string, GraphQLType>, k: string): Option<GraphQLType>
  {
    if k in attributes then Some(attributes[k]) else None
  }

  function VertexMutationBlocks(vs: Dict<GraphQLType>, attributes: map<string, GraphQLType>)
    : seq<seq<(string, Operation<Resolver>)>>
  {
    seq(|vs|, i requires 0 <= i < |vs| => VertexMutations(vs[i].0, vs[i].1, AttributesOf(attributes, vs[i].0)))
  }

  function EdgeMutationBlocks(es: Dict<GraphQLType>, endpoints: map<string, Endpoints>, attributes: map<string, GraphQLType>)
    : seq<seq<(string, Operation<Resolver>)>>
    requires HasEndpoints(es, endpoints)
  {
    seq(|es|, i requires 0 <= i < |es| => EdgeMutations(es[i].0, es[i].1, endpoints[es[i].0], AttributesOf(attributes, es[i].0)))
  }

  /** createMutation: the vertex fields in registration order, then the edge fields. */
  function Mutation(tb: Tables): OperationSet<Resolver>
    requires HasEndpoints(tb.edges, tb.endpoints)
  {
    OperationSet("mutation", PutAll(PutAll([], Concat(VertexMutationBlocks(tb.vertices, tb.attributes))),
                                    Concat(EdgeMutationBlocks(tb.edges, tb.endpoints, tb.attributes))))
  }

  /** All mutation entries in assignment order. */
  function MutationEntries(tb: Tables): seq<(string, Operation<Resolver>)>
    requires HasEndpoints(tb.edges, tb.endpoints)
  {
    Concat(VertexMutationBlocks(tb.vertices, tb.attributes)) + Concat(EdgeMutationBlocks(tb.edges, tb.endpoints, tb.attributes))
  }

  lemma WellFormedHasEndpoints(tb: Tables)
    requires WellFormed(tb)
    ensures HasEndpoints(tb.edges, tb.endpoints)
  {
    forall i | 0 <= i < |tb.edges| ensures tb.edges[i].0 in tb.endpoints {
      assert Keys(tb.edges)[i] == tb.edges[i].0;
    }
  }

  /** When no two root-query entries share a name, each vertex type V has
      `Vs`, listing V with no arguments, and `V`, fetching one V by a
      required String `id`. */
  lemma RootQueryVertexFields(tb: Tables, i: nat)
    requires HasEndpoints(tb.edges, tb.endpoints) && i < |tb.vertices|
    requires NoDup(Keys(RootQueryEntries(tb)))
    ensures var (k, t) := tb.vertices[i];
            && Get(RootQuery(tb).fields, k + "s") == Some(Operation(ListOf(t), [], ListVertices(k)))
            && Get(RootQuery(tb).fields, k) == Some(Operation(t, [("id", NonNullOf(StringType))], GetVertex(k)))
  {
    var bs := VertexQueryBlocks(tb.vertices);
    var es := Concat(EdgeQueryBlocks(tb.edges, tb.endpoints));
    assert bs[i] == VertexQueries(tb.vertices[i].0, tb.vertices[i].1);
    BlockEntryWins([], bs, es, 2, i, 0);
    BlockEntryWins([], bs, es, 2, i, 1);
  }

  /** Each edge type E has the field `E`, typed as a list of E with the
      source arguments required, and it replaces any vertex field named E. */
  lemma RootQueryEdgeField(tb: Tables, i: nat)
    requires HasEndpoints(tb.edges, tb.endpoints) && i < |tb.edges| && NoDup(Keys(tb.edges))
    ensures var (k, t) := tb.edges[i];
            Get(RootQuery(tb).fields, k) == Some(Operation(ListOf(t), EdgeArgs(tb.endpoints[k], true), GetEdges(k)))
  {
    var bs := EdgeQueryBlocks(tb.edges, tb.endpoints);
    var vs := Concat(VertexQueryBlocks(tb.vertices));
    ConcatAt(bs, 1, i, 0);
    var es := Concat(bs);
    forall j | i < j < |es| ensures es[j].0 != es[i].0 {
      ConcatAt(bs, 1, j, 0);
      assert Keys(tb.edges)[i] == tb.edges[i].0 && Keys(tb.edges)[j] == tb.edges[j].0;
    }
    LastWriteWins(PutAll([], vs), es, i);
  }

  /** When no two mutation entries share a name, each vertex type V has
      `delVs` (filter, limit, sort), `delVById` (a required id of V's id
      type) and `upsertVertexV` (the id and V's attribute fields), each
      bound to its own resolver. */
  lemma MutationVertexFields(tb: Tables, i: nat)
    requires HasEndpoints(tb.edges, tb.endpoints) && i < |tb.vertices|
    requires NoDup(Keys(MutationEntries(tb)))
    ensures var (k, t) := tb.vertices[i];
            var a := AttributesOf(tb.attributes, k);
            && Get(Mutation(tb).fields, "del" + k + "s")
               == Some(Operation(DelVertexResult, [("filter", StringType), ("limit", IntType), ("sort", StringType)],
                                 DeleteVertices(k)))
            && Get(Mutation(tb).fields, "del" + k + "ById")
               == Some(Operation(DelVertexResult, [("vertexId", NonNullOf(FieldType(t, "v_id")))], DeleteVertexById(k)))
            && Get(Mutation(tb).fields, "upsertVertex" + k)
               == Some(Operation(t, PutAll([("vertexId", FieldType(t, "v_id"))], AttributeArgs(a)), UpsertVertex(k, a)))
  {
    var bs := VertexMutationBlocks(tb.vertices, tb.attributes);
    var es := Concat(EdgeMutationBlocks(tb.edges, tb.endpoints, tb.attributes));
    assert bs[i] == VertexMutations(tb.vertices[i].0, tb.vertices[i].1, AttributesOf(tb.attributes, tb.vertices[i].0));
    BlockEntryWins([], bs, es, 3, i, 0);
    BlockEntryWins([], bs, es, 3, i, 1);
    BlockEntryWins([], bs, es, 3, i, 2);
  }

  /** Distinct edge type names give distinct edge mutation names: `delEdges`
      and `upsertEdges` differ in their first letter. */
  lemma EdgeMutationNamesDistinct(tb: Tables)
    requires HasEndpoints(tb.edges, tb.endpoints) && NoDup(Keys(tb.edges))
    ensures NoDup(Keys(Concat(EdgeMutationBlocks(tb.edges, tb.endpoints, tb.attributes))))
  {
    var bs := EdgeMutationBlocks(tb.edges, tb.endpoints, tb.attributes);
    var xs := Concat(bs);
    forall p, q | 0 <= p < q < |xs| ensures Keys(xs)[p] != Keys(xs)[q] {
      var i1, j1 := ConcatIndex(bs, 2, p);
      var i2, j2 := ConcatIndex(bs, 2, q);
      var k1, k2 := tb.edges[i1].0, tb.edges[i2].0;
      var n1 := if j1 == 0 then "delEdges" + k1 else "upsertEdges" + k1;
      var n2 := if j2 == 0 then "delEdges" + k2 else "upsertEdges" + k2;
      assert Keys(xs)[p] == n1 && Keys(xs)[q] == n2;
      if j1 != j2 {
        assert n1[0] != n2[0];
      } else {
        assert i1 != i2;
        assert Keys(tb.edges)[i1] == k1 && Keys(tb.edges)[i2] == k2;
        var m := if j1 == 0 then 8 else 11;
        assert n1[m..] == k1 && n2[m..] == k2;
      }
    }
  }

  /** Each edge type E has `delEdgesE` (the ends, source required) and
      `upsertEdgesE` (the ends and E's attribute fields); as edges are
      assigned last, no vertex field of the same name survives them. */
  lemma MutationEdgeFields(tb: Tables, i: nat)
    requires HasEndpoints(tb.edges, tb.endpoints) && i < |tb.edges| && NoDup(Keys(tb.edges))
    ensures var (k, t) := tb.edges[i];
            var a := AttributesOf(tb.attributes, k);
            && Get(Mutation(tb).fields, "delEdges" + k)
               == Some(Operation(ListOf(DelEdgeResult), EdgeArgs(tb.endpoints[k], true), DeleteEdges(k)))
            && Get(Mutation(tb).fields, "upsertEdges" + k)
               == Some(Operation(t, PutAll(EdgeArgs(tb.endpoints[k], false), AttributeArgs(a)), UpsertEdges(k, a)))
  {
    var bs := EdgeMutationBlocks(tb.edges, tb.endpoints, tb.attributes);
    var d := PutAll([], Concat(VertexMutationBlocks(tb.vertices, tb.attributes)));
    assert bs[i] == EdgeMutations(tb.edges[i].0, tb.edges[i].1, tb.endpoints[tb.edges[i].0],
                                  AttributesOf(tb.attributes, tb.edges[i].0));
    EdgeMutationNamesDistinct(tb);
    LastBlocksWin(d, bs, 2, i, 0);
    LastBlocksWin(d, bs, 2, i, 1);
  }

  /** buildResolvers: one installed-query resolver per name, a later
      duplicate replacing an earlier one. */
  function QueryResolvers(names: seq<string>): Dict<Resolver>
  {
    PutAll([], seq(|names|, i requires 0 <= i < |names| => (names[i], InstalledQuery(names[i]))))
  }

  /** Every name gets the resolver running the installed query of that
      name, and no other field has one. */
  lemma QueryResolversBound(names: seq<string>)
    ensures forall i :: 0 <= i < |names| ==> Get(QueryResolvers(names), names[i]) == Some(InstalledQuery(names[i]))
    ensures forall k :: k in Keys(QueryResolvers(names)) <==> k in names
  {
    var xs := seq(|names|, i requires 0 <= i < |names| => (names[i], InstalledQuery(names[i])));
    PutAllConsistent([], xs);
    assert Keys(xs) == names;
    forall k ensures k in Keys(PutAll([], xs)) <==> k in names {
      PutAllKeys([], xs, k);
    }
  }

  /** The callback of autoGeneratedSchema over a fetched schema document:
      UDTs, then vertex types, then edge types, stopping at the first
      failure with what was registered so far. Missing vertex or edge types
      throw at their `map`. */
  function Generate(tb: Tables, doc: SchemaDocument): (Tables, Outcome)
  {
    var t0 := if doc.udts.None? then tb else tb.(udts := RegisterUdts(tb.udts, doc.udts.value));
    if doc.vertexTypes.None? then (t0, Fail(ReadError("undefined", "map")))
    else
      var (t1, o1) := RegisterVertices(t0, doc.vertexTypes.value);
      if o1.Fail? then (t1, o1)
      else if doc.edgeTypes.None? then (t1, Fail(ReadError("undefined", "map")))
      else RegisterEdges(t1, doc.edgeTypes.value)
  }

  /** Generating from any document keeps the registry well formed. */
  lemma GenerateWellFormed(tb: Tables, doc: SchemaDocument)
    requires WellFormed(tb)
    ensures WellFormed(Generate(tb, doc).0)
  {
    var t0 := if doc.udts.None? then tb else tb.(udts := RegisterUdts(tb.udts, doc.udts.value));
    assert Values(t0.vertices) == Values(tb.vertices);
    if doc.vertexTypes.Some? {
      RegisterVerticesWellFormed(t0, doc.vertexTypes.value);
      if doc.edgeTypes.Some? {
        RegisterEdgesWellFormed(RegisterVertices(t0, doc.vertexTypes.value).0, doc.edgeTypes.value);
      }
    }
  }

  /** A document whose edge types are missing fails after its UDTs and all
      of its vertex types are registered: the registry keeps them. */
  lemma MissingEdgeTypesKeepVertices(tb: Tables, doc: SchemaDocument)
    requires doc.vertexTypes.Some? && doc.edgeTypes.None? && doc.udts.Some?
    requires RegisterVertices(tb.(udts := RegisterUdts(tb.udts, doc.udts.value)), doc.vertexTypes.value).1 == Pass
    ensures Generate(tb, doc).1 == Fail(ReadError("undefined", "map"))
    ensures Generate(tb, doc).0.udts == RegisterUdts(tb.udts, doc.udts.value)
    ensures forall i :: 0 <= i < |doc.vertexTypes.value| ==> doc.vertexTypes.value[i].name in Keys(Generate(tb, doc).0.vertices)
  {
    var t0 := tb.(udts := RegisterUdts(tb.udts, doc.udts.value));
    var vs := doc.vertexTypes.value;
    assert Generate(tb, doc) == (RegisterVertices(t0, vs).0, Fail(ReadError("undefined", "map")));
    AllVerticesRegistered(t0, vs);
  }

  class TGSchema {
    /** The connection, `undefined` once a caller clears it. */
    var conn: TigerGraphConnection?
    /** The vertex, edge, UDT, endpoint and attribute dictionaries. */
    const registry: TypeRegistry
    /** `TGSubSchema` */
    var subschemas: seq<Subschema>
    var graphQLSchema: Option<Stitched>
    var rootQuery: Option<OperationSet<Resolver>>
    var mutation: Option<OperationSet<Resolver>>

    ghost predicate Valid()
      reads this, registry
    {
      registry.Valid()
    }

    constructor (host: string, graphName: string, username: string, password: string, secret: Json, token: Json)
      ensures conn != null && fresh(conn) && conn.restUrl == RestUrl(host) && conn.gsUrl == GsUrl(host)
      ensures conn.graphName == graphName
      ensures fresh(registry) && registry.Snapshot() == EmptyTables
      ensures subschemas == [] && graphQLSchema == None && rootQuery == None && mutation == None
      ensures Valid()
    {
      conn := new TigerGraphConnection(host, graphName, username, password, secret, token);
      registry := new TypeRegistry();
      subschemas := [];
      graphQLSchema := None;
      rootQuery := None;
      mutation := None;
    }

    /** generateRootQuery */
    method GenerateRootQuery()
      requires Valid()
      modifies this`rootQuery
      ensures HasEndpoints(registry.edges, registry.endpoints)
      ensures rootQuery == Some(RootQuery(registry.Snapshot()))
    {
      WellFormedHasEndpoints(registry.Snapshot());
      var vs := registry.vertices;
      ghost var vb := VertexQueryBlocks(vs);
      var fields: Dict<Operation<Resolver>> := [];
      var i := 0;
      while i < |vs|
        invariant 0 <= i <= |vs|
        invariant fields == PutAll([], Concat(vb[..i]))
      {
        var (key, value) := vs[i];
        PutAllBlocksStep([], vb, i);
        PutAllPair(fields, vb[i][0], vb[i][1]);
        fields := Put(fields, key + "s", Operation(ListOf(value), [], ListVertices(key)));
        fields := Put(fields, key, Operation(value, [("id", NonNullOf(StringType))], GetVertex(key)));
        i := i + 1;
      }
      assert vb[..i] == vb;
      var es := registry.edges;
      ghost var eb := EdgeQueryBlocks(es, registry.endpoints);
      ghost var base := fields;
      var j := 0;
      while j < |es|
        invariant 0 <= j <= |es|
        invariant fields == PutAll(base, Concat(eb[..j]))
      {
        var (key, value) := es[j];
        var ends := registry.endpoints[key];
        var args := [("sourceVertexType", NonNullOf(StringType)), ("sourceVertexId", NonNullOf(ends.fromIdType)),
                     ("targetVertexType", StringType), ("targetVertexId", ends.toIdType)];
        PutAllBlocksStep(base, eb, j);
        assert [eb[j][0]][..0] == [];
        fields := Put(fields, key, Operation(ListOf(value), args, GetEdges(key)));
        j := j + 1;
      }
      assert eb[..j] == eb;
      rootQuery := Some(OperationSet("rootQuery", fields));
    }

    /** The upsert arguments: `base`, then one per field of the attributes
        object, typed as that field. */
    static method WithAttributeArgs(base: Dict<GraphQLType>, attributes: Option<GraphQLType>)
      returns (args: Dict<GraphQLType>)
      ensures args == PutAll(base, AttributeArgs(attributes))
    {
      args := base;
      if attributes.None? {
        return;
      }
      var att := FieldsOf(attributes.value);
      var i := 0;
      while i < |att|
        invariant 0 <= i <= |att|
        invariant args == PutAll(base, att[..i])
      {
        PutAllSnoc(base, att, i);
        args := Put(args, att[i].0, att[i].1);
        i := i + 1;
      }
      assert att[..i] == att;
    }

    /** createMutation */
    method CreateMutation() returns (m: OperationSet<Resolver>)
      requires Valid()
      ensures HasEndpoints(registry.edges, registry.endpoints)
      ensures m == Mutation(registry.Snapshot())
    {
      WellFormedHasEndpoints(registry.Snapshot());
      var fields := AddVertexMutations();
      fields := AddEdgeMutations(fields);
      m := OperationSet("mutation", fields);
    }

    /** The vertex part of createMutation. */
    method AddVertexMutations() returns (fields: Dict<Operation<Resolver>>)
      ensures fields == PutAll([], Concat(VertexMutationBlocks(registry.vertices, registry.attributes)))
    {
      var vs := registry.vertices;
      ghost var vb := VertexMutationBlocks(vs, registry.attributes);
      fields := [];
      var i := 0;
      while i < |vs|
        invariant 0 <= i <= |vs|
        invariant fields == PutAll([], Concat(vb[..i]))
      {
        var (key, value) := vs[i];
        var attributes := AttributesOf(registry.attributes, key);
        var upsertArgs := WithAttributeArgs([("vertexId", FieldType(value, "v_id"))], attributes);
        PutAllBlocksStep([], vb, i);
        PutAllTriple(fields, vb[i][0], vb[i][1], vb[i][2]);
        fields := Put(fields, "del" + key + "s",
                      Operation(DelVertexResult, [("filter", StringType), ("limit", IntType), ("sort", StringType)],
                                DeleteVertices(key)));
        fields := Put(fields, "del" + key + "ById",
                      Operation(DelVertexResult, [("vertexId", NonNullOf(FieldType(value, "v_id")))], DeleteVertexById(key)));
        fields := Put(fields, "upsertVertex" + key, Operation(value, upsertArgs, UpsertVertex(key, attributes)));
        i := i + 1;
      }
      assert vb[..i] == vb;
    }

    /** The edge part of createMutation, assigned over the vertex part. */
    method AddEdgeMutations(base: Dict<Operation<Resolver>>) returns (fields: Dict<Operation<Resolver>>)
      requires HasEndpoints(registry.edges, registry.endpoints)
      ensures fields == PutAll(base, Concat(EdgeMutationBlocks(registry.edges, registry.endpoints, registry.attributes)))
    {
      var es := registry.edges;
      ghost var eb := EdgeMutationBlocks(es, registry.endpoints, registry.attributes);
      fields := base;
      var j := 0;
      while j < |es|
        invariant 0 <= j <= |es|
        invariant fields == PutAll(base, Concat(eb[..j]))
      {
        var (key, value) := es[j];
        var ends := registry.endpoints[key];
        var attributes := AttributesOf(registry.attributes, key);
        var delArgs := [("sourceVertexType", NonNullOf(StringType)), ("sourceVertexId", NonNullOf(ends.fromIdType)),
                        ("targetVertexType", StringType), ("targetVertexId", ends.toIdType)];
        var upsertArgs := WithAttributeArgs([("sourceVertexType", StringType), ("sourceVertexId", ends.fromIdType),
                                             ("targetVertexType", StringType), ("targetVertexId", ends.toIdType)],
                                            attributes);
        PutAllBlocksStep(base, eb, j);
        PutAllPair(fields, eb[j][0], eb[j][1]);
        fields := Put(fields, "delEdges" + key, Operation(ListOf(DelEdgeResult), delArgs, DeleteEdges(key)));
        fields := Put(fields, "upsertEdges" + key, Operation(value, upsertArgs, UpsertEdges(key, attributes)));
        j := j + 1;
      }
      assert eb[..j] == eb;
    }

    /** buildResolvers: the `Query` resolvers, or the error thrown when no
        names are given. */
    method BuildResolvers(queryNames: Option<seq<string>>) returns (r: Result<Dict<Resolver>>)
      ensures queryNames.None? ==> r == Err(QueryNameMissing)
      ensures queryNames.Some? ==> r == Ok(QueryResolvers(queryNames.value))
    {
      if queryNames.None? {
        return Err(QueryNameMissing);
      }
      var names := queryNames.value;
      ghost var xs := seq(|names|, i requires 0 <= i < |names| => (names[i], InstalledQuery(names[i])));
      var query: Dict<Resolver> := [];
      var i := 0;
      while i < |names|
        invariant 0 <= i <= |names|
        invariant query == PutAll([], xs[..i])
      {
        PutAllSnoc([], xs, i);
        query := Put(query, names[i], InstalledQuery(names[i]));
        i := i + 1;
      }
      assert xs[..i] == xs;
      r := Ok(query);
    }

    /** buildInstalledQuerySchema: adds a subschema of the given type
        definitions over installed-query resolvers and restitches. */
    method BuildInstalledQuerySchema(typeDefs: string, queryNames: Option<seq<string>>) returns (out: Outcome)
      modifies this`subschemas, this`graphQLSchema
      ensures conn == null ==> out == Fail(NoConnection)
      ensures conn != null && queryNames.None? ==> out == Fail(QueryNameMissing)
      ensures out.Fail? ==> subschemas == old(subschemas) && graphQLSchema == old(graphQLSchema)
      ensures out == Pass <==> conn != null && queryNames.Some?
      ensures out == Pass ==> subschemas == old(subschemas) + [Installed(typeDefs, QueryResolvers(queryNames.value))]
                              && graphQLSchema == Some(Stitched(subschemas))
    {
      if conn == null {
        return Fail(NoConnection);
      }
      var resolvers := BuildResolvers(queryNames);
      if resolvers.Err? {
        return Fail(resolvers.message);
      }
      subschemas := subschemas + [Installed(typeDefs, resolvers.value)];
      graphQLSchema := Some(Stitched(subschemas));
      out := Pass;
    }

    /** autoGeneratedSchema, given the reply to the schema request (an
        error for a failed call or an unreadable reply). The root query and
        mutation are built only the first time and kept afterwards. */
    method AutoGeneratedSchema(reply: Result<SchemaDocument>) returns (request: Option<Request>, out: Outcome)
      requires Valid()
      modifies this, registry
      ensures Valid()
      ensures conn == null ==> request == None && out == Fail(NoConnection)
      ensures conn != null ==> request == Some(SchemaRequest(conn.gsUrl, conn.graphName))
      ensures conn == null || reply.Err? ==> out.Fail? && registry.Snapshot() == old(registry.Snapshot())
      ensures conn != null && reply.Ok? ==> registry.Snapshot() == Generate(old(registry.Snapshot()), reply.value).0
      ensures conn != null ==>
                out == if reply.Ok? && Generate(old(registry.Snapshot()), reply.value).1 == Pass then Pass
                       else Fail(SchemaFetchFailure)
      ensures out.Fail? ==> subschemas == old(subschemas) && graphQLSchema == old(graphQLSchema)
                            && rootQuery == old(rootQuery) && mutation == old(mutation)
      ensures out == Pass ==>
                && HasEndpoints(registry.edges, registry.endpoints)
                && rootQuery == (if old(rootQuery).None? then Some(RootQuery(registry.Snapshot())) else old(rootQuery))
                && mutation == (if old(mutation).None? then Some(Mutation(registry.Snapshot())) else old(mutation))
                && subschemas == old(subschemas) + [Generated(rootQuery, mutation)]
                && graphQLSchema == Some(Stitched(subschemas))
      ensures conn == old(conn)
    {
      if conn == null {
        return None, Fail(NoConnection);
      }
      request := Some(SchemaRequest(conn.gsUrl, conn.graphName));
      if reply.Err? {
        return request, Fail(SchemaFetchFailure);
      }
      out := Register(reply.value);
      if out.Fail? {
        return request, Fail(SchemaFetchFailure);
      }
      Publish();
    }

    /** The registration callback of autoGeneratedSchema. */
    method Register(doc: SchemaDocument) returns (out: Outcome)
      requires Valid()
      modifies registry
      ensures Valid()
      ensures (registry.Snapshot(), out) == Generate(old(registry.Snapshot()), doc)
    {
      ghost var start := registry.Snapshot();
      GenerateWellFormed(start, doc);
      registry.CreateUdtGraphQLObject(doc.udts);
      assert Values(registry.vertices) == Values(start.vertices);
      out := registry.GenerateVertexObjects(doc.vertexTypes);
      if out.Pass? {
        out := registry.GenerateEdgeObjects(doc.edgeTypes);
      }
    }

    /** The rest of autoGeneratedSchema: the root query and mutation made
        if not made before, a generated subschema added, and everything
        restitched. */
    method Publish()
      requires Valid()
      modifies this`rootQuery, this`mutation, this`subschemas, this`graphQLSchema
      ensures HasEndpoints(registry.edges, registry.endpoints)
      ensures rootQuery == if old(rootQuery).None? then Some(RootQuery(registry.Snapshot())) else old(rootQuery)
      ensures mutation == if old(mutation).None? then Some(Mutation(registry.Snapshot())) else old(mutation)
      ensures subschemas == old(subschemas) + [Generated(rootQuery, mutation)]
      ensures graphQLSchema == Some(Stitched(subschemas))
    {
      WellFormedHasEndpoints(registry.Snapshot());
      if rootQuery.None? {
        GenerateRootQuery();
      }
      if mutation.None? {
        var m := CreateMutation();
        mutation := Some(m);
      }
      subschemas := subschemas + [Generated(rootQuery, mutation)];
      graphQLSchema := Some(Stitched(subschemas));
    }
  }
}

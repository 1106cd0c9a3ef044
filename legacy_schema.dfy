/** The earlier TGSchema (tg_schema.js at the repository root). Its type
    builders are the same code as in src/tg_schema.js and are modelled by
    module Registry; this module holds what differs: the root query and
    mutation it generates, the resolvers bound to them, which run over the
    earlier connection, and generateSchema, which builds a single schema
    once and lets failures through with their own message. */
module LegacySchema {
  import opened Wrappers
  import opened Dict
  import opened Js
  import opened GraphQL
  import opened Connection
  import opened LegacyConnection
  import opened Registry
  import opened Upsert
  import Schema

  datatype Resolver =
    | ListVertices(vertexType: string)
    | GetVertex(vertexType: string)
    | ListEdges(edgeType: string)
    | GetEdge(edgeType: string)
    | DeleteVertices(vertexType: string)
    | DeleteVertexById(vertexType: string)
    | UpsertVertex(vertexType: string, attributes: Option<GraphQLType>)
    | DeleteEdgesFromSource(edgeType: string)
    | DeleteEdgesBetween(edgeType: string)
    | UpsertEdges(edgeType: string, attributes: Option<GraphQLType>)

  /** `new GraphQLSchema({query, mutation})` */
  datatype Built = Built(query: Option<OperationSet<Resolver>>, mutation: Option<OperationSet<Resolver>>)

  /** The HTTP call a resolver makes with the arguments GraphQL hands it, or
      the error the connection throws before making it. */
  function Issue(restUrl: string, graph: string, r: Resolver, args: Dict<Json>): Result<Request>
  {
    match r
    case ListVertices(k) => Ok(VerticesRequest(restUrl, graph, JStr(k), JUndefined))
    case GetVertex(k) => Ok(VerticesRequest(restUrl, graph, JStr(k), Arg(args, "id")))
    case ListEdges(k) =>
      EdgesRequest(restUrl, graph, Arg(args, "sourceVertexType"), Arg(args, "sourceVertexId"),
                   JStr(k), JUndefined, JUndefined)
    case GetEdge(k) =>
      EdgesRequest(restUrl, graph, Arg(args, "sourceVertexType"), Arg(args, "sourceVertexId"),
                   JStr(k), Arg(args, "targetVertexType"), Arg(args, "targetVertexId"))
    case DeleteVertices(k) => DeleteVerticesByTruthyId(restUrl, graph, JStr(k), JUndefined)
    case DeleteVertexById(k) => DeleteVerticesByTruthyId(restUrl, graph, JStr(k), Arg(args, "id"))
    case UpsertVertex(k, a) => Ok(UpsertRequest(restUrl, graph, VertexPayload(k, Keys(Schema.AttributeArgs(a)), args)))
    case DeleteEdgesFromSource(k) =>
      DeleteEdgesByTruthyPrefix(restUrl, graph, Arg(args, "sourceVertex"), Arg(args, "sourceVertexId"),
                                JStr(k), JUndefined, JUndefined, JUndefined)
    case DeleteEdgesBetween(k) =>
      DeleteEdgesByTruthyPrefix(restUrl, graph, Arg(args, "sourceVertex"), Arg(args, "sourceVertexId"),
                                JStr(k), Arg(args, "targetVertex"), Arg(args, "targetVertexId"), JUndefined)
    case UpsertEdges(k, a) => Ok(UpsertRequest(restUrl, graph, EdgePayload(k, Keys(Schema.AttributeArgs(a)), args)))
  }

  /** What a resolver yields once its call is answered with `response`. The
      edge deletions do not return their promise, so they yield `undefined`
      whatever the answer. */
  function Settle(r: Resolver, response: Response): Result<Json>
  {
    match r
    case ListVertices(_) => Schema.Results(response)
    case GetVertex(_) => if response.Failed? then Err(response.message) else Schema.FirstResult(response.data)
    case ListEdges(_) => Schema.Results(response)
    case GetEdge(_) => if response.Failed? then Err(response.message) else Schema.FirstResult(response.data)
    case DeleteVertices(_) => Schema.DataOr(response, Schema.DeleteVerticesFailure)
    case DeleteVertexById(_) => Schema.DataOr(response, Schema.DeleteVertexFailure)
    case UpsertVertex(_, _) => Schema.DataOr(response, Schema.UpsertVertexFailure)
    case DeleteEdgesFromSource(_) => Ok(JUndefined)
    case DeleteEdgesBetween(_) => Ok(JUndefined)
    case UpsertEdges(_, _) => Schema.DataOr(response, Schema.UpsertEdgesFailure)
  }

  /** A resolver run end to end: the call it issues is answered by `response`. */
  function Resolve(restUrl: string, graph: string, r: Resolver, args: Dict<Json>, response: Response): Result<Json>
  {
    match Issue(restUrl, graph, r, args)
    case Err(m) => Err(m)
    case Ok(_) => Settle(r, response)
  }

  /** The arguments `delVById` declares; GraphQL hands a resolver no others. */
  const ByIdArgs: seq<string> := ["vertex_id", "filter", "limit"]

  /** `delVById` reads `id`, which it does not declare: with the arguments
      GraphQL can hand it, it issues the same call as `delVs`, deleting
      every vertex of the type, and reports the reply as it does. */
  lemma DeleteByIdDeletesAll(restUrl: string, graph: string, k: string, args: Dict<Json>, response: Response)
    requires forall n :: n in Keys(args) ==> n in ByIdArgs
    ensures Issue(restUrl, graph, DeleteVertexById(k), args)
         == Issue(restUrl, graph, DeleteVertices(k), args)
         == Ok(HttpDelete(VerticesPath(restUrl, graph, JStr(k))))
    ensures Resolve(restUrl, graph, DeleteVertexById(k), args, response).Ok?
         == Resolve(restUrl, graph, DeleteVertices(k), args, response).Ok?
  {
    assert "id" !in Keys(args);
    assert Arg(args, "id") == JUndefined;
    assert TakeWhile([JUndefined], true) == [];
    var path := VerticesPath(restUrl, graph, JStr(k));
    assert path + Segments([]) == path;
  }

  /** The edge deletion resolvers yield `undefined` once their call is
      made, whether it succeeds or fails; they throw only when both source
      arguments are missing, with the connection's message. */
  lemma DeleteEdgesYieldsUndefined(restUrl: string, graph: string, r: Resolver, args: Dict<Json>, response: Response)
    requires r.DeleteEdgesFromSource? || r.DeleteEdgesBetween?
    ensures var out := Resolve(restUrl, graph, r, args, response);
            && (out.Err? <==> IsUndefined(Arg(args, "sourceVertex")) && IsUndefined(Arg(args, "sourceVertexId")))
            && (out.Err? ==> out.message == SourceError)
            && (out.Ok? ==> out.value == JUndefined)
  {
  }

  /** Fetching a vertex by id without an `id` (the argument is optional)
      fetches the type's listing and yields its first vertex, `undefined`
      when the listing is empty. */
  lemma GetVertexWithoutId(restUrl: string, graph: string, k: string, args: Dict<Json>, data: Json, results: seq<Json>)
    requires "id" !in Keys(args)
    requires Member(data, "results") == Ok(JArray(results))
    ensures Issue(restUrl, graph, GetVertex(k), args) == Issue(restUrl, graph, ListVertices(k), args)
    ensures Resolve(restUrl, graph, GetVertex(k), args, Received(data)) == Ok(if results == [] then JUndefined else results[0])
  {
  }

  /** The root-query fields of a vertex type V: `Vs`, and `V` with an
      optional String `id`. */
  function VertexQueries(k: string, t: GraphQLType): seq<(string, Operation<Resolver>)>
  {
    [(k + "s", Operation(ListOf(t), [], ListVertices(k))),
     (k, Operation(t, [("id", StringType)], GetVertex(k)))]
  }

  /** The root-query fields of an edge type E: `Es` from a source, and `E`
      between a source and a target, yielding the first edge. */
  function EdgeQueries(k: string, t: GraphQLType, ends: Endpoints): seq<(string, Operation<Resolver>)>
  {
    [(k + "s", Operation(ListOf(t), [("sourceVertexType", StringType), ("sourceVertexId", ends.fromIdType)], ListEdges(k))),
     (k, Operation(t, Schema.EdgeArgs(ends, false), GetEdge(k)))]
  }

  function VertexQueryBlocks(vs: Dict<GraphQLType>): seq<seq<(string, Operation<Resolver>)>>
  {
    seq(|vs|, i requires 0 <= i < |vs| => VertexQueries(vs[i].0, vs[i].1))
  }

  function EdgeQueryBlocks(es: Dict<GraphQLType>, endpoints: map<string, Endpoints>): seq<seq<(string, Operation<Resolver>)>>
    requires Schema.HasEndpoints(es, endpoints)
  {
    seq(|es|, i requires 0 <= i < |es| => EdgeQueries(es[i].0, es[i].1, endpoints[es[i].0]))
  }

  /** All root-query entries in assignment order. */
  function RootQueryEntries(tb: Tables): seq<(string, Operation<Resolver>)>
    requires Schema.HasEndpoints(tb.edges, tb.endpoints)
  {
    Concat(VertexQueryBlocks(tb.vertices)) + Concat(EdgeQueryBlocks(tb.edges, tb.endpoints))
  }

  /** generateRootQuery: vertex fields, then edge fields. */
  function RootQuery(tb: Tables): OperationSet<Resolver>
    requires Schema.HasEndpoints(tb.edges, tb.endpoints)
  {
    OperationSet("rootQuery", PutAll(PutAll([], Concat(VertexQueryBlocks(tb.vertices))),
                                     Concat(EdgeQueryBlocks(tb.edges, tb.endpoints))))
  }

  /** When no two root-query entries share a name, vertex type V has `Vs`
      and `V`, whose `id` is optional. */
  lemma RootQueryVertexFields(tb: Tables, i: nat)
    requires Schema.HasEndpoints(tb.edges, tb.endpoints) && i < |tb.vertices|
    requires NoDup(Keys(RootQueryEntries(tb)))
    ensures var (k, t) := tb.vertices[i];
            && Get(RootQuery(tb).fields, k + "s") == Some(Operation(ListOf(t), [], ListVertices(k)))
            && Get(RootQuery(tb).fields, k) == Some(Operation(t, [("id", StringType)], GetVertex(k)))
  {
    var bs := VertexQueryBlocks(tb.vertices);
    var es := Concat(EdgeQueryBlocks(tb.edges, tb.endpoints));
    assert bs[i] == VertexQueries(tb.vertices[i].0, tb.vertices[i].1);
    BlockEntryWins([], bs, es, 2, i, 0);
    BlockEntryWins([], bs, es, 2, i, 1);
  }

  /** When no two root-query entries share a name, edge type E has `Es`
      (the source arguments, a list) and `E` (source and target, one edge). */
  lemma RootQueryEdgeFields(tb: Tables, i: nat)
    requires Schema.HasEndpoints(tb.edges, tb.endpoints) && i < |tb.edges|
    requires NoDup(Keys(RootQueryEntries(tb)))
    ensures var (k, t) := tb.edges[i];
            var ends := tb.endpoints[k];
            && Get(RootQuery(tb).fields, k + "s")
               == Some(Operation(ListOf(t), [("sourceVertexType", StringType), ("sourceVertexId", ends.fromIdType)], ListEdges(k)))
            && Get(RootQuery(tb).fields, k) == Some(Operation(t, Schema.EdgeArgs(ends, false), GetEdge(k)))
  {
    var vs := Concat(VertexQueryBlocks(tb.vertices));
    var bs := EdgeQueryBlocks(tb.edges, tb.endpoints);
    assert bs[i] == EdgeQueries(tb.edges[i].0, tb.edges[i].1, tb.endpoints[tb.edges[i].0]);
    LaterBlocksWin([], vs, bs, 2, i, 0);
    LaterBlocksWin([], vs, bs, 2, i, 1);
  }

  /** The mutation fields of a vertex type V: `delVs` (filter, limit),
      `delVById` (declaring `vertex_id`, filter and limit) and
      `upsertVertexV`. */
  function VertexMutations(k: string, t: GraphQLType, a: Option<GraphQLType>): seq<(string, Operation<Resolver>)>
  {
    [("del" + k + "s", Operation(ListOf(t), [("filter", StringType), ("limit", IntType)], DeleteVertices(k))),
     ("del" + k + "ById", Operation(t, [("vertex_id", FieldType(t, "v_id")), ("filter", StringType), ("limit", StringType)],
                                    DeleteVertexById(k))),
     ("upsertVertex" + k, Operation(t, PutAll([("vertexId", FieldType(t, "v_id"))], Schema.AttributeArgs(a)), UpsertVertex(k, a)))]
  }

  /** The name both edge deletions of E are assigned under. */
  function DeleteEdgesName(k: string): string
  {
    "delEdges" + k + "bySourceVertex"
  }

  /** The mutation fields of an edge type E in assignment order: the two
      deletions under one name, then `upsertEdgesE`. */
  function EdgeMutations(k: string, t: GraphQLType, ends: Endpoints, a: Option<GraphQLType>): seq<(string, Operation<Resolver>)>
  {
    [(DeleteEdgesName(k), Operation(ListOf(t), [("sourceVertex", StringType), ("sourceVertexId", ends.fromIdType)],
                                    DeleteEdgesFromSource(k))),
     (DeleteEdgesName(k), Operation(ListOf(t), [("sourceVertex", StringType), ("sourceVertexId", ends.fromIdType),
                                                ("targetVertex", StringType), ("targetVertexId", ends.toIdType)],
                                    DeleteEdgesBetween(k))),
     ("upsertEdges" + k, Operation(t, PutAll(Schema.EdgeArgs(ends, false), Schema.AttributeArgs(a)), UpsertEdges(k, a)))]
  }

  function VertexMutationBlocks(vs: Dict<GraphQLType>, attributes: map<string, GraphQLType>)
    : seq<seq<(string, Operation<Resolver>)>>
  {
    seq(|vs|, i requires 0 <= i < |vs| => VertexMutations(vs[i].0, vs[i].1, Schema.AttributesOf(attributes, vs[i].0)))
  }

  function EdgeMutationBlocks(es: Dict<GraphQLType>, endpoints: map<string, Endpoints>, attributes: map<string, GraphQLType>)
    : seq<seq<(string, Operation<Resolver>)>>
    requires Schema.HasEndpoints(es, endpoints)
  {
    seq(|es|, i requires 0 <= i < |es| =>
      EdgeMutations(es[i].0, es[i].1, endpoints[es[i].0], Schema.AttributesOf(attributes, es[i].0)))
  }

  /** createMutation: vertex fields, then edge fields. */
  function Mutation(tb: Tables): OperationSet<Resolver>
    requires Schema.HasEndpoints(tb.edges, tb.endpoints)
  {
    OperationSet("mutation", PutAll(PutAll([], Concat(VertexMutationBlocks(tb.vertices, tb.attributes))),
                                    Concat(EdgeMutationBlocks(tb.edges, tb.endpoints, tb.attributes))))
  }

  /** When the vertex mutation names are distinct and none is an edge
      mutation name, vertex type V has its three fields; `delVById`
      declares `vertex_id`, which its resolver never reads. */
  lemma MutationVertexFields(tb: Tables, i: nat)
    requires Schema.HasEndpoints(tb.edges, tb.endpoints) && i < |tb.vertices|
    requires NoDup(Keys(Concat(VertexMutationBlocks(tb.vertices, tb.attributes))))
    requires forall n :: n in Keys(Concat(EdgeMutationBlocks(tb.edges, tb.endpoints, tb.attributes)))
                         ==> n !in Keys(Concat(VertexMutationBlocks(tb.vertices, tb.attributes)))
    ensures var (k, t) := tb.vertices[i];
            var a := Schema.AttributesOf(tb.attributes, k);
            && Get(Mutation(tb).fields, "del" + k + "s")
               == Some(Operation(ListOf(t), [("filter", StringType), ("limit", IntType)], DeleteVertices(k)))
            && Get(Mutation(tb).fields, "del" + k + "ById")
               == Some(Operation(t, [("vertex_id", FieldType(t, "v_id")), ("filter", StringType), ("limit", StringType)],
                                 DeleteVertexById(k)))
            && Get(Mutation(tb).fields, "upsertVertex" + k)
               == Some(Operation(t, PutAll([("vertexId", FieldType(t, "v_id"))], Schema.AttributeArgs(a)), UpsertVertex(k, a)))
  {
    var bs := VertexMutationBlocks(tb.vertices, tb.attributes);
    assert bs[i] == VertexMutations(tb.vertices[i].0, tb.vertices[i].1, Schema.AttributesOf(tb.attributes, tb.vertices[i].0));
    MutationVertexEntry(tb, i, 0);
    MutationVertexEntry(tb, i, 1);
    MutationVertexEntry(tb, i, 2);
  }

  /** One vertex mutation entry is read back when its name is unique among
      the vertex mutations and no edge mutation takes it. */
  lemma MutationVertexEntry(tb: Tables, i: nat, j: nat)
    requires Schema.HasEndpoints(tb.edges, tb.endpoints) && i < |tb.vertices| && j < 3
    requires NoDup(Keys(Concat(VertexMutationBlocks(tb.vertices, tb.attributes))))
    requires forall n :: n in Keys(Concat(EdgeMutationBlocks(tb.edges, tb.endpoints, tb.attributes)))
                         ==> n !in Keys(Concat(VertexMutationBlocks(tb.vertices, tb.attributes)))
    ensures var bs := VertexMutationBlocks(tb.vertices, tb.attributes);
            Get(Mutation(tb).fields, bs[i][j].0) == Some(bs[i][j].1)
  {
    var bs: seq<seq<(string, Operation<Resolver>)>> := VertexMutationBlocks(tb.vertices, tb.attributes);
    var es := Concat(EdgeMutationBlocks(tb.edges, tb.endpoints, tb.attributes));
    assert bs[i][j].0 !in Keys(es) by {
      ConcatAt(bs, 3, i, j);
      assert Keys(Concat(bs))[3 * i + j] == bs[i][j].0;
    }
    FrontBlocksKept([], bs, es, 3, i, j);
  }

  /** Edge mutation names of distinct edge types differ, and within one
      edge type only the two deletions share a name. */
  lemma EdgeMutationNamesDiffer(tb: Tables, p: nat, q: nat)
    requires Schema.HasEndpoints(tb.edges, tb.endpoints) && NoDup(Keys(tb.edges))
    requires var xs := Concat(EdgeMutationBlocks(tb.edges, tb.endpoints, tb.attributes));
             p < q < |xs| && !(q == p + 1 && p % 3 == 0)
    ensures var xs := Concat(EdgeMutationBlocks(tb.edges, tb.endpoints, tb.attributes));
            xs[p].0 != xs[q].0
  {
    var bs := EdgeMutationBlocks(tb.edges, tb.endpoints, tb.attributes);
    var xs := Concat(bs);
    var i1, j1 := ConcatIndex(bs, 3, p);
    var i2, j2 := ConcatIndex(bs, 3, q);
    var k1, k2 := tb.edges[i1].0, tb.edges[i2].0;
    var n1 := if j1 == 2 then "upsertEdges" + k1 else DeleteEdgesName(k1);
    var n2 := if j2 == 2 then "upsertEdges" + k2 else DeleteEdgesName(k2);
    assert xs[p].0 == n1 && xs[q].0 == n2;
    if (j1 == 2) != (j2 == 2) {
      assert n1[0] != n2[0];
    } else if i1 == i2 {
      assert false;
    } else {
      assert Keys(tb.edges)[i1] == k1 && Keys(tb.edges)[i2] == k2;
      if j1 == 2 {
        assert n1[11..] == k1 && n2[11..] == k2;
      } else {
        assert n1[8..|n1| - 14] == k1 && n2[8..|n2| - 14] == k2;
      }
    }
  }

  /** Both edge deletions of E are assigned as `delEdgesEbySourceVertex`,
      so the field keeps only the second, the one narrowing by target;
      `upsertEdgesE` is there too. */
  lemma SecondDeleteEdgesWins(tb: Tables, i: nat)
    requires Schema.HasEndpoints(tb.edges, tb.endpoints) && i < |tb.edges| && NoDup(Keys(tb.edges))
    ensures var (k, t) := tb.edges[i];
            var ends := tb.endpoints[k];
            var a := Schema.AttributesOf(tb.attributes, k);
            && Get(Mutation(tb).fields, DeleteEdgesName(k))
               == Some(Operation(ListOf(t), [("sourceVertex", StringType), ("sourceVertexId", ends.fromIdType),
                                             ("targetVertex", StringType), ("targetVertexId", ends.toIdType)],
                                 DeleteEdgesBetween(k)))
            && Get(Mutation(tb).fields, "upsertEdges" + k)
               == Some(Operation(t, PutAll(Schema.EdgeArgs(ends, false), Schema.AttributeArgs(a)), UpsertEdges(k, a)))
  {
    var bs := EdgeMutationBlocks(tb.edges, tb.endpoints, tb.attributes);
    assert bs[i] == EdgeMutations(tb.edges[i].0, tb.edges[i].1, tb.endpoints[tb.edges[i].0],
                                  Schema.AttributesOf(tb.attributes, tb.edges[i].0));
    EdgeMutationEntryWins(tb, i, 1);
    EdgeMutationEntryWins(tb, i, 2);
  }

  /** Entry `j` of block `i` of three-entry blocks sits at a position whose
      remainder by three is `j`. */
  lemma BlockRemainder(i: nat, j: nat)
    requires j < 3
    ensures (3 * i + j) % 3 == j
  {
  }

  /** No edge mutation entry after the second or third of an edge type has
      its name, so that entry is what lookup finds after all of them are
      assigned over any `d`. */
  lemma EdgeMutationEntryLast(tb: Tables, i: nat, j: nat, d: Dict<Operation<Resolver>>)
    requires Schema.HasEndpoints(tb.edges, tb.endpoints) && i < |tb.edges| && NoDup(Keys(tb.edges))
    requires 1 <= j < 3
    ensures 3 * i + j < |Concat(EdgeMutationBlocks(tb.edges, tb.endpoints, tb.attributes))|
    ensures Get(PutAll(d, Concat(EdgeMutationBlocks(tb.edges, tb.endpoints, tb.attributes))),
                Concat(EdgeMutationBlocks(tb.edges, tb.endpoints, tb.attributes))[3 * i + j].0)
         == Some(Concat(EdgeMutationBlocks(tb.edges, tb.endpoints, tb.attributes))[3 * i + j].1)
  {
    var bs: seq<seq<(string, Operation<Resolver>)>> := EdgeMutationBlocks(tb.edges, tb.endpoints, tb.attributes);
    var xs := Concat(bs);
    var p := 3 * i + j;
    ConcatLength(bs, 3);
    assert p < |xs|;
    BlockRemainder(i, j);
    forall q | p < q < |xs| ensures xs[q].0 != xs[p].0 {
      EdgeMutationNamesDiffer(tb, p, q);
    }
    LastWriteWins(d, xs, p);
  }

  /** The second and third mutation entries of an edge type have no later
      namesake, so each is read back. */
  lemma EdgeMutationEntryWins(tb: Tables, i: nat, j: nat)
    requires Schema.HasEndpoints(tb.edges, tb.endpoints) && i < |tb.edges| && NoDup(Keys(tb.edges))
    requires 1 <= j < 3
    ensures var bs := EdgeMutationBlocks(tb.edges, tb.endpoints, tb.attributes);
            Get(Mutation(tb).fields, bs[i][j].0) == Some(bs[i][j].1)
  {
    var bs: seq<seq<(string, Operation<Resolver>)>> := EdgeMutationBlocks(tb.edges, tb.endpoints, tb.attributes);
    var xs := Concat(bs);
    var d := PutAll([], Concat(VertexMutationBlocks(tb.vertices, tb.attributes)));
    var p := 3 * i + j;
    assert p < |xs| && xs[p] == bs[i][j] by {
      ConcatAt(bs, 3, i, j);
    }
    EdgeMutationEntryLast(tb, i, j, d);
    assert Mutation(tb).fields == PutAll(d, xs);
  }

  class TGSchema {
    /** The connection, `undefined` once a caller clears it. */
    var conn: LegacyConnection.TigerGraphConnection?
    /** The vertex, edge, UDT, endpoint and attribute dictionaries. */
    const registry: TypeRegistry
    var graphQLSchema: Option<Built>
    var rootQuery: Option<OperationSet<Resolver>>
    var mutation: Option<OperationSet<Resolver>>

    ghost predicate Valid()
      reads this, registry
    {
      registry.Valid()
    }

    constructor (host: string, graphName: string, username: string, password: string, secret: Json, token: Json)
      ensures conn != null && fresh(conn) && conn.restUrl == RestUrl(host) && conn.gsUrl == GsUrl(host)
      ensures conn.graphName == graphName
      ensures fresh(registry) && registry.Snapshot() == EmptyTables
      ensures graphQLSchema == None && rootQuery == None && mutation == None
      ensures Valid()
    {
      conn := new LegacyConnection.TigerGraphConnection(host, graphName, username, password, secret, token);
      registry := new TypeRegistry();
      graphQLSchema := None;
      rootQuery := None;
      mutation := None;
    }

    /** generateRootQuery */
    method GenerateRootQuery()
      requires Valid()
      modifies this`rootQuery
      ensures Schema.HasEndpoints(registry.edges, registry.endpoints)
      ensures rootQuery == Some(RootQuery(registry.Snapshot()))
    {
      Schema.WellFormedHasEndpoints(registry.Snapshot());
      var vs := registry.vertices;
      ghost var vb := VertexQueryBlocks(vs);
      var fields: Dict<Operation<Resolver>> := [];
      var i := 0;
      while i < |vs|
        invariant 0 <= i <= |vs|
        invariant fields == PutAll([], Concat(vb[..i]))
      {
        var (key, value) := vs[i];
        PutAllBlocksStep([], vb, i);
        PutAllPair(fields, vb[i][0], vb[i][1]);
        fields := Put(fields, key + "s", Operation(ListOf(value), [], ListVertices(key)));
        fields := Put(fields, key, Operation(value, [("id", StringType)], GetVertex(key)));
        i := i + 1;
      }
      assert vb[..i] == vb;
      var es := registry.edges;
      ghost var eb := EdgeQueryBlocks(es, registry.endpoints);
      ghost var base := fields;
      var j := 0;
      while j < |es|
        invariant 0 <= j <= |es|
        invariant fields == PutAll(base, Concat(eb[..j]))
      {
        var (key, value) := es[j];
        var ends := registry.endpoints[key];
        PutAllBlocksStep(base, eb, j);
        PutAllPair(fields, eb[j][0], eb[j][1]);
        fields := Put(fields, key + "s",
                      Operation(ListOf(value), [("sourceVertexType", StringType), ("sourceVertexId", ends.fromIdType)],
                                ListEdges(key)));
        fields := Put(fields, key,
                      Operation(value, [("sourceVertexType", StringType), ("sourceVertexId", ends.fromIdType),
                                        ("targetVertexType", StringType), ("targetVertexId", ends.toIdType)],
                                GetEdge(key)));
        j := j + 1;
      }
      assert eb[..j] == eb;
      rootQuery := Some(OperationSet("rootQuery", fields));
    }

    /** createMutation */
    method CreateMutation() returns (m: OperationSet<Resolver>)
      requires Valid()
      ensures Schema.HasEndpoints(registry.edges, registry.endpoints)
      ensures m == Mutation(registry.Snapshot())
    {
      Schema.WellFormedHasEndpoints(registry.Snapshot());
      var fields := AddVertexMutations();
      fields := AddEdgeMutations(fields);
      m := OperationSet("mutation", fields);
    }

    /** The vertex part of createMutation. */
    method AddVertexMutations() returns (fields: Dict<Operation<Resolver>>)
      ensures fields == PutAll([], Concat(VertexMutationBlocks(registry.vertices, registry.attributes)))
    {
      var vs := registry.vertices;
      ghost var vb := VertexMutationBlocks(vs, registry.attributes);
      fields := [];
      var i := 0;
      while i < |vs|
        invariant 0 <= i <= |vs|
        invariant fields == PutAll([], Concat(vb[..i]))
      {
        var (key, value) := vs[i];
        var attributes := Schema.AttributesOf(registry.attributes, key);
        var upsertArgs := Schema.TGSchema.WithAttributeArgs([("vertexId", FieldType(value, "v_id"))], attributes);
        PutAllBlocksStep([], vb, i);
        PutAllTriple(fields, vb[i][0], vb[i][1], vb[i][2]);
        fields := Put(fields, "del" + key + "s",
                      Operation(ListOf(value), [("filter", StringType), ("limit", IntType)], DeleteVertices(key)));
        fields := Put(fields, "del" + key + "ById",
                      Operation(value, [("vertex_id", FieldType(value, "v_id")), ("filter", StringType), ("limit", StringType)],
                                DeleteVertexById(key)));
        fields := Put(fields, "upsertVertex" + key, Operation(value, upsertArgs, UpsertVertex(key, attributes)));
        i := i + 1;
      }
      assert vb[..i] == vb;
    }

    /** The edge part of createMutation, assigned over the vertex part. */
    method AddEdgeMutations(base: Dict<Operation<Resolver>>) returns (fields: Dict<Operation<Resolver>>)
      requires Schema.HasEndpoints(registry.edges, registry.endpoints)
      ensures fields == PutAll(base, Concat(EdgeMutationBlocks(registry.edges, registry.endpoints, registry.attributes)))
    {
      var es := registry.edges;
      ghost var eb := EdgeMutationBlocks(es, registry.endpoints, registry.attributes);
      fields := base;
      var j := 0;
      while j < |es|
        invariant 0 <= j <= |es|
        invariant fields == PutAll(base, Concat(eb[..j]))
      {
        var (key, value) := es[j];
        var ends := registry.endpoints[key];
        var attributes := Schema.AttributesOf(registry.attributes, key);
        var upsertArgs := Schema.TGSchema.WithAttributeArgs([("sourceVertexType", StringType), ("sourceVertexId", ends.fromIdType),
                                                             ("targetVertexType", StringType), ("targetVertexId", ends.toIdType)],
                                                            attributes);
        var name := "delEdges" + key + "bySourceVertex";
        var fromSource := Operation(ListOf(value), [("sourceVertex", StringType), ("sourceVertexId", ends.fromIdType)],
                                    DeleteEdgesFromSource(key));
        var between := Operation(ListOf(value), [("sourceVertex", StringType), ("sourceVertexId", ends.fromIdType),
                                                 ("targetVertex", StringType), ("targetVertexId", ends.toIdType)],
                                 DeleteEdgesBetween(key));
        var upsert := Operation(value, upsertArgs, UpsertEdges(key, attributes));
        PutAllBlocksStep(base, eb, j);
        assert eb[j] == [(name, fromSource), (name, between), ("upsertEdges" + key, upsert)];
        PutAllTriple(fields, eb[j][0], eb[j][1], eb[j][2]);
        fields := Put(fields, name, fromSource);
        fields := Put(fields, name, between);
        fields := Put(fields, "upsertEdges" + key, upsert);
        j := j + 1;
      }
      assert eb[..j] == eb;
    }

    /** generateSchema, given the reply to the schema request (an error for
        a failed call or an unreadable reply). Without a connection it
        returns quietly; failures keep their own message; the root query,
        the mutation and the schema are each built only the first time. */
    method GenerateSchema(reply: Result<SchemaDocument>) returns (request: Option<Request>, out: Outcome)
      requires Valid()
      modifies this, registry
      ensures Valid() && conn == old(conn)
      ensures conn == null ==> request == None && out == Pass && registry.Snapshot() == old(registry.Snapshot())
      ensures conn != null ==> request == Some(SchemaRequest(conn.gsUrl, conn.graphName))
      ensures conn != null && reply.Err? ==> out == Fail(reply.message) && registry.Snapshot() == old(registry.Snapshot())
      ensures conn != null && reply.Ok? ==>
                (registry.Snapshot(), out) == Schema.Generate(old(registry.Snapshot()), reply.value)
      ensures conn == null || out.Fail? ==>
                graphQLSchema == old(graphQLSchema) && rootQuery == old(rootQuery) && mutation == old(mutation)
      ensures conn != null && out == Pass ==>
                && Schema.HasEndpoints(registry.edges, registry.endpoints)
                && rootQuery == (if old(rootQuery).None? then Some(RootQuery(registry.Snapshot())) else old(rootQuery))
                && mutation == (if old(mutation).None? then Some(Mutation(registry.Snapshot())) else old(mutation))
                && graphQLSchema == (if old(graphQLSchema).None? then Some(Built(rootQuery, mutation)) else old(graphQLSchema))
    {
      if conn == null {
        return None, Pass;
      }
      request := Some(SchemaRequest(conn.gsUrl, conn.graphName));
      if reply.Err? {
        return request, Fail(reply.message);
      }
      out := Register(reply.value);
      if out.Fail? {
        return;
      }
      Publish();
    }

    /** The registration callback of generateSchema. */
    method Register(doc: SchemaDocument) returns (out: Outcome)
      requires Valid()
      modifies registry
      ensures Valid()
      ensures (registry.Snapshot(), out) == Schema.Generate(old(registry.Snapshot()), doc)
    {
      ghost var start := registry.Snapshot();
      Schema.GenerateWellFormed(start, doc);
      registry.CreateUdtGraphQLObject(doc.udts);
      assert Values(registry.vertices) == Values(start.vertices);
      out := registry.GenerateVertexObjects(doc.vertexTypes);
      if out.Pass? {
        out := registry.GenerateEdgeObjects(doc.edgeTypes);
      }
    }

    /** The rest of generateSchema: each of the root query, the mutation
        and the schema made only if not made before. */
    method Publish()
      requires Valid()
      modifies this`rootQuery, this`mutation, this`graphQLSchema
      ensures Schema.HasEndpoints(registry.edges, registry.endpoints)
      ensures rootQuery == if old(rootQuery).None? then Some(RootQuery(registry.Snapshot())) else old(rootQuery)
      ensures mutation == if old(mutation).None? then Some(Mutation(registry.Snapshot())) else old(mutation)
      ensures graphQLSchema == if old(graphQLSchema).None? then Some(Built(rootQuery, mutation)) else old(graphQLSchema)
    {
      Schema.WellFormedHasEndpoints(registry.Snapshot());
      if rootQuery.None? {
        GenerateRootQuery();
      }
      if mutation.None? {
        var m := CreateMutation();
        mutation := Some(m);
      }
      if graphQLSchema.None? {
        graphQLSchema := Some(Built(rootQuery, mutation));
      }
    }
  }
}

# tigergraph-graphql-js in Dafny

This project models the core of tigergraph-graphql-js. The library reads the
schema of a TigerGraph graph and turns it into a GraphQL schema. That schema
has a root query and a mutation for every vertex and edge type, and the
resolvers behind them call TigerGraph's REST++ endpoints.

The model has these modules:

- `TypeMapper` maps TigerGraph scalar names to GraphQL scalars, and builds
  the list type and the one-pair `GraphQLMap` object.
- `Registry` is the type registry shared by both `TGSchema` classes. Class
  `TypeRegistry` holds the vertex, edge, UDT, endpoint and attribute
  dictionaries. Its builders `createAttributesType`,
  `generateVertexObjects`, `generateEdgeObjects` and
  `createUDTGraphQLObject` are loops proved equal to functions on a
  `Tables` value. The code is the same in both copies of the class.
- `Schema` is `TGSchema` of `src/tg_schema.js`. It covers:
  - the root query and the mutation, built by loops and proved equal to
    `RootQuery` and `Mutation`;
  - the resolvers, modelled as a tag: `Issue` gives the HTTP call made or
    the error thrown first, `Settle` gives the result once the call is
    answered;
  - `buildResolvers`, `buildInstalledQuerySchema` and
    `autoGeneratedSchema`, with the list of stitched subschemas.
- `LegacySchema` is the older `TGSchema` of `tg_schema.js`. Its root query,
  mutation, resolvers and `generateSchema` differ from the src class.
- `Upsert` builds the JSON payloads of the two upsert resolvers, keeping
  the nesting order and the edge quirk: attributes are keyed by the first
  character of their name.
- `Connection` covers `src/tg_connection.js`. It models:
  - the URLs of each REST call;
  - the step-by-step `url +=` building, proved equal to declarative
    definitions;
  - the guards that throw;
  - `getToken`, which writes `TOKEN` but not the `Authorization` header.
- `LegacyConnection` covers `tg_connection.js`. Its `deleteVertices` and
  `deleteEdges` test for truthiness, and its guard uses `&&`.
- `Dict` models a JavaScript plain object as an insertion-ordered list of
  entries. It keeps the write rules the generated field tables depend on:
  a new key goes last, an existing key keeps its place, and the last write
  wins.
- `Js` holds JSON values, `String()` conversion, truthiness and property
  reads. A property read on `undefined` or `null` throws a TypeError.
- `GraphQL` holds the GraphQL types and the shape of an operation.

HTTP calls are not made. A call's outcome is a parameter: a `Response`, or
for the schema fetch a `Result<SchemaDocument>`.

Behaviour worth noting:

- An unknown scalar name gives `undefined`, not an error.
- Edges are narrowed by a target type even when no target id is given.
- A failed refresh keeps what was registered before the failure.
- Both delete resolvers report every failure with a fixed message. An
  application error's own message is dropped.
- Get-by-id with no results yields `undefined`.
- Operation names are not checked for clashes. A later field replaces an
  earlier one of the same name.
- A schema reply without `VertexTypes` or `EdgeTypes`, or a vertex without
  `Attributes`, throws a TypeError. Whatever was registered before the
  throw stays registered.
- An installed query whose first result lacks the requested name fails
  with the wrong-name message.

## Model

| member | source | states |
|---|---|---|
| TypeMapper.BasicType | src/type_mapper.js:10-22 | INT and UINT give Int and FLOAT and DOUBLE give Float; STRING, STRING COMPRESS and DATETIME give String and BOOL gives Boolean; each in both directions. Every name outside the eight gives undefined, never an error. |
| TypeMapper.BasicTypeOf | src/type_mapper.js:10-22 | Mapping an absent name (`undefined`) gives undefined. |
| TypeMapper.CustomizeList | src/type_mapper.js:28-33 | Throws exactly when the element type is absent, with the fixed message. Otherwise gives a list of the mapped element; the element is undefined exactly when the name is not one of the eight. |
| TypeMapper.CustomizeMap | src/type_mapper.js:41-53 | Throws exactly when the key or the value type is absent. Otherwise gives an object named GraphQLMap whose fields are exactly `key` then `value`, each typed by the scalar mapping: one pair, not a list. |
| Dict.Get | src/tg_schema.js:116 | Looking up a key finds a value exactly when the key is present, and the value is one stored under it. |
| Dict.Put | src/tg_schema.js:152 | After `d[k] = v`, `k` reads `v` and every other key reads as before. A new key is appended; an existing key keeps its position. |
| Dict.Remove | src/tg_schema.js:412-415 | After `delete d[k]`, `k` is absent, every other key reads as before, and the key set is the old one without `k`. |
| Dict.PutAllKeys | src/tg_schema.js:144-186 | After successive assignments, a key is present exactly when it was before or was assigned. |
| Dict.PutAllUntouched | src/tg_schema.js:144-186 | A key no assignment touches keeps its value. |
| Dict.LastWriteWins | src/tg_schema.js:144-186 | The last assignment to a key decides its value. |
| Dict.PutAllConsistent | src/tg_schema.js:297-299 | When equal keys always come with equal values, every assigned entry reads back. |
| Dict.PutAllKeepsPositions | src/tg_schema.js:43-67 | Assignments never move the keys already present: the old key order is a prefix of the new one. |
| Dict.PutAllNoDup | src/tg_schema.js:43-67 | Assignment never makes a key appear twice. |
| Dict.PutValues | src/tg_schema.js:102 | An assignment adds at most the assigned value to the values held. |
| Registry.AttributeFieldType | src/tg_schema.js:51-66 | Picks a field by descriptor key count. No field exactly when the count is not 1 to 3. Throws exactly when a 2-key non-UDT descriptor lacks ValueTypeName, or a 3-key one lacks KeyTypeName or ValueTypeName; the message is the list or the map error. |
| Registry.AttributeFieldTypeChosen | src/tg_schema.js:51-66 | The field type: the scalar mapping of `Name` for one key; for two keys the UDT named by `TupleName` when `name` is "UDT", otherwise a list of the mapped `ValueTypeName`; for three keys a GraphQLMap object whose `key` and `value` fields are the mapped `KeyTypeName` and `ValueTypeName`. |
| Registry.AttributeFieldsFail | src/tg_schema.js:47-67 | The fields loop throws exactly when some attribute's type throws. |
| Registry.AttributeFieldsAssign | src/tg_schema.js:47-67 | When nothing throws, the loop result is the starting fields with each made field assigned in attribute order. |
| Registry.MadeFieldsNamed | src/tg_schema.js:48-66 | Every made field is named after an attribute that makes a field. |
| Registry.MadeFieldsLast | src/tg_schema.js:47-66 | After the fields loop, a name holds the type of the last attribute of that name that makes a field, whatever was assigned before. |
| Registry.MadeFieldsCover | src/tg_schema.js:51-66 | Every attribute whose descriptor has 1 to 3 keys makes a field of its name. |
| Registry.AttributesObject | src/tg_schema.js:42-73 | The attributes object is an object type named `<objectName>Attributes`. Missing attributes throw the TypeError of `undefined.map`. |
| Registry.AttributesObjectFields | src/tg_schema.js:43-67 | The id field comes first exactly when both its name and type are given. Every attribute with 1 to 3 descriptor keys has a field. No other field exists. |
| Registry.AttributeFieldTyped | src/tg_schema.js:47-67 | In the attributes object, the field of an attribute's name has the type of the last attribute of that name that makes a field. |
| Registry.TypeRegistry.CreateAttributesType | src/tg_schema.js:42-74 | Returns `AttributesObject` of its inputs. Records the result under the object's name only, and records nothing when it throws. |
| Registry.VertexObjectFields | src/tg_schema.js:86-101 | A vertex type is named after the vertex. Its first fields are `v_id` (typed by the primary id) and `v_type` (String). It has `attributes` exactly when an attributes object was made. |
| Registry.VertexStep | src/tg_schema.js:82-102 | A vertex fails exactly when its id is no attribute and it has no `Attributes` (reading `length` of undefined throws), or when it needs an attributes object and building that object throws. An id attribute with no `Attributes` throws reading `map`. A failure changes nothing. A success touches only the vertex and attribute tables. |
| Registry.VertexStored | src/tg_schema.js:98-102 | A registered vertex is stored under its own name with the shape `VertexObjectFields` states. |
| Registry.RegisterVerticesFrame | src/tg_schema.js:80-104 | Registering vertices leaves the edge, endpoint and UDT tables as they were, and keeps every vertex name in its place. |
| Registry.AllVerticesRegistered | src/tg_schema.js:80-104 | Registering vertices never touches the edge or UDT tables and never drops a vertex name. When no vertex fails, every vertex is registered. |
| Registry.TypeRegistry.AddVertex | src/tg_schema.js:81-103 | One vertex of the loop, proved equal to `VertexStep`. |
| Registry.TypeRegistry.GenerateVertexObjects | src/tg_schema.js:80-104 | A missing vertex list throws reading `map` and changes nothing. Otherwise the loop equals `RegisterVertices`: the first throw stops it and keeps what came before. Keeps the registry invariant. |
| Registry.VertexIdOf | src/tg_schema.js:116 | Reading an endpoint's id type throws exactly when no vertex of that name is registered. |
| Registry.EdgeObjectField | src/tg_schema.js:117-122 | Each of the six fixed edge fields reads back its type by name. |
| Registry.EdgeObjectIds | src/tg_schema.js:120-121 | `from_id` and `to_id` carry the recorded endpoint id types. |
| Registry.EdgeObjectKeys | src/tg_schema.js:117-122 | Every edge type starts with `e_type`, `directed`, `from_type`, `from_id`, `to_id`, `to_type`, in this order. |
| Registry.UnknownEndpointChangesNothing | src/tg_schema.js:116 | An edge with an unregistered endpoint throws and changes nothing. |
| Registry.EndpointsSwapped | src/tg_schema.js:113-130 | `from_id_type` is the id type of the vertex named `ToVertexTypeName` and `to_id_type` that of `FromVertexTypeName`. They are recorded under the edge before the attributes are built. Missing attributes then throw with the edge table unchanged. A success stores an edge type with these ends under the edge's name. |
| Registry.TypeRegistry.AddEdge | src/tg_schema.js:111-131 | One edge of the loop, proved equal to `RegisterEdge`. |
| Registry.TypeRegistry.GenerateEdgeObjects | src/tg_schema.js:110-132 | A missing edge list throws reading `map` and changes nothing. Otherwise the loop equals `RegisterEdges`, stopping at the first throw. Keeps the registry invariant. |
| Registry.UdtFieldTyped | src/tg_schema.js:207-209 | Each UDT field is typed by the scalar mapping of the last field of that name. |
| Registry.TypeRegistry.UdtFieldsOf | src/tg_schema.js:205-209 | The field loop of one UDT equals the UDT's object fields. |
| Registry.TypeRegistry.CreateUdtGraphQLObject | src/tg_schema.js:199-218 | No UDTs leave the table unchanged. Otherwise each UDT is stored under its name, and later ones replace earlier ones. |
| Registry.RegisterUdtsLast | src/tg_schema.js:203-217 | The last UDT of a name is the object stored under that name. |
| Registry.RegisterUdtsUntouched | src/tg_schema.js:203-217 | A name no UDT has keeps its old entry, or stays absent. |
| Registry.RegisterVerticesWellFormed | src/tg_schema.js:80-104 | Registering vertices keeps the invariant: every vertex type has `v_id`, every edge has its endpoints, and no name is stored twice. |
| Registry.VertexStepWellFormed | src/tg_schema.js:81-103 | Registering one vertex keeps the invariant: its type has `v_id` and its name is stored once. |
| Registry.EdgeStepWellFormed | src/tg_schema.js:111-131 | Registering one edge keeps the invariant. |
| Registry.RegisterEdgesWellFormed | src/tg_schema.js:110-132 | Registering edges keeps the invariant. |
| Registry.TypeRegistry.constructor | src/tg_schema.js:19-32 | Starts with every dictionary empty. |
| Upsert.BuildVertexPayload | src/tg_schema.js:294-304 | The payload the vertex upsert resolver builds step by step equals `VertexPayload`. |
| Upsert.BuildEdgePayload | src/tg_schema.js:371-384 | The payload the edge upsert resolver builds step by step equals `EdgePayload`. |
| Upsert.PathThrough | src/tg_schema.js:301-304 | A one-property object read by its key gives its value. |
| Upsert.VertexPayloadPath | src/tg_schema.js:301-304 | The vertex payload holds the attribute object at `vertices`, then the vertex type, then the vertex id. |
| Upsert.VertexAttributesRead | src/tg_schema.js:295-300 | The attribute object has `{value: args[f]}` for every attribute field `f`, supplied or not, and no other key. |
| Upsert.EdgePayloadPath | src/tg_schema.js:378-384 | The edge payload holds the attribute object at edges, source type, source id, edge type, target type, then target id. |
| Upsert.EdgeAttributesRead | src/tg_schema.js:372-377 | The attribute object is keyed by the first character of each attribute field. Each key reads the argument of that one-character name. There are no other keys. |
| Upsert.FirstCharKeyTruncates | src/tg_schema.js:374 | For a field name longer than one character, its key is a different one-character string. |
| Upsert.KnowsPayload | src/tg_schema.js:371-384 | Upserting a Knows edge with `since` set and no `s` argument sends `{s: undefined}`, not the value of `since`. |
| Schema.DeleteFailuresFixed | src/tg_schema.js:241-253 | A delete resolver whose call was made succeeds exactly when the reply's `error` is falsy, yielding `results`. Every other outcome, transport or application, fails with that resolver's fixed message. |
| Schema.ApplicationErrorHidden | src/tg_schema.js:244-251 | A reply `{error: true, message: "x"}` to delete vertices fails with "Fail to delete vertices", not "x". |
| Schema.GetVertexFirstOrUndefined | src/tg_schema.js:161-165 | For any reply whose `results` is an array, get-by-id yields its first element, or undefined when it is empty. |
| Schema.InstalledQueryStripsResultName | src/tg_schema.js:410-416 | The installed-query call goes to `/query/<graph>/<name>`. Every argument except `TGQueryResultName` is passed unchanged, and `TGQueryResultName` is not passed. |
| Schema.InstalledQueryFailures | src/tg_schema.js:416-425 | A transport failure, or a reply with no readable first result, is reported after the fixed prefix. A first result without the requested name fails with the wrong-name message. |
| Schema.InstalledQueryAnswers | src/tg_schema.js:416-422 | An installed query succeeds exactly when the first result holds a defined value under the requested name, and yields that value. |
| Schema.RootQueryVertexFields | src/tg_schema.js:144-167 | When no two root-query names clash, each vertex V has `Vs`, a list of V with no arguments, and `V`, one V by a required String `id`. |
| Schema.RootQueryEdgeField | src/tg_schema.js:170-186 | Each edge E has field `E`: a list of E with the source arguments required and the target ones optional. As edges are assigned last, it replaces any vertex field named E. |
| Schema.TGSchema.GenerateRootQuery | src/tg_schema.js:138-192 | The loops build exactly `RootQuery` of the current tables. |
| Schema.TGSchema.WithAttributeArgs | src/tg_schema.js:284-293 | The upsert arguments are the base ones with each field of the attributes object assigned after them. |
| Schema.MutationVertexFields | src/tg_schema.js:232-313 | When no two mutation names clash, each vertex V has three fields. `delVs` takes filter, limit and sort. `delVById` takes a required id of V's id type. `upsertVertexV` takes the id and V's attribute fields. Each is bound to its own resolver. |
| Schema.EdgeMutationNamesDistinct | src/tg_schema.js:348-392 | Distinct edge names give distinct edge mutation names. |
| Schema.MutationEdgeFields | src/tg_schema.js:325-393 | Each edge E has `delEdgesE` (source required, target optional) and `upsertEdgesE` (the ends and E's attribute fields). Neither is overwritten. |
| Schema.TGSchema.CreateMutation | src/tg_schema.js:220-401 | The loops build exactly `Mutation` of the current tables. |
| Schema.TGSchema.AddVertexMutations | src/tg_schema.js:232-313 | The vertex loop assigns every vertex's three fields in registration order. |
| Schema.TGSchema.AddEdgeMutations | src/tg_schema.js:325-393 | The edge loop assigns every edge's two fields over the vertex ones. |
| Schema.QueryResolversBound | src/tg_schema.js:409-427 | Every given name gets the resolver of the installed query of that name, and no other name has a resolver. |
| Schema.TGSchema.BuildResolvers | src/tg_schema.js:403-430 | Missing names throw "Please provide graphql query name". Otherwise the loop builds `QueryResolvers`. |
| Schema.TGSchema.BuildInstalledQuerySchema | src/tg_schema.js:437-451 | Fails without a connection or without names and then changes nothing. Otherwise appends one installed subschema and restitches all subschemas. |
| Schema.GenerateWellFormed | src/tg_schema.js:462-473 | Registering a schema document keeps the registry invariant. |
| Schema.MissingEdgeTypesKeepVertices | src/tg_schema.js:462-470 | A reply without `EdgeTypes` throws reading `map`, after the UDTs and every vertex were registered. |
| Schema.TGSchema.Register | src/tg_schema.js:463-473 | The registration callback: UDTs, then vertices, then edges unless vertices failed. It equals `Generate`. |
| Schema.TGSchema.Publish | src/tg_schema.js:478-491 | Builds the root query and mutation only when not built before. Appends a generated subschema and restitches. |
| Schema.TGSchema.AutoGeneratedSchema | src/tg_schema.js:457-492 | No connection fails with "TigerGraph connection is not established!" before any call. Otherwise it requests the schema of the graph. A failed fetch or registration fails with "Fail to get Graph Schema from tgcloud.", keeps what was registered and publishes nothing. A success publishes as `Publish` states. |
| Schema.TGSchema.constructor | src/tg_schema.js:16-33 | Makes a connection to the host and graph and an empty registry; no subschema, schema, root query or mutation yet. |
| LegacySchema.DeleteByIdDeletesAll | tg_schema.js:256-273 | `delVById` reads `id`, which it does not declare. With any arguments GraphQL can pass, it makes the same call as `delVs`, deleting the whole vertex type, and succeeds exactly when `delVs` would. |
| LegacySchema.DeleteEdgesYieldsUndefined | tg_schema.js:329-360 | Both edge-delete resolvers yield undefined once the call is made, success or not. They throw only when both source arguments are missing. |
| LegacySchema.GetVertexWithoutId | tg_schema.js:156-165 | Without `id` (it is optional), get-by-id fetches the type's listing. For any reply whose `results` is an array, it yields the first vertex, or undefined when there is none. |
| LegacySchema.RootQueryVertexFields | tg_schema.js:139-166 | When no root-query names clash, each vertex V has `Vs` and `V` with an optional String `id`. |
| LegacySchema.RootQueryEdgeFields | tg_schema.js:169-197 | When no root-query names clash, each edge E has `Es` (a list, source arguments only) and `E` (one edge, source and target arguments). |
| LegacySchema.TGSchema.GenerateRootQuery | tg_schema.js:133-204 | The loops build exactly `RootQuery` of the current tables. |
| LegacySchema.MutationVertexFields | tg_schema.js:237-316 | When the vertex mutation names are distinct and no edge mutation takes one, each vertex V has `delVs` (filter, limit), `delVById` (`vertex_id`, filter, limit) and `upsertVertexV`. |
| LegacySchema.MutationVertexEntry | tg_schema.js:237-316 | Under the same condition, each vertex mutation entry reads back. |
| LegacySchema.EdgeMutationNamesDiffer | tg_schema.js:339-405 | Edge mutation names of different edges never clash. Within one edge, only the two deletions share a name. |
| LegacySchema.SecondDeleteEdgesWins | tg_schema.js:339-361 | Both edge deletions are assigned as `delEdgesEbySourceVertex`, so only the second (narrowing by target) remains. `upsertEdgesE` is present too. |
| LegacySchema.EdgeMutationEntryWins | tg_schema.js:339-405 | An edge's second deletion and its upsert have no later namesake, so each reads back. |
| LegacySchema.TGSchema.CreateMutation | tg_schema.js:232-414 | The loops build exactly `Mutation` of the current tables. |
| LegacySchema.TGSchema.AddVertexMutations | tg_schema.js:237-316 | The vertex loop assigns every vertex's three fields in registration order. |
| LegacySchema.TGSchema.AddEdgeMutations | tg_schema.js:321-406 | The edge loop assigns each edge's three entries, two under one name, over the vertex ones. |
| LegacySchema.TGSchema.GenerateSchema | tg_schema.js:420-447 | With no connection it returns quietly and changes nothing. A failed fetch or registration keeps its own message and builds nothing. A success builds the root query, the mutation and the schema, each only if not built before. |
| LegacySchema.TGSchema.Register | tg_schema.js:427-434 | The registration callback equals `Generate`. |
| LegacySchema.TGSchema.Publish | tg_schema.js:435-446 | Builds each of the root query, the mutation and the schema only when not built before. |
| LegacySchema.TGSchema.constructor | tg_schema.js:13-25 | Makes a connection and an empty registry, with nothing built. |
| Connection.TakeWhileIsLongestKeptPrefix | src/tg_connection.js:71-79 | The narrowing segments are the longest prefix of the arguments in which each is kept (defined, or truthy). |
| Connection.VerticesRequest | src/tg_connection.js:53-64 | `getVertices` GETs `/vertices/<type>/<id>` when an id is given, and `/vertices/<type>?limit=100` otherwise. |
| Connection.EdgesRequest | src/tg_connection.js:66-83 | `getEdges` throws exactly when the source type or id is undefined, with the fixed message. Otherwise it issues a GET. |
| Connection.DeleteVerticesRequest | src/tg_connection.js:85-110 | `deleteVertices` throws exactly when the vertex type is undefined. Otherwise it issues a DELETE. |
| Connection.DeleteEdgesRequest | src/tg_connection.js:113-133 | `deleteEdges` throws exactly when the source type or id is undefined. Otherwise it issues a DELETE. |
| Connection.InstalledQueryRequest | src/tg_connection.js:141-149 | `runInstalledQuery` throws exactly when the name is undefined. Otherwise it GETs `/query/<graph>/<name>` with the parameters. |
| Connection.RequestToken | src/tg_connection.js:4-15 | The module `getToken` asks `https://<host>:9000/requesttoken` with the secret, adding `lifetime` only when given, and yields `res.data.token` or the failure's message. |
| Connection.Narrow | src/tg_connection.js:70-79 | The nested `url +=` steps append the kept prefix of edge type, target type and target id. |
| Connection.TigerGraphConnection.constructor | src/tg_connection.js:18-30 | The REST URL is `https://<host>:9000` and the GSQL URL `https://<host>:14240`. The Authorization header is fixed from the token given. |
| Connection.TigerGraphConnection.GetToken | src/tg_connection.js:32-39 | Sends the secret as "undefined", because `this.secret` is never set. A token received replaces `TOKEN` but not the Authorization header. A failure keeps `TOKEN` and reports the message. |
| Connection.TigerGraphConnection.GetEdges | src/tg_connection.js:66-83 | The step-by-step URL equals `EdgesRequest`. |
| Connection.TigerGraphConnection.DeleteVertices | src/tg_connection.js:85-110 | The step-by-step URL, with its first-parameter flag, equals `DeleteVerticesRequest`. |
| Connection.TigerGraphConnection.DeleteEdges | src/tg_connection.js:113-133 | The step-by-step URL equals `DeleteEdgesRequest`. |
| Connection.KeepsNone | src/tg_connection.js:71-79 | When the first argument is not kept, no segment is added. |
| Connection.KeepsOne | src/tg_connection.js:71-79 | When only the first argument is kept, one segment is added. |
| Connection.KeepsTwo | src/tg_connection.js:71-79 | When the first two are kept and the third is not, two segments are added. |
| Connection.KeepsAll | src/tg_connection.js:71-79 | When all three are kept, three segments are added. |
| Connection.OptionalSegment | src/tg_connection.js:90-92 | One optional segment is added exactly when its argument is kept. |
| Connection.FilterQuery | src/tg_connection.js:94-97 | The filter, when defined, opens the query string with `?filter=`. |
| Connection.DeleteVerticesQuery | src/tg_connection.js:93-106 | After the filter, a defined limit adds `?` or `&` (by whether a filter came first), then `limit=L&sort=S`. |
| Connection.OptionalLimit | src/tg_connection.js:127-129 | `?limit=L` is added exactly when the limit is kept. |
| Connection.DeleteVerticesAsBuilt | src/tg_connection.js:89-106 | The declarative `deleteVertices` URL equals the one the statements build. |
| Connection.DeleteEdgesAsBuilt | src/tg_connection.js:117-129 | The declarative `deleteEdges` URL equals the one the statements build. |
| Connection.TokenUrl | src/tg_connection.js:5 | The literal token URL is the REST++ token path with the secret as its only parameter. |
| Connection.TokenUrlWithLifetime | src/tg_connection.js:5-8 | With a lifetime, the token URL carries the secret, then the lifetime. |
| Connection.GetAndDeleteSameVertex | src/tg_connection.js:53-110 | Deleting a vertex by id with no filter or limit addresses the URL `getVertices` reads it from. |
| Connection.GetAndDeleteSameEdges | src/tg_connection.js:66-133 | Without a limit, `deleteEdges` fails exactly when `getEdges` does and otherwise deletes at the URL `getEdges` lists. |
| Connection.TargetIdNeedsTargetType | src/tg_connection.js:70-79 | Without a target type, the target id has no effect on `getEdges`. |
| Connection.SortNeedsLimit | src/tg_connection.js:98-106 | Without a limit, the sort order has no effect on `deleteVertices`. |
| LegacyConnection.DeleteVerticesByTruthyId | tg_connection.js:74-86 | The legacy `deleteVertices` throws exactly when the vertex type is undefined; otherwise it issues a DELETE. |
| LegacyConnection.DeleteEdgesByTruthyPrefix | tg_connection.js:88-108 | The legacy `deleteEdges` throws only when BOTH source arguments are undefined; otherwise it issues a DELETE. |
| LegacyConnection.TigerGraphConnection.constructor | tg_connection.js:5-17 | Same URLs and header as the src connection. |
| LegacyConnection.TigerGraphConnection.GetToken | tg_connection.js:19-26 | Sends the secret as "undefined" and returns the token without storing it. |
| LegacyConnection.TigerGraphConnection.DeleteVertices | tg_connection.js:74-86 | The step-by-step URL equals `DeleteVerticesByTruthyId`. `where` and `limit` play no part. |
| LegacyConnection.TigerGraphConnection.DeleteEdges | tg_connection.js:88-108 | The step-by-step URL, narrowed and limited by truthiness, equals `DeleteEdgesByTruthyPrefix`. |
| LegacyConnection.TruthyEdgesAsBuilt | tg_connection.js:92-104 | The declarative legacy `deleteEdges` URL equals the one the statements build. |
| LegacyConnection.TakeWhileAgrees | tg_connection.js:93-101 | When every argument is missing or truthy, truthy and defined narrowing agree. |
| LegacyConnection.AgreesWithoutQuery | tg_connection.js:74-86 | With a truthy or missing id, the legacy `deleteVertices` makes the same call as the src one without filter or limit. |
| LegacyConnection.FalsyIdDeletesWholeType | tg_connection.js:79-81 | A present but falsy id (0, "", false, null) is dropped, so the call deletes every vertex of the type. |
| LegacyConnection.MissingSourceIdAccepted | tg_connection.js:89-92 | With a source type but no source id, the legacy `deleteEdges` still makes a call, with the id written "undefined"; the src one throws. |
| LegacyConnection.EdgesAgreeOnTruthyArguments | tg_connection.js:88-108 | With both sources given and every optional argument missing or truthy, the legacy and src `deleteEdges` make the same call. |

## Left out

- HTTP, axios, promises and authentication are not modelled. A call's answer is given as a `Response`, and only the URL, method, parameters and payload of each call are modelled.
- `console.log` output is not modelled.
- The GraphQL library is not modelled. That covers `GraphQLObjectType` thunks, `GraphQLSchema`, `makeExecutableSchema`, `stitchSchemas` and the `GraphQLJSON` scalar in `resolvers.JSON`. A stitched schema is the list of its subschemas, and an installed-query subschema is its type definitions text and its resolver table.
- The text `JSON.stringify` makes is not modelled. A payload is the object before stringifying.
- Decoding the schema reply is not modelled: the fetch's result is given as a decoded `SchemaDocument`. An error stands for a failed call or a reply whose `results` cannot be read.
- Object key order for integer-like keys is not modelled: JavaScript lists such keys first, and the model keeps plain insertion order. Inherited and prototype properties are not modelled either.
- Numbers and their text form are modelled only for integers.
- Default parameter values are not modelled. Every argument is passed, and `undefined` is a `Json` value.
- `runInstalledQuery`'s `timeout` and `sizeLimit` are not modelled because they are never sent.
- `TypeMapper` in `src/type_mapper.js` is not modelled: it is unexported dead code.
- The getters `getVerticesObjectsDict`, `getEdgesObjectsList`, `getRootQuery` and `getGraphQLSchema` are not modelled: each only returns a field.
- `index.js`, `test.js`, `tg_query.js` and the `config` module are not part of this model.
- The legacy edge-delete resolvers start a promise they do not return. Its later rejection is an unhandled rejection outside the resolver's result, and it is not modelled.
- Connection.UpsertRequest and Connection.SchemaRequest have no contract of their own. Each is one URL expression, and its properties are stated through the resolver and schema lemmas that use it.

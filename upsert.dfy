/** The JSON payloads of the upsert mutations (src/tg_schema.js:294-305 and
    371-385; tg_schema.js:292-308 and 384-398 at the repository root is the
    same code). A payload is modelled as the object handed to
    `JSON.stringify`, before it becomes text. */
module Upsert {
  import opened Wrappers
  import opened Dict
  import opened Js

  /** The property key `[key]` destructures from a string in
      `for (const [key] of Object.keys(…))`: its first character, or
      `undefined` (the key "undefined") for the empty string. */
  function FirstCharKey(name: string): string
  {
    if name == [] then "undefined" else [name[0]]
  }

  /** An object with one property, as `o = {}; o[k] = v` makes it. */
  function Single(k: string, v: Json): Json
  {
    JObject([(k, v)])
  }

  /** `att[f] = {value: args[f]}` for each attribute field `f`, in order. */
  function VertexEntries(names: seq<string>, args: Dict<Json>): seq<(string, Json)>
  {
    seq(|names|, i requires 0 <= i < |names| => (names[i], Single("value", Arg(args, names[i]))))
  }

  /** `att[key] = args[key]` with `key` the first character of each
      attribute field name, in order. */
  function EdgeEntries(names: seq<string>, args: Dict<Json>): seq<(string, Json)>
  {
    seq(|names|, i requires 0 <= i < |names| => (FirstCharKey(names[i]), Arg(args, FirstCharKey(names[i]))))
  }

  /** `{vertices: {V: {<vertexId>: att}}}` */
  function VertexPayload(vertexType: string, names: seq<string>, args: Dict<Json>): Json
  {
    Single("vertices", Single(vertexType, Single(ToStr(Arg(args, "vertexId")),
                                                 JObject(PutAll([], VertexEntries(names, args))))))
  }

  /** `{edges: {<sourceVertexType>: {<sourceVertexId>: {E: {<targetVertexType>: {<targetVertexId>: att}}}}}}` */
  function EdgePayload(edgeType: string, names: seq<string>, args: Dict<Json>): Json
  {
    Single("edges", Single(ToStr(Arg(args, "sourceVertexType")), Single(ToStr(Arg(args, "sourceVertexId")),
      Single(edgeType, Single(ToStr(Arg(args, "targetVertexType")), Single(ToStr(Arg(args, "targetVertexId")),
        JObject(PutAll([], EdgeEntries(names, args)))))))))
  }

  /** The path of keys under which the vertex payload puts the attributes. */
  function VertexPath(vertexType: string, args: Dict<Json>): seq<string>
  {
    ["vertices", vertexType, ToStr(Arg(args, "vertexId"))]
  }

  /** The path of keys under which the edge payload puts the attributes. */
  function EdgePath(edgeType: string, args: Dict<Json>): seq<string>
  {
    ["edges", ToStr(Arg(args, "sourceVertexType")), ToStr(Arg(args, "sourceVertexId")),
     edgeType, ToStr(Arg(args, "targetVertexType")), ToStr(Arg(args, "targetVertexId"))]
  }

  /** The vertex upsert resolver's payload, built as the resolver does it:
      the attribute object filled field by field, then nested under the
      vertex type and id. */
  method BuildVertexPayload(vertexType: string, names: seq<string>, args: Dict<Json>) returns (json: Json)
    ensures json == VertexPayload(vertexType, names, args)
  {
    var att: Dict<Json> := [];
    var i := 0;
    while i < |names|
      invariant 0 <= i <= |names|
      invariant att == PutAll([], VertexEntries(names, args)[..i])
    {
      PutAllSnoc([], VertexEntries(names, args), i);
      att := Put(att, names[i], JObject([("value", Arg(args, names[i]))]));
      i := i + 1;
    }
    assert VertexEntries(names, args)[..i] == VertexEntries(names, args);
    var byId := JObject([(ToStr(Arg(args, "vertexId")), JObject(att))]);
    json := JObject([("vertices", JObject([(vertexType, byId)]))]);
  }

  /** The edge upsert resolver's payload, built as the resolver does it. */
  method BuildEdgePayload(edgeType: string, names: seq<string>, args: Dict<Json>) returns (json: Json)
    ensures json == EdgePayload(edgeType, names, args)
  {
    var att: Dict<Json> := [];
    var i := 0;
    while i < |names|
      invariant 0 <= i <= |names|
      invariant att == PutAll([], EdgeEntries(names, args)[..i])
    {
      PutAllSnoc([], EdgeEntries(names, args), i);
      var key := if names[i] == [] then "undefined" else [names[i][0]];
      att := Put(att, key, Arg(args, key));
      i := i + 1;
    }
    assert EdgeEntries(names, args)[..i] == EdgeEntries(names, args);
    var target := JObject([(ToStr(Arg(args, "targetVertexType")),
                            JObject([(ToStr(Arg(args, "targetVertexId")), JObject(att))]))]);
    var source := JObject([(ToStr(Arg(args, "sourceVertexType")),
                            JObject([(ToStr(Arg(args, "sourceVertexId")), JObject([(edgeType, target)]))]))]);
    json := JObject([("edges", source)]);
  }

  /** Reading a one-property object by its key. */
  lemma PathThrough(k: string, v: Json, rest: seq<string>)
    ensures Path(Single(k, v), [k] + rest) == Path(v, rest)
  {
    assert ([k] + rest)[1..] == rest;
  }

  /** The vertex payload puts the attribute object under vertex type and id. */
  lemma VertexPayloadPath(vertexType: string, names: seq<string>, args: Dict<Json>)
    ensures Path(VertexPayload(vertexType, names, args), VertexPath(vertexType, args))
         == Ok(JObject(PutAll([], VertexEntries(names, args))))
  {
    var att := JObject(PutAll([], VertexEntries(names, args)));
    var id := ToStr(Arg(args, "vertexId"));
    PathThrough(id, att, []);
    PathThrough(vertexType, Single(id, att), [id]);
    PathThrough("vertices", Single(vertexType, Single(id, att)), [vertexType, id]);
  }

  /** The vertex attribute object has one entry `{value: args[f]}` for every
      attribute field `f`, whether or not the argument was supplied, and no
      other entry. */
  lemma VertexAttributesRead(names: seq<string>, args: Dict<Json>)
    ensures forall i :: 0 <= i < |names| ==>
              Get(PutAll([], VertexEntries(names, args)), names[i]) == Some(Single("value", Arg(args, names[i])))
    ensures forall k :: k in Keys(PutAll([], VertexEntries(names, args))) <==> k in names
  {
    var xs := VertexEntries(names, args);
    PutAllConsistent([], xs);
    assert Keys(xs) == names;
    forall k ensures k in Keys(PutAll([], xs)) <==> k in names {
      PutAllKeys([], xs, k);
    }
  }

  /** The edge payload puts the attribute object under source type, source
      id, edge type, target type and target id. */
  lemma EdgePayloadPath(edgeType: string, names: seq<string>, args: Dict<Json>)
    ensures Path(EdgePayload(edgeType, names, args), EdgePath(edgeType, args))
         == Ok(JObject(PutAll([], EdgeEntries(names, args))))
  {
    var p := EdgePath(edgeType, args);
    var o5 := Single(p[5], JObject(PutAll([], EdgeEntries(names, args))));
    var o4 := Single(p[4], o5);
    var o3 := Single(p[3], o4);
    var o2 := Single(p[2], o3);
    var o1 := Single(p[1], o2);
    PathThrough(p[5], JObject(PutAll([], EdgeEntries(names, args))), []);
    PathThrough(p[4], o5, [p[5]]);
    PathThrough(p[3], o4, p[4..]);
    PathThrough(p[2], o3, p[3..]);
    PathThrough(p[1], o2, p[2..]);
    PathThrough(p[0], o1, p[1..]);
  }

  /** The edge attribute object has one entry per attribute field, keyed by
      the field name's first character and valued by the argument of that
      one-character name, and no other entry. */
  lemma EdgeAttributesRead(names: seq<string>, args: Dict<Json>)
    ensures forall i :: 0 <= i < |names| ==>
              Get(PutAll([], EdgeEntries(names, args)), FirstCharKey(names[i])) == Some(Arg(args, FirstCharKey(names[i])))
    ensures forall k :: k in Keys(PutAll([], EdgeEntries(names, args))) ==>
              exists i :: 0 <= i < |names| && k == FirstCharKey(names[i])
  {
    var xs := EdgeEntries(names, args);
    assert forall i :: 0 <= i < |xs| ==> xs[i].0 == FirstCharKey(names[i]) && xs[i].1 == Arg(args, xs[i].0);
    PutAllConsistent([], xs);
    forall k | k in Keys(PutAll([], xs)) ensures exists i :: 0 <= i < |names| && k == FirstCharKey(names[i]) {
      PutAllKeys([], xs, k);
      var i :| 0 <= i < |xs| && Keys(xs)[i] == k;
      assert xs[i].0 == k;
    }
  }

  /** The attribute keys of an edge payload are never the field names
      themselves when a name is longer than one character. */
  lemma FirstCharKeyTruncates(name: string)
    requires |name| > 1
    ensures FirstCharKey(name) != name && |FirstCharKey(name)| == 1 && FirstCharKey(name)[0] == name[0]
  {
  }

  /** Upserting a `Knows` edge from Person alice to Person bob with
      `since: 2020` and no argument named `s`: the attribute lands under the
      key "s", valued by the absent argument `s`, so the payload does not
      carry 2020. */
  lemma KnowsPayload(args: Dict<Json>)
    requires Arg(args, "sourceVertexType") == JStr("Person") && Arg(args, "sourceVertexId") == JStr("alice")
    requires Arg(args, "targetVertexType") == JStr("Person") && Arg(args, "targetVertexId") == JStr("bob")
    requires Arg(args, "since") == JNum(2020) && "s" !in Keys(args)
    ensures Path(EdgePayload("Knows", ["since"], args), ["edges", "Person", "alice", "Knows", "Person", "bob"])
         == Ok(JObject([("s", JUndefined)]))
  {
    EdgePayloadPath("Knows", ["since"], args);
    assert EdgePath("Knows", args) == ["edges", "Person", "alice", "Knows", "Person", "bob"];
    assert EdgeEntries(["since"], args) == [("s", JUndefined)];
    assert PutAll([], [("s", JUndefined)]) == [("s", JUndefined)];
  }
}

/** The type registry of TGSchema: the dictionaries of generated vertex, edge,
    UDT and attribute object types, and the builders that fill them from the
    schema document (src/tg_schema.js:35-132 and 194-218). The copy of these
    builders in tg_schema.js at the repository root is the same code, so one
    class serves both schema classes. */
module Registry {
  import opened Wrappers
  import opened Dict
  import opened Js
  import opened GraphQL
  import opened TypeMapper

  /** A raw `AttributeType` descriptor: the keys the schema document gives it. */
  type Descriptor = map<string, string>

  datatype Attribute = Attribute(attributeName: string, attributeType: Descriptor)

  datatype PrimaryId = PrimaryId(attributeName: Option<string>, attributeType: Descriptor, primaryIdAsAttribute: bool)

  /** `Attributes` may be missing from a vertex descriptor too. */
  datatype Vertex = Vertex(name: string, primaryId: PrimaryId, attributes: Option<seq<Attribute>>)

  /** `Attributes` may be missing from an edge descriptor. */
  datatype Edge = Edge(name: string, fromVertexTypeName: string, toVertexTypeName: string,
                       attributes: Option<seq<Attribute>>)

  datatype UdtField = UdtField(fieldName: string, fieldType: string)

  datatype Udt = Udt(name: string, fields: seq<UdtField>)

  /** The `results` of a schema reply; each of its lists may be missing. */
  datatype SchemaDocument = SchemaDocument(udts: Option<seq<Udt>>, vertexTypes: Option<seq<Vertex>>,
                                           edgeTypes: Option<seq<Edge>>)

  /** `vertexTypeInEdge[e]`: the id types of the two ends of an edge kind. */
  datatype Endpoints = Endpoints(fromIdType: GraphQLType, toIdType: GraphQLType)

  /** The registry's dictionaries at one moment. */
  datatype Tables = Tables(vertices: Dict<GraphQLType>, edges: Dict<GraphQLType>, udts: map<string, GraphQLType>,
                           endpoints: map<string, Endpoints>, attributes: map<string, GraphQLType>)

  const EmptyTables := Tables([], [], map[], map[], map[])

  /** `attType.key`, `undefined` when the descriptor has no such key. */
  function Lookup(t: Descriptor, key: string): Option<string>
  {
    if key in t then Some(t[key]) else None
  }

  /** `udtType[attType.TupleName]`: a missing tuple name is looked up as the
      key "undefined"; an unregistered one gives `undefined`. */
  function UdtType(udts: map<string, GraphQLType>, t: Descriptor): GraphQLType
  {
    var name := match Lookup(t, "TupleName") case Some(n) => n case None => "undefined";
    if name in udts then udts[name] else Undefined
  }

  /** The type of one attribute field, chosen by the number of keys of its
      descriptor; `None` when the count is not 1, 2 or 3 and no field is made. */
  function AttributeFieldType(t: Descriptor, udts: map<string, GraphQLType>): (r: Result<Option<GraphQLType>>)
    ensures r == Ok(None) <==> |t| < 1 || |t| > 3
    ensures r.Err? <==> ((|t| == 2 && Lookup(t, "name") != Some("UDT") && "ValueTypeName" !in t)
                         || (|t| == 3 && ("KeyTypeName" !in t || "ValueTypeName" !in t)))
    ensures r.Err? ==> r.message == if |t| == 2 then ListError else MapError
  {
    if |t| == 1 then Ok(Some(BasicTypeOf(Lookup(t, "Name"))))
    else if |t| == 2 then
      if Lookup(t, "name") == Some("UDT") then Ok(Some(UdtType(udts, t)))
      else match CustomizeList(Lookup(t, "ValueTypeName"))
        case Ok(l) => Ok(Some(l))
        case Err(m) => Err(m)
    else if |t| == 3 then
      match CustomizeMap(Lookup(t, "KeyTypeName"), Lookup(t, "ValueTypeName"))
      case Ok(m) => Ok(Some(m))
      case Err(m) => Err(m)
    else Ok(None)
  }

  /** The type a descriptor gives its field: the mapped scalar `Name` for
      one key; for two keys the UDT named by `TupleName` when `name` is
      "UDT", else a list of the mapped `ValueTypeName`; for three keys a
      GraphQLMap object of the mapped key and value types. */
  lemma AttributeFieldTypeChosen(t: Descriptor, udts: map<string, GraphQLType>)
    ensures |t| == 1 ==> AttributeFieldType(t, udts) == Ok(Some(BasicTypeOf(Lookup(t, "Name"))))
    ensures |t| == 2 && Lookup(t, "name") == Some("UDT") ==> AttributeFieldType(t, udts) == Ok(Some(UdtType(udts, t)))
    ensures |t| == 2 && Lookup(t, "name") != Some("UDT") && "ValueTypeName" in t
            ==> AttributeFieldType(t, udts) == Ok(Some(ListOf(BasicType(t["ValueTypeName"]))))
    ensures |t| == 3 && "KeyTypeName" in t && "ValueTypeName" in t
            ==> var r := AttributeFieldType(t, udts);
                && r.Ok? && r.value.Some? && r.value.value.ObjectType? && r.value.value.name == "GraphQLMap"
                && Keys(r.value.value.fields) == ["key", "value"]
                && FieldType(r.value.value, "key") == BasicType(t["KeyTypeName"])
                && FieldType(r.value.value, "value") == BasicType(t["ValueTypeName"])
  {
  }

  function AttributeNames(attrs: seq<Attribute>): seq<string>
  {
    seq(|attrs|, i requires 0 <= i < |attrs| => attrs[i].attributeName)
  }

  /** A field is made for every attribute whose descriptor has 1 to 3 keys. */
  predicate MakesField(a: Attribute, udts: map<string, GraphQLType>)
  {
    AttributeFieldType(a.attributeType, udts).Ok? && AttributeFieldType(a.attributeType, udts).value.Some?
  }

  /** The attribute fields added to `fields` one after the other; the first
      attribute whose type cannot be built throws. */
  function AttributeFields(attrs: seq<Attribute>, udts: map<string, GraphQLType>, fields: Dict<GraphQLType>)
    : (r: Result<Dict<GraphQLType>>)
    decreases |attrs|
  {
    if attrs == [] then Ok(fields)
    else match AttributeFieldType(attrs[0].attributeType, udts)
      case Err(m) => Err(m)
      case Ok(None) => AttributeFields(attrs[1..], udts, fields)
      case Ok(Some(t)) => AttributeFields(attrs[1..], udts, Put(fields, attrs[0].attributeName, t))
  }

  /** The attribute fields fail exactly when some attribute's type fails. */
  lemma {:induction false} AttributeFieldsFail(attrs: seq<Attribute>, udts: map<string, GraphQLType>, fields: Dict<GraphQLType>)
    ensures AttributeFields(attrs, udts, fields).Err?
        <==> exists i :: 0 <= i < |attrs| && AttributeFieldType(attrs[i].attributeType, udts).Err?
    decreases |attrs|
  {
    if attrs != [] {
      var t := AttributeFieldType(attrs[0].attributeType, udts);
      var next := if t.Ok? && t.value.Some? then Put(fields, attrs[0].attributeName, t.value.value) else fields;
      AttributeFieldsFail(attrs[1..], udts, next);
      if t.Ok? {
        forall i | 0 < i < |attrs| ensures attrs[i] == attrs[1..][i - 1] { }
      }
    }
  }

  /** One step of the fields loop, at attribute `i`. */
  lemma AttributeFieldsAt(attrs: seq<Attribute>, udts: map<string, GraphQLType>, fields: Dict<GraphQLType>, i: nat)
    requires i < |attrs|
    ensures var t := AttributeFieldType(attrs[i].attributeType, udts);
            t.Err? ==> AttributeFields(attrs[i..], udts, fields) == Err(t.message)
    ensures var t := AttributeFieldType(attrs[i].attributeType, udts);
            t.Ok? ==> (AttributeFields(attrs[i..], udts, fields)
                       == AttributeFields(attrs[i + 1..], udts, if t.value.Some? then Put(fields, attrs[i].attributeName, t.value.value) else fields))
  {
    assert attrs[i..][0] == attrs[i];
    assert attrs[i..][1..] == attrs[i + 1..];
  }

  /** The field one attribute makes, if any. */
  function MadeField(a: Attribute, udts: map<string, GraphQLType>): seq<(string, GraphQLType)>
  {
    if MakesField(a, udts) then [(a.attributeName, AttributeFieldType(a.attributeType, udts).value.value)] else []
  }

  /** The fields the attributes make, in order: one per attribute whose
      descriptor has 1 to 3 keys. */
  function MadeFields(attrs: seq<Attribute>, udts: map<string, GraphQLType>): seq<(string, GraphQLType)>
    decreases |attrs|
  {
    if attrs == [] then [] else MadeField(attrs[0], udts) + MadeFields(attrs[1..], udts)
  }

  /** When no attribute fails, the attribute fields are the given fields
      with the made fields assigned one after the other. */
  lemma {:induction false} AttributeFieldsAssign(attrs: seq<Attribute>, udts: map<string, GraphQLType>, fields: Dict<GraphQLType>)
    requires AttributeFields(attrs, udts, fields).Ok?
    ensures AttributeFields(attrs, udts, fields).value == PutAll(fields, MadeFields(attrs, udts))
    decreases |attrs|
  {
    if attrs != [] {
      var head := MadeField(attrs[0], udts);
      var rest := MadeFields(attrs[1..], udts);
      var next := PutAll(fields, head);
      var t := AttributeFieldType(attrs[0].attributeType, udts);
      assert t.Ok?;
      if t.value.Some? {
        PutAllOne(fields, (attrs[0].attributeName, t.value.value));
      }
      assert AttributeFields(attrs, udts, fields) == AttributeFields(attrs[1..], udts, next);
      AttributeFieldsAssign(attrs[1..], udts, next);
      assert PutAll(fields, MadeFields(attrs, udts)) == PutAll(next, rest) by {
        assert MadeFields(attrs, udts) == head + rest;
        PutAllAppend(fields, head, rest);
      }
    }
  }

  /** Every made field is named after an attribute that makes a field. */
  lemma {:induction false} MadeFieldsNamed(attrs: seq<Attribute>, udts: map<string, GraphQLType>)
    ensures forall k :: k in Keys(MadeFields(attrs, udts)) ==>
              exists j :: 0 <= j < |attrs| && MakesField(attrs[j], udts) && attrs[j].attributeName == k
    ensures forall k :: k in Keys(MadeFields(attrs, udts)) ==> k in AttributeNames(attrs)
    decreases |attrs|
  {
    if attrs != [] {
      var head := MadeField(attrs[0], udts);
      var rest := MadeFields(attrs[1..], udts);
      MadeFieldsNamed(attrs[1..], udts);
      KeysAppend(head, rest);
      forall k | k in Keys(MadeFields(attrs, udts))
        ensures exists j :: 0 <= j < |attrs| && MakesField(attrs[j], udts) && attrs[j].attributeName == k
      {
        if k in Keys(head) {
          assert Keys(head) == [attrs[0].attributeName] && MakesField(attrs[0], udts);
        } else {
          var j :| 0 <= j < |attrs[1..]| && MakesField(attrs[1..][j], udts) && attrs[1..][j].attributeName == k;
          assert attrs[j + 1] == attrs[1..][j];
        }
      }
      forall k | k in Keys(MadeFields(attrs, udts)) ensures k in AttributeNames(attrs) {
        var j :| 0 <= j < |attrs| && MakesField(attrs[j], udts) && attrs[j].attributeName == k;
        assert AttributeNames(attrs)[j] == k;
      }
    }
  }

  /** Dropping the first element of a concatenation. */
  lemma AppendTail<T>(xs: seq<T>, ys: seq<T>)
    requires xs != []
    ensures (xs + ys)[0] == xs[0] && (xs + ys)[1..] == xs[1..] + ys
  {
  }

  /** Concatenation is associative. */
  lemma AppendAssoc<T>(a: seq<T>, b: seq<T>, c: seq<T>)
    ensures a + (b + c) == (a + b) + c
  {
  }

  /** The made fields of two runs of attributes are made one after the other. */
  lemma {:induction false} MadeFieldsAppend(xs: seq<Attribute>, ys: seq<Attribute>, udts: map<string, GraphQLType>)
    ensures MadeFields(xs + ys, udts) == MadeFields(xs, udts) + MadeFields(ys, udts)
    decreases |xs|
  {
    if xs == [] {
      assert xs + ys == ys;
    } else {
      AppendTail(xs, ys);
      MadeFieldsAppend(xs[1..], ys, udts);
      AppendAssoc(MadeField(xs[0], udts), MadeFields(xs[1..], udts), MadeFields(ys, udts));
    }
  }

  /** The made fields split around any one attribute. */
  lemma MadeFieldsSplit(attrs: seq<Attribute>, udts: map<string, GraphQLType>, i: nat)
    requires i < |attrs|
    ensures MadeFields(attrs, udts) == MadeFields(attrs[..i], udts) + (MadeField(attrs[i], udts) + MadeFields(attrs[i + 1..], udts))
  {
    var suffix := attrs[i..];
    assert attrs == attrs[..i] + suffix;
    MadeFieldsAppend(attrs[..i], suffix, udts);
    assert suffix[0] == attrs[i];
    assert suffix[1..] == attrs[i + 1..];
    assert MadeFields(suffix, udts) == MadeField(attrs[i], udts) + MadeFields(attrs[i + 1..], udts);
  }

  /** The made field of an attribute whose name no later attribute makes a
      field of carries that attribute's type, whatever was assigned before. */
  lemma MadeFieldsLast(attrs: seq<Attribute>, udts: map<string, GraphQLType>, d: Dict<GraphQLType>, i: nat)
    requires i < |attrs| && MakesField(attrs[i], udts)
    requires attrs[i].attributeName !in Keys(MadeFields(attrs[i + 1..], udts))
    ensures Get(PutAll(d, MadeFields(attrs, udts)), attrs[i].attributeName)
         == Some(AttributeFieldType(attrs[i].attributeType, udts).value.value)
  {
    var n := attrs[i].attributeName;
    var t := AttributeFieldType(attrs[i].attributeType, udts).value.value;
    var before := MadeFields(attrs[..i], udts);
    var after := MadeFields(attrs[i + 1..], udts);
    assert MadeField(attrs[i], udts) == [(n, t)];
    MadeFieldsSplit(attrs, udts, i);
    var pre := PutAll(d, before);
    assert PutAll(d, MadeFields(attrs, udts)) == PutAll(Put(pre, n, t), after) by {
      PutAllAppend(d, before, [(n, t)] + after);
      PutAllAppend(pre, [(n, t)], after);
      PutAllOne(pre, (n, t));
    }
    PutAllUntouched(Put(pre, n, t), after, n);
  }

  /** Every attribute that makes a field gives a made field of its name. */
  lemma {:induction false} MadeFieldsCover(attrs: seq<Attribute>, udts: map<string, GraphQLType>)
    ensures forall i :: 0 <= i < |attrs| && MakesField(attrs[i], udts) ==> attrs[i].attributeName in Keys(MadeFields(attrs, udts))
    decreases |attrs|
  {
    if attrs != [] {
      var head := MadeField(attrs[0], udts);
      var rest := MadeFields(attrs[1..], udts);
      MadeFieldsCover(attrs[1..], udts);
      KeysAppend(head, rest);
      forall i | 0 <= i < |attrs| && MakesField(attrs[i], udts)
        ensures attrs[i].attributeName in Keys(head) + Keys(rest)
      {
        if i > 0 {
          assert attrs[i] == attrs[1..][i - 1];
        } else {
          assert Keys(head) == [attrs[0].attributeName];
        }
      }
    }
  }

  /** createAttributesType: the object type `<objectName>Attributes`, whose
      fields start with the id field when both its name and type are given.
      Missing `attributes` throw at `attributes.map`. */
  function AttributesObject(objectName: string, attrs: Option<seq<Attribute>>, idName: Option<string>,
                            idField: Option<GraphQLType>, udts: map<string, GraphQLType>): (r: Result<GraphQLType>)
    ensures r.Ok? ==> r.value.ObjectType? && r.value.name == objectName + "Attributes"
    ensures attrs.None? ==> r == Err(ReadError("undefined", "map"))
  {
    var init := if idField.Some? && idName.Some? then [(idName.value, idField.value)] else [];
    match attrs
    case None => Err(ReadError("undefined", "map"))
    case Some(xs) =>
      match AttributeFields(xs, udts, init)
      case Err(m) => Err(m)
      case Ok(fs) => Ok(ObjectType(objectName + "Attributes", fs))
  }

  /** The id field comes first when both its name and type are given; the
      other fields are the attributes', and every attribute whose descriptor
      has 1 to 3 keys has one. */
  lemma AttributesObjectFields(objectName: string, attrs: seq<Attribute>, idName: Option<string>,
                               idField: Option<GraphQLType>, udts: map<string, GraphQLType>)
    requires AttributesObject(objectName, Some(attrs), idName, idField, udts).Ok?
    ensures var fs := AttributesObject(objectName, Some(attrs), idName, idField, udts).value.fields;
            && (idName.Some? && idField.Some? ==> |fs| > 0 && fs[0].0 == idName.value)
            && (forall i :: 0 <= i < |attrs| && MakesField(attrs[i], udts) ==> attrs[i].attributeName in Keys(fs))
            && (forall k :: k in Keys(fs) ==> k in AttributeNames(attrs) || (idName.Some? && idField.Some? && k == idName.value))
  {
    var init := if idField.Some? && idName.Some? then [(idName.value, idField.value)] else [];
    var fs := AttributeFields(attrs, udts, init).value;
    var made := MadeFields(attrs, udts);
    AttributeFieldsAssign(attrs, udts, init);
    MadeFieldsNamed(attrs, udts);
    MadeFieldsCover(attrs, udts);
    forall k ensures k in Keys(fs) <==> k in Keys(init) || k in Keys(made) {
      PutAllKeys(init, made, k);
    }
    if idName.Some? && idField.Some? {
      PutAllKeepsPositions(init, made);
      assert Keys(init) == [idName.value];
      assert Keys(fs)[0] == fs[0].0;
    }
  }

  /** Each field of the attributes object made by the last field-making
      attribute of its name has that attribute's type: a scalar, a list, a
      UDT or a GraphQLMap by the descriptor's key count. */
  lemma AttributeFieldTyped(objectName: string, attrs: seq<Attribute>, idName: Option<string>,
                            idField: Option<GraphQLType>, udts: map<string, GraphQLType>, i: nat)
    requires AttributesObject(objectName, Some(attrs), idName, idField, udts).Ok?
    requires i < |attrs| && MakesField(attrs[i], udts)
    requires forall j :: i < j < |attrs| && MakesField(attrs[j], udts) ==> attrs[j].attributeName != attrs[i].attributeName
    ensures Get(AttributesObject(objectName, Some(attrs), idName, idField, udts).value.fields, attrs[i].attributeName)
         == Some(AttributeFieldType(attrs[i].attributeType, udts).value.value)
  {
    var init := if idField.Some? && idName.Some? then [(idName.value, idField.value)] else [];
    var later := attrs[i + 1..];
    assert attrs[i].attributeName !in Keys(MadeFields(later, udts)) by {
      MadeFieldsNamed(later, udts);
      forall j | 0 <= j < |later| && MakesField(later[j], udts)
        ensures later[j].attributeName != attrs[i].attributeName
      {
        assert later[j] == attrs[i + 1 + j];
      }
    }
    AttributeFieldsAssign(attrs, udts, init);
    MadeFieldsLast(attrs, udts, init, i);
  }

  /** The GraphQL type of a vertex's primary id. */
  function VertexIdType(v: Vertex): GraphQLType
  {
    BasicTypeOf(Lookup(v.primaryId.attributeType, "Name"))
  }

  /** Whether a vertex gets an `attributes` field. */
  predicate HasAttributes(v: Vertex)
  {
    v.primaryId.primaryIdAsAttribute || (v.attributes.Some? && |v.attributes.value| != 0)
  }

  /** A vertex whose id is not an attribute and whose `Attributes` are
      missing throws at `attributes.length`. */
  predicate LengthThrows(v: Vertex)
  {
    !v.primaryId.primaryIdAsAttribute && v.attributes.None?
  }

  /** The attributes object of a vertex, carrying its id when the id is an attribute. */
  function VertexAttributes(tb: Tables, v: Vertex): Result<GraphQLType>
  {
    if v.primaryId.primaryIdAsAttribute then
      AttributesObject(v.name, v.attributes, v.primaryId.attributeName, Some(VertexIdType(v)), tb.udts)
    else AttributesObject(v.name, v.attributes, None, None, tb.udts)
  }

  /** A vertex type: `v_id` typed by the primary id, `v_type`, and the
      attributes object when there is one. */
  function VertexObject(v: Vertex, attributes: Option<GraphQLType>): GraphQLType
  {
    var fields := [("v_id", VertexIdType(v)), ("v_type", StringType)];
    ObjectType(v.name, if attributes.Some? then fields + [("attributes", attributes.value)] else fields)
  }

  /** The vertex type is named after the vertex, its first fields are `v_id`
      and `v_type`, and it has `attributes` exactly when one was made. */
  lemma VertexObjectFields(v: Vertex, attributes: Option<GraphQLType>)
    ensures var o := VertexObject(v, attributes);
            && o.name == v.name
            && Keys(o.fields)[..2] == ["v_id", "v_type"]
            && FieldType(o, "v_id") == VertexIdType(v) && FieldType(o, "v_type") == StringType
            && ("attributes" in Keys(o.fields) <==> attributes.Some?)
  {
    var o := VertexObject(v, attributes);
    assert Keys(o.fields) == if attributes.Some? then ["v_id", "v_type", "attributes"] else ["v_id", "v_type"];
  }

  /** One vertex of generateVertexObjects: its type stored under its own
      name, and its attributes object under the same name when one is made. */
  function VertexStep(tb: Tables, v: Vertex): (r: (Tables, Outcome))
    ensures r.1.Fail? <==> LengthThrows(v) || (HasAttributes(v) && VertexAttributes(tb, v).Err?)
    ensures LengthThrows(v) ==> r.1 == Fail(ReadError("undefined", "length"))
    ensures v.attributes.None? && !LengthThrows(v) ==> r.1 == Fail(ReadError("undefined", "map"))
    ensures r.1.Fail? ==> r.0 == tb
    ensures r.1 == Pass ==> r.0.edges == tb.edges && r.0.endpoints == tb.endpoints && r.0.udts == tb.udts
  {
    if LengthThrows(v) then (tb, Fail(ReadError("undefined", "length")))
    else if !HasAttributes(v) then
      (tb.(vertices := Put(tb.vertices, v.name, VertexObject(v, None))), Pass)
    else match VertexAttributes(tb, v)
      case Err(m) => (tb, Fail(m))
      case Ok(a) =>
        (tb.(vertices := Put(tb.vertices, v.name, VertexObject(v, Some(a))),
             attributes := tb.attributes[v.name := a]), Pass)
  }

  /** A registered vertex is stored under its own name, with the shape
      VertexObjectFields describes. */
  lemma VertexStored(tb: Tables, v: Vertex)
    requires VertexStep(tb, v).1 == Pass
    ensures Get(VertexStep(tb, v).0.vertices, v.name)
         == Some(VertexObject(v, if HasAttributes(v) then Some(VertexAttributes(tb, v).value) else None))
  {
  }

  /** generateVertexObjects: the vertices in order; the first one that throws
      ends the pass, and what was registered before it stays. */
  function RegisterVertices(tb: Tables, vs: seq<Vertex>): (Tables, Outcome)
    decreases |vs|
  {
    if vs == [] then (tb, Pass)
    else
      var (t, out) := VertexStep(tb, vs[0]);
      if out.Fail? then (t, out) else RegisterVertices(t, vs[1..])
  }

  /** What a prefix holds, the whole sequence holds. */
  lemma PrefixIn<T>(a: seq<T>, b: seq<T>, x: T)
    requires a <= b && x in a
    ensures x in b
  {
    var i :| 0 <= i < |a| && a[i] == x;
    assert b[i] == x;
  }

  /** Registering vertices never touches the edge or UDT tables and never
      drops a vertex name. */
  lemma {:induction false} RegisterVerticesFrame(tb: Tables, vs: seq<Vertex>)
    ensures var t := RegisterVertices(tb, vs).0;
            t.edges == tb.edges && t.endpoints == tb.endpoints && t.udts == tb.udts
            && Keys(tb.vertices) <= Keys(t.vertices)
    decreases |vs|
  {
    if vs != [] && VertexStep(tb, vs[0]).1 == Pass {
      var t1 := VertexStep(tb, vs[0]).0;
      assert Keys(tb.vertices) <= Keys(t1.vertices);
      RegisterVerticesFrame(t1, vs[1..]);
    }
  }

  /** A pass that completes has every vertex type stored under its name, and
      never touches the edge tables. */
  lemma {:induction false} AllVerticesRegistered(tb: Tables, vs: seq<Vertex>)
    ensures var (t, out) := RegisterVertices(tb, vs);
            t.edges == tb.edges && t.endpoints == tb.endpoints && t.udts == tb.udts
            && Keys(tb.vertices) <= Keys(t.vertices)
            && (out == Pass ==> forall i :: 0 <= i < |vs| ==> vs[i].name in Keys(t.vertices))
    decreases |vs|
  {
    RegisterVerticesFrame(tb, vs);
    if vs != [] && VertexStep(tb, vs[0]).1 == Pass {
      var t1 := VertexStep(tb, vs[0]).0;
      VertexStored(tb, vs[0]);
      assert vs[0].name in Keys(t1.vertices);
      RegisterVerticesFrame(t1, vs[1..]);
      AllVerticesRegistered(t1, vs[1..]);
      var (t, out) := RegisterVertices(t1, vs[1..]);
      assert RegisterVertices(tb, vs) == (t, out);
      if out == Pass {
        forall i | 0 <= i < |vs|
          ensures vs[i].name in Keys(t.vertices)
        {
          if i == 0 {
            PrefixIn(Keys(t1.vertices), Keys(t.vertices), vs[0].name);
          } else {
            assert vs[i] == vs[1..][i - 1];
          }
        }
      }
    }
  }

  /** `verticesObjectsDict[name].getFields()['v_id']['type']`; reading
      `getFields` of an unregistered name throws. */
  function VertexIdOf(vertices: Dict<GraphQLType>, name: string): (r: Result<GraphQLType>)
    ensures r.Err? <==> name !in Keys(vertices)
  {
    var found := Get(vertices, name);
    if found.None? then Err(ReadError("undefined", "getFields")) else Ok(FieldType(found.value, "v_id"))
  }

  /** The fields every edge type has, in order. */
  function EdgeFields(ends: Endpoints): Dict<GraphQLType>
  {
    [("e_type", StringType), ("directed", BasicType("BOOL")), ("from_type", StringType),
     ("from_id", ends.fromIdType), ("to_id", ends.toIdType), ("to_type", StringType)]
  }

  /** An edge type: the fixed fields and the attributes object when there is one. */
  function EdgeObject(name: string, ends: Endpoints, attributes: Option<GraphQLType>): GraphQLType
  {
    ObjectType(name, if attributes.Some? then EdgeFields(ends) + [("attributes", attributes.value)] else EdgeFields(ends))
  }

  /** The edge type's field at position `i` (of the six fixed ones) is found
      by its name. */
  lemma EdgeObjectField(name: string, ends: Endpoints, attributes: Option<GraphQLType>, i: nat)
    requires i < 6
    ensures FieldType(EdgeObject(name, ends, attributes), EdgeFields(ends)[i].0) == EdgeFields(ends)[i].1
  {
    var fs := EdgeObject(name, ends, attributes).fields;
    assert fs[..6] == EdgeFields(ends);
    GetFirst(fs, fs[i].0, i);
  }

  /** The edge type's `from_id` and `to_id` carry the recorded endpoint id
      types. */
  lemma EdgeObjectIds(name: string, ends: Endpoints, attributes: Option<GraphQLType>)
    ensures FieldType(EdgeObject(name, ends, attributes), "from_id") == ends.fromIdType
    ensures FieldType(EdgeObject(name, ends, attributes), "to_id") == ends.toIdType
  {
    EdgeObjectField(name, ends, attributes, 3);
    EdgeObjectField(name, ends, attributes, 4);
  }

  /** Every edge type starts with the same six fields, in this order. */
  lemma EdgeObjectKeys(name: string, ends: Endpoints, attributes: Option<GraphQLType>)
    ensures Keys(EdgeObject(name, ends, attributes).fields)[..6]
         == ["e_type", "directed", "from_type", "from_id", "to_id", "to_type"]
  {
    var fs := EdgeObject(name, ends, attributes).fields;
    assert fs[..6] == EdgeFields(ends);
    KeysTake(fs, 6);
  }

  /** One edge of generateEdgeObjects. The endpoint id types are read with
      the endpoint names swapped, and recorded before the attributes are
      built, so a failure there leaves them recorded. */
  function RegisterEdge(tb: Tables, e: Edge): (Tables, Outcome)
  {
    var fromIdType := VertexIdOf(tb.vertices, e.toVertexTypeName);
    var toIdType := VertexIdOf(tb.vertices, e.fromVertexTypeName);
    if fromIdType.Err? || toIdType.Err? then (tb, Fail(ReadError("undefined", "getFields")))
    else
      var ends := Endpoints(fromIdType.value, toIdType.value);
      var tb1 := tb.(endpoints := tb.endpoints[e.name := ends]);
      if e.attributes.Some? && |e.attributes.value| == 0 then
        (tb1.(edges := Put(tb1.edges, e.name, EdgeObject(e.name, ends, None))), Pass)
      else match AttributesObject(e.name, e.attributes, None, None, tb.udts)
        case Err(m) => (tb1, Fail(m))
        case Ok(a) =>
          (tb1.(edges := Put(tb1.edges, e.name, EdgeObject(e.name, ends, Some(a))),
                attributes := tb1.attributes[e.name := a]), Pass)
  }

  /** An edge kind whose endpoint vertex is not registered throws and
      changes nothing. */
  lemma UnknownEndpointChangesNothing(tb: Tables, e: Edge)
    requires e.fromVertexTypeName !in Keys(tb.vertices) || e.toVertexTypeName !in Keys(tb.vertices)
    ensures RegisterEdge(tb, e) == (tb, Fail(ReadError("undefined", "getFields")))
  {
  }

  /** With both endpoints registered, `from_id_type` is the id type of the
      vertex named `ToVertexTypeName` and `to_id_type` that of
      `FromVertexTypeName`, and the edge type built from them is stored under
      the edge's name. Missing `Attributes` throw after the endpoints are
      recorded. */
  lemma EndpointsSwapped(tb: Tables, e: Edge)
    requires e.fromVertexTypeName in Keys(tb.vertices) && e.toVertexTypeName in Keys(tb.vertices)
    ensures var (t, out) := RegisterEdge(tb, e);
            var ends := Endpoints(VertexIdOf(tb.vertices, e.toVertexTypeName).value,
                                  VertexIdOf(tb.vertices, e.fromVertexTypeName).value);
            && t.endpoints == tb.endpoints[e.name := ends]
            && (e.attributes.None? ==> out == Fail(ReadError("undefined", "map")) && t.edges == tb.edges)
            && (out == Pass ==> exists a :: Get(t.edges, e.name) == Some(EdgeObject(e.name, ends, a)))
  {
    var (t, out) := RegisterEdge(tb, e);
    if out == Pass {
      var ends := Endpoints(VertexIdOf(tb.vertices, e.toVertexTypeName).value,
                            VertexIdOf(tb.vertices, e.fromVertexTypeName).value);
      var a := if e.attributes.Some? && |e.attributes.value| == 0 then None
               else Some(AttributesObject(e.name, e.attributes, None, None, tb.udts).value);
      assert Get(t.edges, e.name) == Some(EdgeObject(e.name, ends, a));
    }
  }

  /** generateEdgeObjects: the edges in order, up to the first that throws. */
  function RegisterEdges(tb: Tables, es: seq<Edge>): (Tables, Outcome)
    decreases |es|
  {
    if es == [] then (tb, Pass)
    else
      var (t, out) := RegisterEdge(tb, es[0]);
      if out.Fail? then (t, out) else RegisterEdges(t, es[1..])
  }

  /** The objects generated for the UDT fields, in order. */
  function UdtEntries(fs: seq<UdtField>): seq<(string, GraphQLType)>
  {
    seq(|fs|, i requires 0 <= i < |fs| => (fs[i].fieldName, BasicType(fs[i].fieldType)))
  }

  /** The object type of one UDT: its fields typed by the scalar mapping. */
  function UdtObject(u: Udt): GraphQLType
  {
    ObjectType(u.name, PutAll([], UdtEntries(u.fields)))
  }

  /** Every field of a UDT is typed by the scalar mapping of the last field
      of that name. */
  lemma UdtFieldTyped(u: Udt, i: nat)
    requires i < |u.fields|
    requires forall j :: i < j < |u.fields| ==> u.fields[j].fieldName != u.fields[i].fieldName
    ensures FieldType(UdtObject(u), u.fields[i].fieldName) == BasicType(u.fields[i].fieldType)
  {
    var xs := UdtEntries(u.fields);
    LastWriteWins([], xs, i);
  }

  /** createUDTGraphQLObject: each UDT stored under its name, later ones
      replacing earlier ones of the same name. */
  function RegisterUdts(udts: map<string, GraphQLType>, us: seq<Udt>): map<string, GraphQLType>
  {
    if us == [] then udts
    else RegisterUdts(udts, us[..|us| - 1])[us[|us| - 1].name := UdtObject(us[|us| - 1])]
  }

  /** The last UDT of a name is the one stored under it. */
  lemma {:induction false} RegisterUdtsLast(udts: map<string, GraphQLType>, us: seq<Udt>, i: nat)
    requires i < |us|
    requires forall j :: i < j < |us| ==> us[j].name != us[i].name
    ensures us[i].name in RegisterUdts(udts, us)
    ensures RegisterUdts(udts, us)[us[i].name] == UdtObject(us[i])
    decreases |us|
  {
    var init := us[..|us| - 1];
    if i < |us| - 1 {
      assert init[i] == us[i];
      forall j | i < j < |init|
        ensures init[j].name != init[i].name
      {
        assert init[j] == us[j];
      }
      RegisterUdtsLast(udts, init, i);
    }
  }

  /** A name no UDT has keeps whatever it was bound to, or stays unbound. */
  lemma {:induction false} RegisterUdtsUntouched(udts: map<string, GraphQLType>, us: seq<Udt>, n: string)
    requires forall j :: 0 <= j < |us| ==> us[j].name != n
    ensures n in RegisterUdts(udts, us) <==> n in udts
    ensures n in udts ==> RegisterUdts(udts, us)[n] == udts[n]
    decreases |us|
  {
    if us != [] {
      var init := us[..|us| - 1];
      forall j | 0 <= j < |init|
        ensures init[j].name != n
      {
        assert init[j] == us[j];
      }
      RegisterUdtsUntouched(udts, init, n);
    }
  }

  /** The registry's invariant: every vertex type is an object with a `v_id`
      field, so the endpoint lookup reads a real id type; every edge type has
      its endpoints recorded; and no name is registered twice. */
  ghost predicate WellFormed(tb: Tables)
  {
    && (forall o :: o in Values(tb.vertices) ==> o.ObjectType? && "v_id" in Keys(o.fields))
    && (forall k :: k in Keys(tb.edges) ==> k in tb.endpoints)
    && NoDup(Keys(tb.vertices)) && NoDup(Keys(tb.edges))
  }

  lemma VertexStepWellFormed(tb: Tables, v: Vertex)
    requires WellFormed(tb)
    ensures WellFormed(VertexStep(tb, v).0)
  {
    var (t, out) := VertexStep(tb, v);
    if out == Pass {
      var o := VertexObject(v, if HasAttributes(v) then Some(VertexAttributes(tb, v).value) else None);
      assert t.vertices == Put(tb.vertices, v.name, o) && t.edges == tb.edges && t.endpoints == tb.endpoints;
      assert o.ObjectType? && "v_id" in Keys(o.fields) by {
        VertexObjectFields(v, if HasAttributes(v) then Some(VertexAttributes(tb, v).value) else None);
      }
      assert forall x :: x in Values(t.vertices) ==> x.ObjectType? && "v_id" in Keys(x.fields) by {
        PutValues(tb.vertices, v.name, o);
      }
      assert NoDup(Keys(t.vertices)) by {
        PutNoDup(tb.vertices, v.name, o);
      }
    }
  }

  lemma {:induction false} RegisterVerticesWellFormed(tb: Tables, vs: seq<Vertex>)
    requires WellFormed(tb)
    ensures WellFormed(RegisterVertices(tb, vs).0)
    decreases |vs|
  {
    if vs != [] {
      VertexStepWellFormed(tb, vs[0]);
      if VertexStep(tb, vs[0]).1 == Pass {
        RegisterVerticesWellFormed(VertexStep(tb, vs[0]).0, vs[1..]);
      }
    }
  }

  lemma EdgeStepWellFormed(tb: Tables, e: Edge)
    requires WellFormed(tb)
    ensures WellFormed(RegisterEdge(tb, e).0)
  {
    var (t, out) := RegisterEdge(tb, e);
    if out == Pass {
      var ends := Endpoints(VertexIdOf(tb.vertices, e.toVertexTypeName).value,
                            VertexIdOf(tb.vertices, e.fromVertexTypeName).value);
      var a := if e.attributes.Some? && |e.attributes.value| == 0 then None
               else Some(AttributesObject(e.name, e.attributes, None, None, tb.udts).value);
      assert t.vertices == tb.vertices && t.endpoints == tb.endpoints[e.name := ends];
      assert t.edges == Put(tb.edges, e.name, EdgeObject(e.name, ends, a));
      assert NoDup(Keys(t.edges)) by {
        PutNoDup(tb.edges, e.name, EdgeObject(e.name, ends, a));
      }
    } else {
      assert t.vertices == tb.vertices && t.edges == tb.edges;
    }
  }

  lemma {:induction false} RegisterEdgesWellFormed(tb: Tables, es: seq<Edge>)
    requires WellFormed(tb)
    ensures WellFormed(RegisterEdges(tb, es).0)
    decreases |es|
  {
    if es != [] {
      var (t, out) := RegisterEdge(tb, es[0]);
      EdgeStepWellFormed(tb, es[0]);
      if out.Pass? {
        RegisterEdgesWellFormed(t, es[1..]);
      }
    }
  }

  class TypeRegistry {
    /** `verticesObjectsDict` */
    var vertices: Dict<GraphQLType>
    /** `edgesObjectsDict` */
    var edges: Dict<GraphQLType>
    /** `udtType` */
    var udts: map<string, GraphQLType>
    /** `vertexTypeInEdge` */
    var endpoints: map<string, Endpoints>
    /** `attributesObjectDict`, shared by vertex and edge names */
    var attributes: map<string, GraphQLType>

    function Snapshot(): Tables
      reads this
    {
      Tables(vertices, edges, udts, endpoints, attributes)
    }

    ghost predicate Valid()
      reads this
    {
      WellFormed(Snapshot())
    }

    constructor ()
      ensures Snapshot() == EmptyTables && Valid()
    {
      vertices := [];
      edges := [];
      udts := map[];
      endpoints := map[];
      attributes := map[];
    }

    /** createAttributesType: builds the attributes object and records it
        under the object's name; a throw records nothing. */
    method CreateAttributesType(objectName: string, attrs: Option<seq<Attribute>>, idName: Option<string>,
                                idField: Option<GraphQLType>)
      returns (r: Result<GraphQLType>)
      modifies this`attributes
      ensures r == AttributesObject(objectName, attrs, idName, idField, udts)
      ensures attributes == if r.Ok? then old(attributes)[objectName := r.value] else old(attributes)
    {
      var fields: Dict<GraphQLType> := [];
      if idField.Some? && idName.Some? {
        fields := [(idName.value, idField.value)];
      }
      if attrs.None? {
        return Err(ReadError("undefined", "map"));
      }
      var xs := attrs.value;
      ghost var init := fields;
      var i := 0;
      while i < |xs|
        invariant 0 <= i <= |xs|
        invariant AttributeFields(xs[i..], udts, fields) == AttributeFields(xs, udts, init)
        invariant attributes == old(attributes)
      {
        var t := AttributeFieldType(xs[i].attributeType, udts);
        AttributeFieldsAt(xs, udts, fields, i);
        if t.Err? {
          return Err(t.message);
        }
        if t.value.Some? {
          fields := Put(fields, xs[i].attributeName, t.value.value);
        }
        i := i + 1;
      }
      r := Ok(ObjectType(objectName + "Attributes", fields));
      attributes := attributes[objectName := r.value];
    }

    /** The body of generateVertexObjects' callback for one vertex. */
    method AddVertex(v: Vertex) returns (out: Outcome)
      modifies this
      ensures (Snapshot(), out) == VertexStep(old(Snapshot()), v)
    {
      var idType := BasicTypeOf(Lookup(v.primaryId.attributeType, "Name"));
      var fields := [("v_id", idType), ("v_type", StringType)];
      var made: Result<GraphQLType>;
      if v.primaryId.primaryIdAsAttribute {
        made := CreateAttributesType(v.name, v.attributes, v.primaryId.attributeName, Some(idType));
      } else if v.attributes.None? {
        return Fail(ReadError("undefined", "length"));
      } else if |v.attributes.value| != 0 {
        made := CreateAttributesType(v.name, v.attributes, None, None);
      } else {
        vertices := Put(vertices, v.name, ObjectType(v.name, fields));
        return Pass;
      }
      if made.Err? {
        return Fail(made.message);
      }
      fields := fields + [("attributes", made.value)];
      vertices := Put(vertices, v.name, ObjectType(v.name, fields));
      out := Pass;
    }

    /** generateVertexObjects; missing vertex types throw at `vertices.map`. */
    method GenerateVertexObjects(xs: Option<seq<Vertex>>) returns (out: Outcome)
      requires Valid()
      modifies this
      ensures Valid()
      ensures xs.None? ==> out == Fail(ReadError("undefined", "map")) && Snapshot() == old(Snapshot())
      ensures xs.Some? ==> (Snapshot(), out) == RegisterVertices(old(Snapshot()), xs.value)
    {
      if xs.None? {
        return Fail(ReadError("undefined", "map"));
      }
      var vs := xs.value;
      RegisterVerticesWellFormed(Snapshot(), vs);
      var i := 0;
      while i < |vs|
        invariant 0 <= i <= |vs|
        invariant RegisterVertices(Snapshot(), vs[i..]) == RegisterVertices(old(Snapshot()), vs)
      {
        assert vs[i..][1..] == vs[i + 1..];
        out := AddVertex(vs[i]);
        if out.Fail? {
          return;
        }
        i := i + 1;
      }
      out := Pass;
    }

    /** The body of generateEdgeObjects' callback for one edge. */
    method AddEdge(e: Edge) returns (out: Outcome)
      modifies this
      ensures (Snapshot(), out) == RegisterEdge(old(Snapshot()), e)
    {
      var fromVertex := Get(vertices, e.toVertexTypeName);
      var toVertex := Get(vertices, e.fromVertexTypeName);
      if fromVertex.None? || toVertex.None? {
        return Fail(ReadError("undefined", "getFields"));
      }
      var ends := Endpoints(FieldType(fromVertex.value, "v_id"), FieldType(toVertex.value, "v_id"));
      endpoints := endpoints[e.name := ends];
      var fields := EdgeFields(ends);
      if e.attributes.None? || |e.attributes.value| != 0 {
        var made := CreateAttributesType(e.name, e.attributes, None, None);
        if made.Err? {
          return Fail(made.message);
        }
        fields := fields + [("attributes", made.value)];
      }
      edges := Put(edges, e.name, ObjectType(e.name, fields));
      out := Pass;
    }

    /** generateEdgeObjects; missing edge types throw at `edges.map`. */
    method GenerateEdgeObjects(xs: Option<seq<Edge>>) returns (out: Outcome)
      requires Valid()
      modifies this
      ensures Valid()
      ensures xs.None? ==> out == Fail(ReadError("undefined", "map")) && Snapshot() == old(Snapshot())
      ensures xs.Some? ==> (Snapshot(), out) == RegisterEdges(old(Snapshot()), xs.value)
    {
      if xs.None? {
        return Fail(ReadError("undefined", "map"));
      }
      var es := xs.value;
      RegisterEdgesWellFormed(Snapshot(), es);
      var i := 0;
      while i < |es|
        invariant 0 <= i <= |es|
        invariant RegisterEdges(Snapshot(), es[i..]) == RegisterEdges(old(Snapshot()), es)
      {
        assert es[i..][1..] == es[i + 1..];
        out := AddEdge(es[i]);
        if out.Fail? {
          return;
        }
        i := i + 1;
      }
      out := Pass;
    }

    /** The fields of one UDT object, filled field by field. */
    method UdtFieldsOf(u: Udt) returns (fields: Dict<GraphQLType>)
      ensures fields == UdtObject(u).fields
    {
      fields := [];
      var j := 0;
      while j < |u.fields|
        invariant 0 <= j <= |u.fields|
        invariant fields == PutAll([], UdtEntries(u.fields)[..j])
      {
        PutAllSnoc([], UdtEntries(u.fields), j);
        fields := Put(fields, u.fields[j].fieldName, BasicType(u.fields[j].fieldType));
        j := j + 1;
      }
      assert UdtEntries(u.fields)[..j] == UdtEntries(u.fields);
    }

    /** createUDTGraphQLObject: nothing when the document has no UDTs. */
    method CreateUdtGraphQLObject(us: Option<seq<Udt>>)
      modifies this`udts
      ensures udts == if us.None? then old(udts) else RegisterUdts(old(udts), us.value)
    {
      if us.None? {
        return;
      }
      var xs := us.value;
      var i := 0;
      while i < |xs|
        invariant 0 <= i <= |xs|
        invariant udts == RegisterUdts(old(udts), xs[..i])
      {
        var u := xs[i];
        var fields := UdtFieldsOf(u);
        assert xs[..i + 1][..i] == xs[..i];
        udts := udts[u.name := ObjectType(u.name, fields)];
        i := i + 1;
      }
      assert xs[..i] == xs;
    }
  }
}

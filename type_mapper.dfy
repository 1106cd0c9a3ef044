/** The mapping from TigerGraph attribute type names to GraphQL types. */
module TypeMapper {
  import opened Wrappers
  import opened Dict
  import opened GraphQL

  /** The eight TigerGraph scalar type names the mapping knows. */
  const ScalarNames: set<string> :=
    {"INT", "UINT", "FLOAT", "DOUBLE", "STRING", "STRING COMPRESS", "BOOL", "DATETIME"}

  const BasicTable: map<string, GraphQLType> := map[
    "INT" := IntType,
    "UINT" := IntType,
    "FLOAT" := FloatType,
    "DOUBLE" := FloatType,
    "STRING" := StringType,
    "STRING COMPRESS" := StringType,
    "BOOL" := BooleanType,
    "DATETIME" := StringType
  ]

  /** GraphQLBasicTypeMapper: a table lookup; an unknown name gives
      `undefined`, not an error. */
  function BasicType(t: string): (r: GraphQLType)
    ensures r == IntType <==> t == "INT" || t == "UINT"
    ensures r == FloatType <==> t == "FLOAT" || t == "DOUBLE"
    ensures r == StringType <==> t == "STRING" || t == "STRING COMPRESS" || t == "DATETIME"
    ensures r == BooleanType <==> t == "BOOL"
    ensures r == Undefined <==> t !in ScalarNames
  {
    if t in BasicTable then BasicTable[t] else Undefined
  }

  /** `GraphQLBasicTypeMapper(x)` where `x` may be `undefined`. */
  function BasicTypeOf(t: Option<string>): (r: GraphQLType)
    ensures t.None? ==> r == Undefined
  {
    match t
    case Some(name) => BasicType(name)
    case None => Undefined
  }

  const ListError := "Value type is not defined when creating GraphQLList"
  const MapError := "Value type or key type is not defined when creating GraphQLMap"

  /** customizeGraphQLList: the GraphQL list for a TigerGraph LIST or SET. */
  function CustomizeList(valueType: Option<string>): (r: Result<GraphQLType>)
    ensures r.Err? <==> valueType.None?
    ensures r.Err? ==> r.message == ListError
    ensures r.Ok? ==> r.value.ListOf? && r.value.elem == BasicType(valueType.value)
    ensures r.Ok? ==> (r.value.elem == Undefined <==> valueType.value !in ScalarNames)
  {
    match valueType
    case None => Err(ListError)
    case Some(v) => Ok(ListOf(BasicType(v)))
  }

  /** customizeGraphQLMap: a TigerGraph MAP becomes one object type named
      "GraphQLMap" holding a single key/value pair. */
  function CustomizeMap(keyType: Option<string>, valueType: Option<string>): (r: Result<GraphQLType>)
    ensures r.Err? <==> keyType.None? || valueType.None?
    ensures r.Err? ==> r.message == MapError
    ensures r.Ok? ==> r.value.ObjectType? && r.value.name == "GraphQLMap"
    ensures r.Ok? ==> Keys(r.value.fields) == ["key", "value"]
    ensures r.Ok? ==> FieldType(r.value, "key") == BasicType(keyType.value)
    ensures r.Ok? ==> FieldType(r.value, "value") == BasicType(valueType.value)
  {
    if keyType.None? || valueType.None? then Err(MapError)
    else Ok(ObjectType("GraphQLMap", [("key", BasicType(keyType.value)), ("value", BasicType(valueType.value))]))
  }
}

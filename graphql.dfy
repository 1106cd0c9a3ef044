/** The part of the GraphQL type system that the generated schema uses, and
    the shape of a generated operation (a root-query or mutation field). */
module GraphQL {
  import opened Dict

  datatype GraphQLType =
    | IntType
    | FloatType
    | StringType
    | BooleanType
      /** A JavaScript `undefined` standing where a type was expected. */
    | Undefined
    | ListOf(elem: GraphQLType)
    | NonNullOf(inner: GraphQLType)
    | ObjectType(name: string, fields: Dict<GraphQLType>)

  /** `t.getFields()[name].type`, with `undefined` for a missing field. */
  function FieldType(t: GraphQLType, name: string): GraphQLType
  {
    if t.ObjectType? then GetOr(t.fields, name, Undefined) else Undefined
  }

  /** The fields of an object type (`getFields()`); none for any other type. */
  function FieldsOf(t: GraphQLType): Dict<GraphQLType>
  {
    if t.ObjectType? then t.fields else []
  }

  /** A field of a root query or mutation: result type, declared arguments and
      the resolver bound to it. */
  datatype Operation<R> = Operation(resultType: GraphQLType, args: Dict<GraphQLType>, resolve: R)

  /** A named object type whose fields are operations (`rootQuery`, `mutation`). */
  datatype OperationSet<R> = OperationSet(name: string, fields: Dict<Operation<R>>)

  /** GraphQL passes a resolver only the arguments the field declares. */
  predicate Conforms<J>(args: Dict<J>, declared: Dict<GraphQLType>)
  {
    forall k :: k in Keys(args) ==> k in Keys(declared)
  }
}

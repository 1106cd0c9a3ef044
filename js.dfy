/** The JavaScript values that flow through the resolvers: GraphQL argument
    bags, HTTP response bodies and upsert payloads. Numbers are integers only. */
module Js {
  import opened Wrappers
  import opened Dict

  datatype Json =
    | JUndefined
    | JNull
    | JBool(b: bool)
    | JNum(n: int)
    | JStr(s: string)
    | JArray(items: seq<Json>)
    | JObject(members: Dict<Json>)

  predicate IsUndefined(j: Json)
  {
    j.JUndefined?
  }

  /** JavaScript truthiness: `undefined`, `null`, `false`, `0` and `""` are falsy. */
  predicate Truthy(j: Json)
  {
    match j
    case JUndefined => false
    case JNull => false
    case JBool(b) => b
    case JNum(n) => n != 0
    case JStr(s) => s != ""
    case JArray(_) => true
    case JObject(_) => true
  }

  function DigitChar(d: nat): char
    requires d < 10
  {
    "0123456789"[d]
  }

  function NatToDecimal(n: nat): string
  {
    if n < 10 then [DigitChar(n)] else NatToDecimal(n / 10) + [DigitChar(n % 10)]
  }

  function IntToDecimal(n: int): string
  {
    if n < 0 then "-" + NatToDecimal(-n) else NatToDecimal(n)
  }

  /** `Array.prototype.join(",")`: `undefined` and `null` elements become "". */
  function JoinItems(items: seq<Json>): string
    decreases items, 1
  {
    if items == [] then ""
    else
      var head := if items[0].JUndefined? || items[0].JNull? then "" else ToStr(items[0]);
      if |items| == 1 then head else head + "," + JoinItems(items[1..])
  }

  /** The string JavaScript makes of a value in `+` concatenation, in a
      template literal and when it is used as a property key. */
  function ToStr(j: Json): string
    decreases j, 0
  {
    match j
    case JUndefined => "undefined"
    case JNull => "null"
    case JBool(b) => if b then "true" else "false"
    case JNum(n) => IntToDecimal(n)
    case JStr(s) => s
    case JArray(items) => JoinItems(items)
    case JObject(_) => "[object Object]"
  }

  /** GraphQL argument lookup `args.name`: a missing argument is `undefined`. */
  function Arg(args: Dict<Json>, name: string): Json
  {
    GetOr(args, name, JUndefined)
  }

  /** The message of the TypeError thrown when a property of `undefined` or
      `null` is read. */
  function ReadError(base: string, key: string): string
  {
    "Cannot read properties of " + base + " (reading '" + key + "')"
  }

  /** Property read `j.key` / `j[key]`. */
  function Member(j: Json, key: string): (r: Result<Json>)
    ensures r.Err? <==> j.JUndefined? || j.JNull?
    ensures j.JObject? ==> r == Ok(GetOr(j.members, key, JUndefined))
  {
    match j
    case JUndefined => Err(ReadError("undefined", key))
    case JNull => Err(ReadError("null", key))
    case JObject(m) => Ok(GetOr(m, key, JUndefined))
    case _ => Ok(JUndefined)
  }

  /** Element read `j[i]`. */
  function Element(j: Json, i: nat): (r: Result<Json>)
    ensures r.Err? <==> j.JUndefined? || j.JNull?
    ensures j.JArray? ==> r == Ok(if i < |j.items| then j.items[i] else JUndefined)
  {
    match j
    case JUndefined => Err(ReadError("undefined", NatToDecimal(i)))
    case JNull => Err(ReadError("null", NatToDecimal(i)))
    case JArray(items) => Ok(if i < |items| then items[i] else JUndefined)
    case JStr(s) => Ok(if i < |s| then JStr([s[i]]) else JUndefined)
    case JObject(m) => Ok(GetOr(m, NatToDecimal(i), JUndefined))
    case _ => Ok(JUndefined)
  }

  /** `a.b.c`: a chain of property reads that stops at the first TypeError. */
  function Path(j: Json, keys: seq<string>): Result<Json>
    decreases |keys|
  {
    if keys == [] then Ok(j)
    else match Member(j, keys[0])
      case Err(m) => Err(m)
      case Ok(v) => Path(v, keys[1..])
  }
}

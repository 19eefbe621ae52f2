/** The JavaScript values the server inspects: the fields of a parsed JSON
    request body, a request header, an environment variable. Only the part of
    the language the server relies on is modelled: truthiness (the `!x` test
    of the handler and of the CORS callback) and the `a || b` operator used for
    configuration defaults. */
module JsValues {

  /** A JavaScript value as it can appear in a parsed JSON body, plus
      `undefined` for a property that is absent. `NaN` is left out: neither
      JSON nor an environment variable can produce it. Positive and negative
      zero are the same `real` here, and both are falsy in JavaScript. */
  datatype JsValue =
    | Undefined
    | Null
    | Bool(b: bool)
    | Num(n: real)
    | Str(s: string)
    | Arr(items: seq<JsValue>)
    | Obj(fields: map<string, JsValue>)

  /** The falsy values of the ToBoolean table (section 7.1.2 of ECMA-262),
      restricted to the values above: every other value is truthy. */
  const FalsyValues: set<JsValue> := {Undefined, Null, Bool(false), Num(0.0), Str("")}

  /** JavaScript truthiness: `!v` is `!Truthy(v)`. */
  predicate Truthy(v: JsValue)
    ensures Truthy(v) <==> v !in FalsyValues
  {
    match v
    case Undefined => false
    case Null => false
    case Bool(b) => b
    case Num(n) => n != 0.0
    case Str(s) => |s| > 0
    case Arr(_) => true
    case Obj(_) => true
  }

  /** JavaScript `a || b`: the first operand when it is truthy, else the
      second. Its truth value is the disjunction of the operands'. */
  function Or(a: JsValue, b: JsValue): (r: JsValue)
    ensures r == a || r == b
    ensures Truthy(r) <==> Truthy(a) || Truthy(b)
    ensures Truthy(a) ==> r == a
    ensures !Truthy(a) ==> r == b
  {
    if Truthy(a) then a else b
  }

  /** A JSON object: property name to value. A duplicated key in the JSON
      text keeps its last value, which the parser (not modelled) decides. */
  type Body = map<string, JsValue>

  /** Reading a property that is absent yields `undefined`. */
  function Property(body: Body, key: string): (v: JsValue)
    ensures key in body ==> v == body[key]
    ensures key !in body ==> v == Undefined
  {
    if key in body then body[key] else Undefined
  }
}

/**
 * The JSON values a request body field can hold, as the route handlers see them
 * after Express has parsed the body. Numbers are exact reals (a JSON number is
 * never NaN); `Absent` is a field the body does not carry (`undefined`).
 */
module JsonValue {

  datatype Value =
    | Absent
    | Null
    | Bool(b: bool)
    | Num(n: real)
    | Str(s: string)
    | Arr(elements: seq<Value>)
    | Obj(fields: map<string, Value>)

  /** JavaScript truthiness, as used by the handlers' `!field` pre-checks. */
  predicate Truthy(v: Value)
  {
    match v
    case Absent => false
    case Null => false
    case Bool(b) => b
    case Num(n) => n != 0.0
    case Str(s) => s != ""
    case Arr(_) => true
    case Obj(_) => true
  }

  /** The type name zod reports for a value it did not expect. */
  function ReceivedName(v: Value): string
  {
    match v
    case Absent => "undefined"
    case Null => "null"
    case Bool(_) => "boolean"
    case Num(_) => "number"
    case Str(_) => "string"
    case Arr(_) => "array"
    case Obj(_) => "object"
  }

  /**
   * zod's message for a value of the wrong type: "Required" when the field is
   * missing, "Expected <type>, received <type>" otherwise.
   */
  function TypeIssue(expected: string, v: Value): (m: string)
    ensures v.Absent? <==> m == "Required"
  {
    if v.Absent? then "Required" else "Expected " + expected + ", received " + ReceivedName(v)
  }
}

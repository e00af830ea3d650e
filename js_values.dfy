/**
 * JavaScript values as the logger handles them. The logger never computes on
 * a value: it copies values into points, tests their truthiness and
 * serialises error details, and that is all this module offers.
 */
module JsValues {

  datatype Value =
    | Undefined
    | Null
    | Bool(b: bool)
    | Num(n: real)                          // a JavaScript number, carried as is
    | Str(s: string)
    | Object(props: map<string, Value>)     // a plain object or an array
    | Json(source: Value)                   // the text JSON.stringify produces for `source`

  /** JavaScript truthiness: `undefined`, `null`, `false`, `0` and `""` are falsy. */
  predicate Truthy(v: Value)
  {
    match v
    case Undefined => false
    case Null => false
    case Bool(b) => b
    case Num(n) => n != 0.0
    case Str(s) => s != ""
    case Object(_) => true
    case Json(_) => true
  }

  /** JavaScript's logical or: the first operand when it is truthy, else the second. */
  function Or(a: Value, b: Value): (r: Value)
    ensures Truthy(a) ==> r == a
    ensures !Truthy(a) ==> r == b
    ensures Truthy(r) <==> Truthy(a) || Truthy(b)
  {
    if Truthy(a) then a else b
  }

  /**
   * JSON serialisation: `undefined` for `undefined`, and otherwise a JSON
   * text, which is never empty. The text itself is left abstract.
   */
  function Serialize(v: Value): (r: Value)
    ensures v.Undefined? <==> r.Undefined?
    ensures !v.Undefined? ==> Truthy(r)
  {
    if v.Undefined? then Undefined else Json(v)
  }

  /** Reading a property of a plain object: `undefined` when the key is missing. */
  function Property(o: map<string, Value>, key: string): (r: Value)
    ensures key in o ==> r == o[key]
    ensures key !in o ==> r.Undefined?
  {
    if key in o then o[key] else Undefined
  }
}

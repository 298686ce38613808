/**
  The JavaScript values that the canvas store and its client exchange, and the
  few operations the code applies to them: truthiness, property access with
  `.` and `?.`, `||`, and `JSON.stringify` / `JSON.parse` as an abstract
  inverse pair.
 */
module Js {
  import opened Wrappers

  /** A JSON-shaped JavaScript value. Numbers are integers here. */
  datatype Value =
    | Undefined
    | Null
    | Bool(b: bool)
    | Num(n: int)
    | Str(s: string)
    | Arr(items: seq<Value>)
    | Obj(fields: map<string, Value>)

  predicate Nullish(v: Value)
  {
    v.Undefined? || v.Null?
  }

  /** JavaScript truthiness: `undefined`, `null`, `false`, `0` and `''` are falsy. */
  predicate Truthy(v: Value)
  {
    match v
    case Undefined => false
    case Null => false
    case Bool(b) => b
    case Num(n) => n != 0
    case Str(s) => s != ""
    case Arr(_) => true
    case Obj(_) => true
  }

  /** `v.key`: None where JavaScript throws a TypeError (reading a property of
      `null` or `undefined`); a missing key, or any key of a primitive or an
      array, reads as `undefined`. */
  function Get(v: Value, key: string): (r: Option<Value>)
    ensures r.None? <==> Nullish(v)
  {
    match v
    case Undefined => None
    case Null => None
    case Obj(fields) => Some(if key in fields then fields[key] else Undefined)
    case _ => Some(Undefined)
  }

  /** `v?.key`: never throws. */
  function OptGet(v: Value, key: string): Value
  {
    match Get(v, key)
    case None => Undefined
    case Some(x) => x
  }

  /** `a || b` */
  function Or(a: Value, b: Value): Value
  {
    if Truthy(a) then a else b
  }

  /** The text of a JSON document, kept abstract: either the output of
      `JSON.stringify` for a value, or text that is not valid JSON. */
  datatype Text = Stringified(value: Value) | Unparsable(chars: string)

  /** `JSON.stringify(v)`; None stands for the `undefined` it returns for `undefined`. */
  function Stringify(v: Value): Option<Text>
  {
    if v.Undefined? then None else Some(Stringified(v))
  }

  /** `JSON.parse(t)`; None stands for the SyntaxError it throws. */
  function Parse(t: Text): Option<Value>
  {
    match t
    case Stringified(v) => Some(v)
    case Unparsable(_) => None
  }
}

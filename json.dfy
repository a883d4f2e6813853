/** The dynamically typed values the TypeScript source passes around
    (database rows, the decoded `meta` document), with JavaScript's notion
    of truthiness and of reading a property. */
module Json {

  datatype Value =
    | Undefined
    | Null
    | Bool(b: bool)
    | Num(n: real)
    | Str(s: string)
    | Arr(items: seq<Value>)
    | Obj(fields: map<string, Value>)

  /** JavaScript truthiness: `undefined`, `null`, `false`, `0` and `""`
      are falsy; every object and array is truthy. */
  predicate Truthy(v: Value) {
    match v
    case Undefined => false
    case Null => false
    case Bool(b) => b
    case Num(n) => n != 0.0
    case Str(s) => s != ""
    case Arr(_) => true
    case Obj(_) => true
  }

  /** `v[key]` on an object; a missing key reads as `undefined`. */
  function Get(v: Value, key: string): Value {
    if v.Obj? && key in v.fields then v.fields[key] else Undefined
  }

  /** `rows[i]` on an array; an index past the end reads as `undefined`. */
  function At(rows: seq<Value>, i: nat): Value {
    if i < |rows| then rows[i] else Undefined
  }
}

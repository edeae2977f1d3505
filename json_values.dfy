/** JSON-like values as the request handler and cleanObject see them: what
    JSON.parse can produce, plus undefined (a missing property) and the
    server-timestamp sentinel, which is treated as an opaque leaf. JSON
    cannot carry NaN or the infinities, so a number is a real. */
module JsonValues {

  datatype Value =
    | Undefined
    | Null
    | Bool(b: bool)
    | Num(n: real)
    | Str(s: string)
    | Arr(items: seq<Value>)
    | Obj(fields: map<string, Value>)
    | ServerTimestamp

  /** JavaScript truthiness: false, 0, "", null and undefined are falsy. */
  predicate Truthy(v: Value)
  {
    match v
    case Undefined => false
    case Null => false
    case Bool(b) => b
    case Num(n) => n != 0.0
    case Str(s) => s != ""
    case _ => true
  }

  /** undefined or null. */
  predicate Absent(v: Value)
  {
    v.Undefined? || v.Null?
  }

  /** Reading a property of an object: a missing key reads as undefined. */
  function Property(fields: map<string, Value>, key: string): (v: Value)
    ensures key !in fields ==> v == Undefined
    ensures key in fields ==> v == fields[key]
  {
    if key in fields then fields[key] else Undefined
  }
}

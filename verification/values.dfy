/** JSON values, as the agent's responses look once converted to plain Python
    data (dicts, lists, strings, ints, booleans and None). */
module Values {

  /** A JSON value. `Object` is a Python dict with string keys, `Null` is `None`. */
  datatype Json =
    | Null
    | Bool(b: bool)
    | Int(i: int)
    | Str(s: string)
    | Array(items: seq<Json>)
    | Object(fields: map<string, Json>)

  /** The name of the Python type a JSON value is held in, as it appears in
      the interpreter's error messages. */
  function PyTypeName(v: Json): (name: string)
    ensures name == "dict" <==> v.Object?
    ensures name == "NoneType" <==> v.Null?
  {
    match v
    case Null => "NoneType"
    case Bool(_) => "bool"
    case Int(_) => "int"
    case Str(_) => "str"
    case Array(_) => "list"
    case Object(_) => "dict"
  }
}

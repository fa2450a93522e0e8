/** The JSON values the backend sends and the client builds, with the two
    Python notions the client relies on: the type name of a value and its
    truthiness. */
module Json {

  datatype Json =
    | JNull
    | JBool(b: bool)
    | JInt(i: int)
    | JFloat(f: real)
    | JStr(s: string)
    | JArr(items: seq<Json>)
    | JObj(fields: map<string, Json>)

  /** The name of the Python type `json` decoding produces for the value. */
  function TypeName(j: Json): (name: string)
    ensures name == "dict" <==> j.JObj?
    ensures name == "list" <==> j.JArr?
    ensures name == "str" <==> j.JStr?
    ensures name == "NoneType" <==> j.JNull?
  {
    match j
    case JNull => "NoneType"
    case JBool(_) => "bool"
    case JInt(_) => "int"
    case JFloat(_) => "float"
    case JStr(_) => "str"
    case JArr(_) => "list"
    case JObj(_) => "dict"
  }

  /** Python truthiness: None, False, zero and empty containers are false. */
  predicate Truthy(j: Json) {
    match j
    case JNull => false
    case JBool(b) => b
    case JInt(i) => i != 0
    case JFloat(f) => f != 0.0
    case JStr(s) => s != ""
    case JArr(items) => items != []
    case JObj(fields) => fields != map[]
  }

  /** Exactly one value of each kind is falsy. */
  lemma FalsyValues(j: Json)
    ensures !Truthy(j) <==>
      || j == JNull || j == JBool(false) || j == JInt(0) || j == JFloat(0.0)
      || j == JStr("") || j == JArr([]) || j == JObj(map[])
  {
  }
}

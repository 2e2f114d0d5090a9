/**
 * The value `request.get_json()` produces: a decoded JSON document as Python
 * represents it (None, bool, int, float, str, list, dict), and the truth value
 * Python gives it in `if not request_data`.
 */
module Json {

  /** A decoded JSON value. Integers and floats are kept apart as Python's
      decoder keeps them apart; floats are modelled by their exact value. */
  datatype Json =
    | JNull
    | JBool(b: bool)
    | JInt(i: int)
    | JFloat(x: real)
    | JString(s: string)
    | JArray(elems: seq<Json>)
    | JObject(fields: map<string, Json>)

  /** Python truthiness of the decoded value: `None`, `False`, zero and the
      empty string, list and dict are false, everything else is true. */
  predicate Truthy(j: Json) {
    match j
    case JNull => false
    case JBool(b) => b
    case JInt(i) => i != 0
    case JFloat(x) => x != 0.0
    case JString(s) => s != ""
    case JArray(a) => a != []
    case JObject(m) => m != map[]
  }

  /** The JSON documents whose decoded value Python treats as false. */
  const FalsyDocuments: set<Json> :=
    {JNull, JBool(false), JInt(0), JFloat(0.0), JString(""), JArray([]), JObject(map[])}

  /** A decoded body is rejected exactly when it is one of the seven falsy
      documents: `null`, `false`, `0`, `0.0`, `""`, `[]`, `{}`. */
  lemma FalsyExactly(j: Json)
    ensures !Truthy(j) <==> j in FalsyDocuments
  {
  }
}

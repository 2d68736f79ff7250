/** Plain JSON values, as produced by the serializer and carried in tool arguments and payloads. */
module JsonValue {

  /** A JavaScript number. No arithmetic is done on numbers in this model. */
  type Number = real

  datatype Json =
    | JNull
    | JBool(b: bool)
    | JNum(n: Number)
    | JStr(s: string)
    | JArr(items: seq<Json>)
    /** Entries in insertion order, so that key order is observable. */
    | JObj(entries: seq<(string, Json)>)

  /** The keys of an entry sequence, in order. */
  function Keys<V>(es: seq<(string, V)>): (ks: seq<string>)
    ensures |ks| == |es|
    ensures forall i :: 0 <= i < |es| ==> ks[i] == es[i].0
  {
    if es == [] then [] else [es[0].0] + Keys(es[1..])
  }

  /** JavaScript truthiness of a JSON value (the test `if (x)`). */
  predicate Truthy(j: Json) {
    match j
    case JNull => false
    case JBool(b) => b
    case JNum(x) => x != 0.0
    case JStr(s) => s != ""
    case JArr(_) => true
    case JObj(_) => true
  }

  /** The payload `{error: message}` used for every reported failure. */
  function ErrorPayload(message: string): Json {
    JObj([("error", JStr(message))])
  }
}

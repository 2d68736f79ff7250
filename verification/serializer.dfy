/**
 * serializeFirestoreData: converts a document's field mapping into a JSON-safe mapping.
 *
 * At a field position (an entry of a mapping) the native types are converted first: a timestamp
 * becomes its ISO-8601 string, a reference its path, a geographic point the mapping
 * {latitude, longitude}. An array is mapped element by element, and a mapping is serialized
 * recursively. Inside an array, however, every object element is handed to the mapping serializer
 * itself, so the native checks are NOT applied to the element: a timestamp, reference or point
 * directly in an array becomes the mapping of its own internal fields, and a nested array becomes
 * a mapping keyed by "0", "1", ...
 */
module Serializer {
  import opened JsonValue
  import opened FirestoreValue

  /** A primitive copied into JSON unchanged. */
  function PrimJson(p: Prim): Json {
    match p
    case PNull => JNull
    case PBool(b) => JBool(b)
    case PNum(x) => JNum(x)
    case PStr(s) => JStr(s)
  }

  /** The JSON form of a primitive value, which is the value itself. */
  function PrimitiveJson(v: Value): Json
    requires !v.IsObject()
  {
    match v
    case Str(s) => JStr(s)
    case Num(x) => JNum(x)
    case Bool(b) => JBool(b)
    case Null => JNull
  }

  /** The serialized own fields of a native value that sits directly inside an array. */
  function FieldsJson(fs: seq<(string, Prim)>): (r: seq<(string, Json)>)
    ensures |r| == |fs|
    ensures forall i :: 0 <= i < |fs| ==> r[i] == (fs[i].0, PrimJson(fs[i].1))
  {
    if fs == [] then [] else [(fs[0].0, PrimJson(fs[0].1))] + FieldsJson(fs[1..])
  }

  /**
   * No array in j holds another array as a direct element: the shape every serialized value has,
   * since an array element that is an object always comes out as a mapping.
   */
  predicate Settled(j: Json)
    decreases j
  {
    match j
    case JArr(items) => forall i :: 0 <= i < |items| ==> !items[i].JArr? && Settled(items[i])
    case JObj(es) => forall i :: 0 <= i < |es| ==> SettledEntry(es[i])
    case _ => true
  }

  predicate SettledEntry(e: (string, Json))
    decreases e
  {
    Settled(e.1)
  }

  /** Output entry o is input entry e with the same key and its value serialized as a field. */
  predicate Converts(n: Natives, e: (string, Value), o: (string, Json))
    decreases e
  {
    o.0 == e.0 && o.1 == SerializeField(n, e.1)
  }

  /**
   * serializeFirestoreData on a mapping: one output entry per input entry, same key, same order,
   * each key carrying the serialization of its own value only.
   */
  function SerializeData(n: Natives, es: seq<(string, Value)>): (r: seq<(string, Json)>)
    decreases es
    ensures |r| == |es|
    ensures forall i :: 0 <= i < |es| ==> Converts(n, es[i], r[i])
    ensures forall i :: 0 <= i < |r| ==> Settled(r[i].1)
  {
    if es == [] then []
    else
      assert es[0].1 < es[0];
      [(es[0].0, SerializeField(n, es[0].1))] + SerializeData(n, es[1..])
  }

  /** The value stored under one key of the result. */
  function SerializeField(n: Natives, v: Value): (r: Json)
    decreases v
    ensures Settled(r)
  {
    match v
    case Timestamp(secs, nanos) => JStr(n.iso(secs, nanos))
    case Ref(path) => JStr(path)
    case GeoPoint(lat, lon) => JObj([("latitude", JNum(lat)), ("longitude", JNum(lon))])
    case Arr(items) => JArr(SerializeItems(n, items))
    case Obj(es) => JObj(SerializeData(n, es))
    case Str(s) => JStr(s)
    case Num(x) => JNum(x)
    case Bool(b) => JBool(b)
    case Null => JNull
  }

  /** `value.map(item => ...)` on an array field. */
  function SerializeItems(n: Natives, items: seq<Value>): (r: seq<Json>)
    decreases items
    ensures |r| == |items|
    ensures forall i :: 0 <= i < |items| ==> r[i] == SerializeItem(n, items[i])
    ensures forall i :: 0 <= i < |r| ==> !r[i].JArr? && Settled(r[i])
  {
    if items == [] then [] else [SerializeItem(n, items[0])] + SerializeItems(n, items[1..])
  }

  /** One array element: an object goes to the mapping serializer as it is, anything else is copied. */
  function SerializeItem(n: Natives, v: Value): (r: Json)
    decreases v, 1
    ensures !r.JArr? && Settled(r)
  {
    if v.IsObject() then JObj(SerializeObject(n, v)) else PrimitiveJson(v)
  }

  /** serializeFirestoreData applied to an object that is not a plain mapping field. */
  function SerializeObject(n: Natives, v: Value): (r: seq<(string, Json)>)
    requires v.IsObject()
    decreases v, 0
    ensures forall i :: 0 <= i < |r| ==> Settled(r[i].1)
  {
    match v
    case Obj(es) => SerializeData(n, es)
    case Arr(items) => SerializeIndexed(n, items, 0)
    case _ => FieldsJson(n.ownFields(v))
  }

  /** serializeFirestoreData over an array's index-keyed entries, starting at index `from`. */
  function SerializeIndexed(n: Natives, xs: seq<Value>, from: nat): (r: seq<(string, Json)>)
    decreases xs
    ensures |r| == |xs|
    ensures forall i :: 0 <= i < |xs| ==> r[i] == (IndexKey(from + i), SerializeField(n, xs[i]))
    ensures forall i :: 0 <= i < |r| ==> Settled(r[i].1)
  {
    if xs == [] then []
    else [(IndexKey(from), SerializeField(n, xs[0]))] + SerializeIndexed(n, xs[1..], from + 1)
  }
}

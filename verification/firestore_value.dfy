/** Field values as the database client hands them out, before serialization. */
module FirestoreValue {
  import opened JsonValue

  /** A primitive JavaScript value. */
  datatype Prim = PNull | PBool(b: bool) | PNum(n: Number) | PStr(s: string)

  datatype Value =
    /** A database timestamp: seconds and nanoseconds since the epoch. */
    | Timestamp(seconds: int, nanoseconds: int)
    /** A document reference, identified by its slash-separated path. */
    | Ref(path: string)
    /** A geographic point. */
    | GeoPoint(latitude: Number, longitude: Number)
    | Arr(items: seq<Value>)
    /** A plain mapping, entries in insertion order. */
    | Obj(entries: seq<(string, Value)>)
    | Str(s: string)
    | Num(n: Number)
    | Bool(b: bool)
    | Null
  {
    /** One of the three database-native types. */
    predicate IsNative() {
      Timestamp? || Ref? || GeoPoint?
    }

    /** `typeof v === 'object' && v !== null`: natives, arrays and mappings. */
    predicate IsObject() {
      !(Str? || Num? || Bool? || Null?)
    }
  }

  /** What the serializer needs from the client library and the JavaScript runtime. */
  datatype Natives = Natives(
    /** `toDate().toISOString()` of a timestamp given by seconds and nanoseconds. */
    iso: (int, int) -> string,
    /** A native value's own enumerable fields (its internal representation), taken to be primitives. */
    ownFields: Value -> seq<(string, Prim)>)

  function PrimValue(p: Prim): (v: Value)
    ensures !v.IsObject()
  {
    match p
    case PNull => Null
    case PBool(b) => Bool(b)
    case PNum(x) => Num(x)
    case PStr(s) => Str(s)
  }

  /** The entries a primitive-valued field list denotes as a mapping of values. */
  function PrimEntries(fs: seq<(string, Prim)>): (es: seq<(string, Value)>)
    ensures |es| == |fs|
    ensures forall i :: 0 <= i < |fs| ==> es[i] == (fs[i].0, PrimValue(fs[i].1))
  {
    if fs == [] then [] else [(fs[0].0, PrimValue(fs[0].1))] + PrimEntries(fs[1..])
  }

  /** The decimal digit character for d. */
  function Digit(d: nat): (c: char)
    requires d < 10
    ensures '0' <= c <= '9' && c as int - '0' as int == d
  {
    "0123456789"[d]
  }

  /** The property key of array index i: its canonical decimal form, as `Object.entries` lists it. */
  function IndexKey(i: nat): (s: string)
    decreases i
  {
    if i < 10 then [Digit(i)] else IndexKey(i / 10) + [Digit(i % 10)]
  }

  /** The value of a decimal digit string, read most significant digit first. */
  function DecimalValue(s: string): int
    decreases |s|
  {
    if s == [] then 0 else 10 * DecimalValue(s[..|s| - 1]) + (s[|s| - 1] as int - '0' as int)
  }

  predicate IsDigits(s: string) {
    |s| >= 1 && forall k :: 0 <= k < |s| ==> '0' <= s[k] <= '9'
  }

  /** Index keys are digit strings that read back as their index, so distinct indices get distinct keys. */
  lemma {:induction false} IndexKeyRoundTrip(i: nat)
    ensures IsDigits(IndexKey(i))
    ensures DecimalValue(IndexKey(i)) == i
    decreases i
  {
    if i >= 10 {
      IndexKeyRoundTrip(i / 10);
      var s := IndexKey(i);
      assert s[..|s| - 1] == IndexKey(i / 10);
    }
  }

  lemma IndexKeyInjective(i: nat, j: nat)
    requires IndexKey(i) == IndexKey(j)
    ensures i == j
  {
    IndexKeyRoundTrip(i);
    IndexKeyRoundTrip(j);
  }

  /** `Object.entries` of an array: index keys in ascending order, each with its element. */
  function IndexEntries(xs: seq<Value>, from: nat): (es: seq<(string, Value)>)
    ensures |es| == |xs|
    ensures forall i :: 0 <= i < |xs| ==> es[i] == (IndexKey(from + i), xs[i])
  {
    if xs == [] then [] else [(IndexKey(from), xs[0])] + IndexEntries(xs[1..], from + 1)
  }
}

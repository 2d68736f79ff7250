/** What serializeFirestoreData promises: per-field conversion rules, the array quirk, idempotence. */
module SerializerProperties {
  import opened JsonValue
  import opened FirestoreValue
  import opened Serializer

  /**
   * At a mapping field the native types are converted before the array and mapping checks,
   * primitives are copied, and the entry keeps its key and position.
   */
  lemma FieldRules(n: Natives, es: seq<(string, Value)>, i: int)
    requires 0 <= i < |es|
    ensures Keys(SerializeData(n, es)) == Keys(es)
    ensures var v, o := es[i].1, SerializeData(n, es)[i].1;
      && (v.Timestamp? ==> o == JStr(n.iso(v.seconds, v.nanoseconds)))
      && (v.Ref? ==> o == JStr(v.path))
      && (v.GeoPoint? ==> o == JObj([("latitude", JNum(v.latitude)), ("longitude", JNum(v.longitude))]))
      && (v.Obj? ==> o == JObj(SerializeData(n, v.entries)))
      && (v.Arr? ==> o.JArr? && |o.items| == |v.items|)
      && (!v.IsObject() ==> o == PrimitiveJson(v))
  {
    var r := SerializeData(n, es);
    assert Converts(n, es[i], r[i]);
    assert r[i].1 == SerializeField(n, es[i].1);
    KeysOf(n, es);
  }

  /** The serialized mapping has exactly the input's keys, in the input's order. */
  lemma KeysOf(n: Natives, es: seq<(string, Value)>)
    ensures Keys(SerializeData(n, es)) == Keys(es)
  {
    var r := SerializeData(n, es);
    var ks, ks' := Keys(r), Keys(es);
    forall k | 0 <= k < |r|
      ensures ks[k] == ks'[k]
    {
      assert Converts(n, es[k], r[k]);
    }
  }

  /**
   * An array field keeps its length and element order; primitive elements are copied; every object
   * element becomes the mapping serialization of its own entries: a plain mapping its entries,
   * a native its internal fields, a nested array its index-keyed entries.
   */
  lemma ArrayField(n: Natives, xs: seq<Value>)
    ensures var r := SerializeField(n, Arr(xs));
      && r.JArr? && |r.items| == |xs|
      && forall k :: 0 <= k < |xs| ==>
           && (!xs[k].IsObject() ==> r.items[k] == PrimitiveJson(xs[k]))
           && (xs[k].Obj? ==> r.items[k] == JObj(SerializeData(n, xs[k].entries)))
           && (xs[k].IsNative() ==> r.items[k] == JObj(SerializeData(n, PrimEntries(n.ownFields(xs[k])))))
           && (xs[k].Arr? ==> r.items[k] == JObj(SerializeData(n, IndexEntries(xs[k].items, 0))))
  {
    var ys := SerializeItems(n, xs);
    forall k | 0 <= k < |xs|
      ensures xs[k].IsNative() ==> ys[k] == JObj(SerializeData(n, PrimEntries(n.ownFields(xs[k]))))
      ensures xs[k].Arr? ==> ys[k] == JObj(SerializeData(n, IndexEntries(xs[k].items, 0)))
      ensures xs[k].Obj? ==> ys[k] == JObj(SerializeData(n, xs[k].entries))
      ensures !xs[k].IsObject() ==> ys[k] == PrimitiveJson(xs[k])
    {
      assert ys[k] == SerializeItem(n, xs[k]);
      if xs[k].IsObject() {
        assert ys[k] == JObj(SerializeObject(n, xs[k]));
      }
      if xs[k].IsNative() {
        OwnFieldsSerialized(n, n.ownFields(xs[k]));
      }
      if xs[k].Arr? {
        IndexedSerialized(n, xs[k].items, 0);
      }
    }
  }

  /** A native's internal fields, all primitives, serialize to themselves under their own keys. */
  lemma {:induction false} OwnFieldsSerialized(n: Natives, fs: seq<(string, Prim)>)
    ensures FieldsJson(fs) == SerializeData(n, PrimEntries(fs))
  {
    var a, b := FieldsJson(fs), SerializeData(n, PrimEntries(fs));
    forall i | 0 <= i < |fs|
      ensures a[i] == b[i]
    {
      assert Converts(n, PrimEntries(fs)[i], b[i]);
      assert b[i].1 == SerializeField(n, PrimEntries(fs)[i].1);
      assert PrimEntries(fs)[i] == (fs[i].0, PrimValue(fs[i].1));
      assert a[i] == (fs[i].0, PrimJson(fs[i].1));
      match fs[i].1
      case PNull =>
      case PBool(_) =>
      case PNum(_) =>
      case PStr(_) =>
    }
  }

  /** The index-keyed serialization of an array is serializeFirestoreData of `Object.entries(array)`. */
  lemma IndexedSerialized(n: Natives, xs: seq<Value>, from: nat)
    ensures SerializeIndexed(n, xs, from) == SerializeData(n, IndexEntries(xs, from))
  {
    var a, b := SerializeIndexed(n, xs, from), SerializeData(n, IndexEntries(xs, from));
    forall i | 0 <= i < |xs|
      ensures a[i] == b[i]
    {
      assert Converts(n, IndexEntries(xs, from)[i], b[i]);
    }
  }

  /**
   * The quirk: a timestamp or reference directly inside an array does not become its string form,
   * and a nested array does not stay an array.
   */
  lemma ArrayElementNotCanonical(n: Natives, xs: seq<Value>, k: int)
    requires 0 <= k < |xs|
    requires xs[k].Timestamp? || xs[k].Ref? || xs[k].Arr?
    ensures SerializeField(n, Arr(xs)).items[k] != SerializeField(n, xs[k])
  {
    assert SerializeField(n, Arr(xs)).items[k] == SerializeItem(n, xs[k]);
  }

  /** A JSON value read back as a field value: JSON is the subset of values without natives. */
  function Embed(j: Json): (v: Value)
    decreases j
    ensures !v.IsNative()
  {
    match j
    case JNull => Null
    case JBool(b) => Bool(b)
    case JNum(x) => Num(x)
    case JStr(s) => Str(s)
    case JArr(items) => Arr(EmbedItems(items))
    case JObj(es) => Obj(EmbedEntries(es))
  }

  function EmbedItems(items: seq<Json>): (vs: seq<Value>)
    decreases items
    ensures |vs| == |items|
    ensures forall i :: 0 <= i < |items| ==> vs[i] == Embed(items[i])
  {
    if items == [] then [] else [Embed(items[0])] + EmbedItems(items[1..])
  }

  function EmbedEntry(e: (string, Json)): (string, Value)
    decreases e
  {
    (e.0, Embed(e.1))
  }

  function EmbedEntries(es: seq<(string, Json)>): (vs: seq<(string, Value)>)
    decreases es
    ensures |vs| == |es|
    ensures Keys(vs) == Keys(es)
    ensures forall i :: 0 <= i < |es| ==> vs[i] == EmbedEntry(es[i])
  {
    if es == [] then [] else [EmbedEntry(es[0])] + EmbedEntries(es[1..])
  }

  /** A settled JSON value, read back and serialized again, comes out unchanged. */
  lemma {:induction false} SettledFieldFixpoint(n: Natives, j: Json)
    requires Settled(j)
    ensures SerializeField(n, Embed(j)) == j
    decreases j, 1
  {
    match j
    case JArr(items) =>
      var ys := SerializeItems(n, EmbedItems(items));
      forall i | 0 <= i < |items|
        ensures ys[i] == items[i]
      {
        SettledItemFixpoint(n, items[i]);
      }
    case JObj(es) =>
      SettledEntriesFixpoint(n, es);
    case _ =>
  }

  lemma {:induction false} SettledItemFixpoint(n: Natives, j: Json)
    requires Settled(j) && !j.JArr?
    ensures SerializeItem(n, Embed(j)) == j
    decreases j, 0
  {
    if j.JObj? {
      SettledEntriesFixpoint(n, j.entries);
    }
  }

  lemma {:induction false} SettledEntriesFixpoint(n: Natives, es: seq<(string, Json)>)
    requires forall i :: 0 <= i < |es| ==> SettledEntry(es[i])
    ensures SerializeData(n, EmbedEntries(es)) == es
    decreases es
  {
    var vs := EmbedEntries(es);
    var r := SerializeData(n, vs);
    forall i | 0 <= i < |es|
      ensures r[i] == es[i]
    {
      assert Converts(n, vs[i], r[i]);
      assert es[i].1 < es[i];
      SettledFieldFixpoint(n, es[i].1);
    }
  }

  /** Exactly the settled JSON values are left unchanged by serializing them again. */
  lemma SettledIffFixed(n: Natives, j: Json)
    ensures SerializeField(n, Embed(j)) == j <==> Settled(j)
  {
    if Settled(j) {
      SettledFieldFixpoint(n, j);
    }
  }

  /** Serializing an already serialized mapping returns it unchanged. */
  lemma Idempotent(n: Natives, es: seq<(string, Value)>)
    ensures SerializeData(n, EmbedEntries(SerializeData(n, es))) == SerializeData(n, es)
  {
    var r := SerializeData(n, es);
    forall i | 0 <= i < |r|
      ensures SettledEntry(r[i])
    {
    }
    SettledEntriesFixpoint(n, r);
  }
}

/**
 * The values a configurator stores in a cart item's `options` record, and the
 * canonical form `JSON.stringify` gives such a record.
 *
 * A record is an ordered list of (key, value) pairs. A JavaScript object has
 * each key at most once (`DistinctKeys`); `JSON.stringify` writes its
 * array-index keys ("0", "1", ...) first in numeric order and every other key
 * (`PlainKey`) in insertion order. The model keeps insertion order for every
 * key, which is what JavaScript does for an object whose keys are all plain
 * and distinct (`JsObject`), the only kind the storefront builds. Keys whose
 * value is `undefined` are omitted from the text, and
 * `JSON.stringify(undefined)` is `undefined` itself, not a string. The text
 * rendering of the remaining pairs is injective, so two records serialise to
 * the same text exactly when their `Serialized` forms are equal; the model
 * compares those forms instead of the text.
 */
module Json {
  import opened Wrappers

  datatype Value =
    | Str(s: string)
    | Bool(b: bool)
    | Num(n: int)
    | Null
    | Undefined

  type Options = seq<(string, Value)>

  /** JavaScript truthiness, as used by `x || fallback` and `!x`. */
  predicate Truthy(v: Value) {
    match v
    case Str(s) => s != ""
    case Bool(b) => b
    case Num(n) => n != 0
    case Null => false
    case Undefined => false
  }

  /** The number a string of decimal digits denotes. */
  function DecimalValue(s: string): int {
    if s == [] then 0 else DecimalValue(s[..|s| - 1]) * 10 + (s[|s| - 1] as int - '0' as int)
  }

  /** A canonical array index: decimal digits without a leading zero, below 2^32 - 1. */
  predicate IsArrayIndex(key: string) {
    && key != []
    && (forall i :: 0 <= i < |key| ==> '0' <= key[i] <= '9')
    && (key[0] == '0' ==> |key| == 1)
    && DecimalValue(key) < 0xFFFF_FFFF
  }

  /** A key `JSON.stringify` writes in insertion order. */
  predicate PlainKey(key: string) {
    !IsArrayIndex(key)
  }

  predicate DistinctKeys(o: Options) {
    forall i, j :: 0 <= i < j < |o| ==> o[i].0 != o[j].0
  }

  /** A record that is a JavaScript object whose keys all keep their insertion order. */
  predicate JsObject(o: Options) {
    DistinctKeys(o) && forall i :: 0 <= i < |o| ==> PlainKey(o[i].0)
  }

  /** A key that starts with something other than a digit is plain. */
  lemma LetterKeyIsPlain(key: string)
    requires key != [] && !('0' <= key[0] <= '9')
    ensures PlainKey(key)
  {
  }

  /** A record with distinct keys, each starting with a non-digit, is a JavaScript object keeping its order. */
  lemma LetterKeysMakeJsObject(o: Options)
    requires DistinctKeys(o)
    requires forall i :: 0 <= i < |o| ==> o[i].0 != [] && !('0' <= o[i].0[0] <= '9')
    ensures JsObject(o)
  {
    forall i | 0 <= i < |o| ensures PlainKey(o[i].0) {
      LetterKeyIsPlain(o[i].0);
    }
  }

  /** `o[key]`: the value of the last pair with that key, `undefined` when absent. */
  function Get(o: Options, key: string): (v: Value)
    ensures v != Undefined ==> exists k :: 0 <= k < |o| && o[k] == (key, v)
    ensures (forall k :: 0 <= k < |o| ==> o[k].0 != key) ==> v == Undefined
  {
    if o == [] then Undefined
    else if o[|o| - 1].0 == key then o[|o| - 1].1
    else Get(o[..|o| - 1], key)
  }

  /** In a record where the key occurs once, `o[key]` is the value paired with it. */
  lemma {:induction false} GetSingleKey(o: Options, k: nat, key: string)
    requires k < |o| && o[k].0 == key
    requires forall j :: 0 <= j < |o| && j != k ==> o[j].0 != key
    ensures Get(o, key) == o[k].1
  {
    if k != |o| - 1 {
      GetSingleKey(o[..|o| - 1], k, key);
    }
  }

  /** In an object, reading the key of an entry gives that entry's value. */
  lemma GetDistinct(o: Options, k: nat)
    requires DistinctKeys(o) && k < |o|
    ensures Get(o, o[k].0) == o[k].1
  {
    GetSingleKey(o, k, o[k].0);
  }

  /** The pairs `JSON.stringify` writes out: every pair except the undefined-valued ones, in order. */
  function DropUndefined(o: Options): (r: Options)
    ensures forall k :: 0 <= k < |r| ==> r[k].1 != Undefined
    ensures |r| <= |o|
  {
    if o == [] then []
    else if o[0].1 == Undefined then DropUndefined(o[1..])
    else [o[0]] + DropUndefined(o[1..])
  }

  /** The canonical form of `JSON.stringify(options)`; `None` is the `undefined` it returns for no record. */
  function Serialized(o: Option<Options>): Option<Options> {
    match o
    case None => None
    case Some(pairs) => Some(DropUndefined(pairs))
  }

  /** Dropping undefined pairs changes nothing in a record that has none. */
  lemma {:induction false} DropUndefinedNoop(o: Options)
    requires forall k :: 0 <= k < |o| ==> o[k].1 != Undefined
    ensures DropUndefined(o) == o
  {
    if o != [] {
      DropUndefinedNoop(o[1..]);
    }
  }

  /** The pairs written out are exactly the defined pairs of the record. */
  lemma {:induction false} DropUndefinedMembers(o: Options)
    ensures forall x :: x in DropUndefined(o) <==> x in o && x.1 != Undefined
  {
    if o != [] {
      DropUndefinedMembers(o[1..]);
      assert o == [o[0]] + o[1..];
    }
  }

  /** Serialising an object keeps its keys distinct. */
  lemma {:induction false} DropUndefinedDistinct(o: Options)
    requires DistinctKeys(o)
    ensures DistinctKeys(DropUndefined(o))
  {
    if o != [] {
      var tail := o[1..];
      assert DistinctKeys(tail) by {
        forall i, j | 0 <= i < j < |tail| ensures tail[i].0 != tail[j].0 {
          assert tail[i] == o[i + 1] && tail[j] == o[j + 1];
        }
      }
      DropUndefinedDistinct(tail);
      DropUndefinedMembers(tail);
      var rest := DropUndefined(tail);
      if o[0].1 != Undefined {
        var d := [o[0]] + rest;
        forall i, j | 0 <= i < j < |d| ensures d[i].0 != d[j].0 {
          assert d[j] == rest[j - 1] && d[j] in tail;
          var m :| 0 <= m < |tail| && tail[m] == d[j];
          assert o[m + 1] == d[j];
          if i > 0 {
            assert d[i] == rest[i - 1];
          }
        }
      }
    }
  }

  /** In an object, every key reads the same before and after serialisation. */
  lemma GetDropUndefined(o: Options, key: string)
    requires DistinctKeys(o)
    ensures Get(DropUndefined(o), key) == Get(o, key)
  {
    var d := DropUndefined(o);
    DropUndefinedMembers(o);
    DropUndefinedDistinct(o);
    if i :| 0 <= i < |o| && o[i].0 == key {
      GetDistinct(o, i);
      if o[i].1 != Undefined {
        assert o[i] in d;
        var j :| 0 <= j < |d| && d[j] == o[i];
        GetDistinct(d, j);
      } else {
        forall j | 0 <= j < |d| ensures d[j].0 != key {
          assert d[j] in o;
          var m :| 0 <= m < |o| && o[m] == d[j];
        }
      }
    } else {
      forall j | 0 <= j < |d| ensures d[j].0 != key {
        assert d[j] in o;
      }
    }
  }

  /** Serialising a record read back from its own JSON text gives the same text. */
  lemma SerializedIdempotent(o: Option<Options>)
    ensures Serialized(Serialized(o)) == Serialized(o)
  {
    if o.Some? {
      DropUndefinedNoop(DropUndefined(o.value));
    }
  }

  /** Serialisation distributes over concatenation of records. */
  lemma {:induction false} DropUndefinedAppend(a: Options, b: Options)
    ensures DropUndefined(a + b) == DropUndefined(a) + DropUndefined(b)
  {
    if a == [] {
      assert a + b == b;
    } else {
      assert (a + b)[0] == a[0];
      assert (a + b)[1..] == a[1..] + b;
      DropUndefinedAppend(a[1..], b);
    }
  }

  /**
   * A key whose value is `undefined` is invisible to `JSON.stringify`: a record
   * with such a key serialises exactly like the record without it.
   */
  lemma UndefinedKeyInvisible(a: Options, key: string, b: Options)
    requires DistinctKeys(a + [(key, Undefined)] + b)
    ensures Serialized(Some(a + [(key, Undefined)] + b)) == Serialized(Some(a + b))
  {
    DropUndefinedAppend(a + [(key, Undefined)], b);
    DropUndefinedAppend(a, [(key, Undefined)]);
    DropUndefinedAppend(a, b);
    assert DropUndefined([(key, Undefined)]) == [] by {
      assert [(key, Undefined)][1..] == [];
    }
    assert DropUndefined(a + [(key, Undefined)]) == DropUndefined(a);
  }

  /** Key order matters: the same two defined pairs under plain keys, in the other order, serialise differently. */
  lemma KeyOrderMatters(k1: string, v1: Value, k2: string, v2: Value)
    requires k1 != k2 && PlainKey(k1) && PlainKey(k2) && v1 != Undefined && v2 != Undefined
    ensures Serialized(Some([(k1, v1), (k2, v2)])) != Serialized(Some([(k2, v2), (k1, v1)]))
  {
    assert DropUndefined([(k1, v1), (k2, v2)]) == [(k1, v1), (k2, v2)];
    assert DropUndefined([(k2, v2), (k1, v1)]) == [(k2, v2), (k1, v1)];
  }
}

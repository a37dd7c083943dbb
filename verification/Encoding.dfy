/** Storage records and maps as machine values. */
module Encoding {
  import opened Michelson
  import opened Sums

  ghost predicate Injective<K(!new)>(key: K -> Value) {
    forall a, b :: key(a) == key(b) ==> a == b
  }

  ghost function EncodeMap<K(!new), V>(m: map<K, V>, key: K -> Value, val: V -> Value): map<Value, Value>
    requires Injective(key)
  {
    map k | k in m :: key(k) := val(m[k])
  }

  lemma EncodedIn<K(!new), V>(m: map<K, V>, key: K -> Value, val: V -> Value)
    requires Injective(key)
    ensures forall k {:trigger key(k)} :: key(k) in EncodeMap(m, key, val) <==> k in m
    ensures forall k {:trigger m[k]} :: k in m ==> EncodeMap(m, key, val)[key(k)] == val(m[k])
  {}

  lemma EncodedKeys<K(!new), V>(m: map<K, V>, key: K -> Value, val: V -> Value, x: Value)
    requires Injective(key)
    ensures x in EncodeMap(m, key, val) <==> exists k :: k in m && key(k) == x
  {}

  lemma EncodedEntry<K(!new), V>(m: map<K, V>, key: K -> Value, val: V -> Value, k: K)
    requires Injective(key) && k in m
    ensures key(k) in EncodeMap(m, key, val) && EncodeMap(m, key, val)[key(k)] == val(m[k])
  {}

  lemma EncodedPut<K(!new), V>(m: map<K, V>, key: K -> Value, val: V -> Value, k: K, v: V)
    requires Injective(key)
    ensures EncodeMap(m, key, val)[key(k) := val(v)] == EncodeMap(m[k := v], key, val)
  {
    var was, now := EncodeMap(m, key, val)[key(k) := val(v)], EncodeMap(m[k := v], key, val);
    EncodedIn(m, key, val);
    EncodedIn(m[k := v], key, val);
    assert was.Keys == now.Keys;
    forall x | x in was ensures was[x] == now[x] {
      var j :| j in m[k := v] && key(j) == x;
    }
  }

  lemma EncodedRemove<K(!new), V>(m: map<K, V>, key: K -> Value, val: V -> Value, k: K)
    requires Injective(key)
    ensures EncodeMap(m, key, val) - {key(k)} == EncodeMap(m - {k}, key, val)
  {
    var was, now := EncodeMap(m, key, val) - {key(k)}, EncodeMap(m - {k}, key, val);
    EncodedIn(m, key, val);
    EncodedIn(m - {k}, key, val);
    assert was.Keys == now.Keys;
  }

  /** GET, UPDATE with Some and UPDATE with None on an encoded map act on the map it encodes. */
  lemma EncodedAt<K(!new), V>(m: map<K, V>, key: K -> Value, val: V -> Value, k: K, v: V)
    requires Injective(key)
    ensures Lookup(key(k), EncodeMap(m, key, val)) == if k in m then VSome(val(m[k])) else VNone
    ensures EncodeMap(m, key, val)[key(k) := val(v)] == EncodeMap(m[k := v], key, val)
    ensures EncodeMap(m, key, val) - {key(k)} == EncodeMap(m - {k}, key, val)
  {
    EncodedIn(m, key, val);
    hide EncodeMap;
    EncodedPut(m, key, val, k, v);
    EncodedRemove(m, key, val, k);
  }

  /** A sum over an encoded map is the sum over the map, when it weighs each entry as encoded. */
  lemma {:induction false} EncodedSum<K(!new), V>(m: map<K, V>, key: K -> Value, val: V -> Value, weight: (K, V) -> int,
      on: (Value, Value) -> int)
    requires Injective(key) && forall k | k in m :: on(key(k), val(m[k])) == weight(k, m[k])
    ensures Sum(EncodeMap(m, key, val), on) == Sum(m, weight)
    decreases |m|
  {
    if m == map[] {
      assert EncodeMap(m, key, val) == map[];
    } else {
      hide EncodeMap, Sum;
      var k :| k in m;
      EncodedEntry(m, key, val, k);
      EncodedRemove(m, key, val, k);
      SumRemove(m, weight, k);
      SumRemove(EncodeMap(m, key, val), on, key(k));
      EncodedSum(m - {k}, key, val, weight, on);
    }
  }

  /** Taking an entry out first makes no difference to putting one in. */
  lemma TakenAndPut(m: map<Value, Value>, k: Value, v: Value)
    ensures (m - {k})[k := v] == m[k := v]
    ensures Lookup(k, m - {k}) == VNone
  {}

  function AccountKey(a: Account): Value { VAddr(a) }

  function NatKey(n: nat): Value { VInt(n) }

  function EncodeSeq<T>(xs: seq<T>, enc: T -> Value): (r: seq<Value>)
    ensures |r| == |xs| && forall i :: 0 <= i < |xs| ==> r[i] == enc(xs[i])
  {
    seq(|xs|, i requires 0 <= i < |xs| => enc(xs[i]))
  }

  lemma EncodeTail<T>(xs: seq<T>, enc: T -> Value)
    requires xs != []
    ensures EncodeSeq(xs, enc)[1..] == EncodeSeq(xs[1..], enc)
  {}

  lemma EncodeSnoc<T>(xs: seq<T>, x: T, enc: T -> Value)
    ensures EncodeSeq(xs + [x], enc) == EncodeSeq(xs, enc) + [enc(x)]
  {}

  lemma EncodeFew<T>(x: T, y: T, enc: T -> Value)
    ensures EncodeSeq([], enc) == []
    ensures EncodeSeq([x], enc) == [enc(x)]
    ensures EncodeSeq([x, y], enc) == [enc(x), enc(y)]
  {}
}

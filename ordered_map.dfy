/** PHP's ordered associative array: a sequence of key/value pairs in
    insertion order. Assigning to a present key overwrites the value in
    place; assigning to an absent key appends the pair at the end. */
module OrderedMap {
  import opened Common

  type OMap<K(==,!new), V(!new)> = seq<(K, V)>

  /** The keys in order. */
  function Keys<K(==,!new), V(!new)>(m: OMap<K, V>): (ks: seq<K>)
    ensures |ks| == |m|
    ensures forall i :: 0 <= i < |m| ==> ks[i] == m[i].0
  {
    seq(|m|, i requires 0 <= i < |m| => m[i].0)
  }

  /** No key occurs twice (every array PHP builds has this shape). */
  predicate Unique<K(==,!new), V(!new)>(m: OMap<K, V>) {
    forall i, j :: 0 <= i < j < |m| ==> m[i].0 != m[j].0
  }

  /** `i` is the position of the first pair whose key is `k`. */
  predicate IsFirstIndex<K(==,!new), V(!new)>(m: OMap<K, V>, k: K, i: int) {
    0 <= i < |m| && m[i].0 == k && forall j :: 0 <= j < i ==> m[j].0 != k
  }

  /** Position of `k`, if present. */
  function IndexOf<K(==,!new), V(!new)>(m: OMap<K, V>, k: K): (r: Option<nat>)
    ensures r.Some? ==> IsFirstIndex(m, k, r.value)
    ensures r.None? ==> k !in Keys(m)
  {
    if |m| == 0 then None
    else if m[0].0 == k then Some(0)
    else
      match IndexOf(m[1..], k)
      case None => None
      case Some(i) => Some(i + 1)
  }

  /** The value stored under `k`, if any. */
  function Get<K(==,!new), V(!new)>(m: OMap<K, V>, k: K): (r: Option<V>)
    ensures r.None? <==> k !in Keys(m)
    ensures r.Some? ==> exists i :: IsFirstIndex(m, k, i) && m[i].1 == r.value
  {
    match IndexOf(m, k)
    case None => None
    case Some(i) => Some(m[i].1)
  }

  /** Reading a key gives the value at its first position. */
  lemma GetAt<K(!new), V(!new)>(m: OMap<K, V>, k: K, i: int)
    requires IsFirstIndex(m, k, i)
    ensures Get(m, k) == Some(m[i].1)
  {
    assert Keys(m)[i] == k;
  }

  /** `m[k] = v`: overwrite in place, or append when `k` is new. */
  function Put<K(==,!new), V(!new)>(m: OMap<K, V>, k: K, v: V): (r: OMap<K, V>)
    ensures k in Keys(m) ==> |r| == |m| && Keys(r) == Keys(m)
    ensures k !in Keys(m) ==> r == m + [(k, v)]
    ensures forall i :: 0 <= i < |m| && m[i].0 != k ==> r[i] == m[i]
  {
    match IndexOf(m, k)
    case None => m + [(k, v)]
    case Some(i) =>
      var r := m[i := (k, v)];
      assert Keys(r) == Keys(m);
      r
  }

  /** After `m[k] = v`, reading `k` gives `v` and every other key reads as before. */
  lemma PutGet<K(!new), V(!new)>(m: OMap<K, V>, k: K, v: V, k': K)
    ensures Get(Put(m, k, v), k') == if k' == k then Some(v) else Get(m, k')
  {
    var r := Put(m, k, v);
    match IndexOf(m, k)
    case None =>
      if k' == k {
        assert IsFirstIndex(r, k, |m|);
      } else if k' in Keys(m) {
        var i := IndexOf(m, k').value;
        assert IsFirstIndex(r, k', i);
      } else {
        assert k' !in Keys(r);
      }
    case Some(i) =>
      if k' == k {
        assert IsFirstIndex(r, k, i);
      } else if k' in Keys(m) {
        var j := IndexOf(m, k').value;
        assert IsFirstIndex(r, k', j);
      } else {
        assert k' !in Keys(r);
      }
  }

  /** Two assignments to distinct keys: both read back, every other key
      reads as before, and the keys already present keep their order in
      front. */
  lemma PutTwice<K(!new), V(!new)>(m: OMap<K, V>, k1: K, v1: V, k2: K, v2: V)
    requires k1 != k2
    ensures var r := Put(Put(m, k1, v1), k2, v2);
      Get(r, k1) == Some(v1) && Get(r, k2) == Some(v2) &&
      (forall k :: k != k1 && k != k2 ==> Get(r, k) == Get(m, k)) &&
      Keys(m) <= Keys(r)
  {
    var m1 := Put(m, k1, v1);
    var r := Put(m1, k2, v2);
    PutGet(m, k1, v1, k1);
    PutGet(m1, k2, v2, k1);
    PutGet(m1, k2, v2, k2);
    forall k | k != k1 && k != k2 ensures Get(r, k) == Get(m, k) {
      PutGet(m, k1, v1, k);
      PutGet(m1, k2, v2, k);
    }
    PutKeepsPrefix(m, k1, v1);
    PutKeepsPrefix(m1, k2, v2);
  }

  /** The keys before an assignment come first, in order, after it. */
  lemma PutKeepsPrefix<K(!new), V(!new)>(m: OMap<K, V>, k: K, v: V)
    ensures Keys(m) <= Keys(Put(m, k, v))
  {
    if k !in Keys(m) {
      assert Keys(Put(m, k, v)) == Keys(m) + [k];
    }
  }

  /** Assignment keeps every key distinct. */
  lemma PutKeepsUnique<K(!new), V(!new)>(m: OMap<K, V>, k: K, v: V)
    requires Unique(m)
    ensures Unique(Put(m, k, v))
  {
    var r := Put(m, k, v);
    if k in Keys(m) {
      forall i, j | 0 <= i < j < |r| ensures r[i].0 != r[j].0 {
        assert r[i].0 == Keys(r)[i] == Keys(m)[i] == m[i].0;
        assert r[j].0 == Keys(r)[j] == Keys(m)[j] == m[j].0;
      }
    }
  }

  /** The pairs whose key satisfies `keep`, in their original order. */
  function Restrict<K(==,!new), V(!new)>(m: OMap<K, V>, keep: K -> bool): (r: OMap<K, V>)
    ensures forall p :: p in r <==> p in m && keep(p.0)
    ensures |r| <= |m|
  {
    if |m| == 0 then []
    else if keep(m[0].0) then [m[0]] + Restrict(m[1..], keep)
    else Restrict(m[1..], keep)
  }
}

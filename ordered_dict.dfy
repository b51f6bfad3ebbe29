/** An insertion-ordered dictionary as a sequence of (key, value) pairs, with
    the semantics of Python's `d.update({k: v})` and `d[k] = v`: an existing
    key keeps its position and takes the new value, a new key goes last. */
module OrderedDict {
  import opened Common

  type Assoc<K, V> = seq<(K, V)>

  /** The keys in insertion order (Python's `list(d)`). */
  function Keys<K, V>(m: Assoc<K, V>): (r: seq<K>)
    ensures |r| == |m|
    ensures forall i :: 0 <= i < |m| ==> r[i] == m[i].0
  {
    seq(|m|, i requires 0 <= i < |m| => m[i].0)
  }

  /** The position of `k`, or `|m|` when `k` is absent. */
  function Find<K(==), V>(m: Assoc<K, V>, k: K): (i: nat)
    ensures i <= |m|
    ensures i < |m| ==> m[i].0 == k
    ensures forall j :: 0 <= j < i ==> m[j].0 != k
  {
    if m == [] then 0 else if m[0].0 == k then 0 else 1 + Find(m[1..], k)
  }

  /** Python's `d.get(k)`. */
  function Get<K(==), V>(m: Assoc<K, V>, k: K): (r: Option<V>)
    ensures r.None? <==> k !in Keys(m)
    ensures r.Some? ==> (k, r.value) in m
  {
    var i := Find(m, k);
    if i < |m| then Some(m[i].1) else None
  }

  /** Python's `d.update({k: v})`. */
  function Put<K(==,!new), V>(m: Assoc<K, V>, k: K, v: V): (r: Assoc<K, V>)
    ensures k in Keys(m) ==> Keys(r) == Keys(m)
    ensures k !in Keys(m) ==> Keys(r) == Keys(m) + [k]
    ensures Get(r, k) == Some(v)
    ensures forall k' :: k' != k ==> Get(r, k') == Get(m, k')
    ensures Distinct(Keys(m)) ==> Distinct(Keys(r))
  {
    var i := Find(m, k);
    var r := if i < |m| then m[i := (k, v)] else m + [(k, v)];
    forall k' | k' != k ensures Get(r, k') == Get(m, k') {
      GetAgrees(m, r, k');
    }
    r
  }

  /** Two dictionaries that hold `k` at the same positions with the same values
      agree on `k`. */
  lemma GetAgrees<K, V>(m: Assoc<K, V>, r: Assoc<K, V>, k: K)
    requires |m| <= |r|
    requires forall j :: 0 <= j < |m| ==> r[j].0 == m[j].0 && (m[j].0 == k ==> r[j].1 == m[j].1)
    requires forall j :: |m| <= j < |r| ==> r[j].0 != k
    ensures Get(r, k) == Get(m, k)
  {
    var a, b := Find(m, k), Find(r, k);
    if a < |m| {
      assert r[a].0 == k;
    }
    if b < |r| {
      assert m[b].0 == k;
    }
  }

  /** Updating keeps the existing keys as a prefix, in their positions. */
  lemma PutExtends<K(!new), V>(m: Assoc<K, V>, k: K, v: V)
    ensures IsPrefix(Keys(m), Keys(Put(m, k, v)))
    ensures |Put(m, k, v)| <= |m| + 1
  {
  }

  /** The only key `Put` can add is its own, at the end. */
  lemma PutNewKeys<K(!new), V>(m: Assoc<K, V>, k: K, v: V)
    ensures forall i :: |m| <= i < |Put(m, k, v)| ==> Put(m, k, v)[i].0 == k
  {
    var r := Put(m, k, v);
    forall i | |m| <= i < |r| ensures r[i].0 == k {
      assert Keys(r)[i] == r[i].0;
    }
  }
}

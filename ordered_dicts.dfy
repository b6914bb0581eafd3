/**
 * Python's `dict` with string keys: a mapping that remembers the order in
 * which keys were first inserted. Assigning to a present key keeps its
 * position; assigning to a new key appends it; `del` drops it.
 */
module OrderedDicts {
  import opened Wrappers

  /** The entries of a dictionary, in insertion order. */
  type Dict<V> = seq<(string, V)>

  /** The keys in iteration order. */
  function Keys<V>(d: Dict<V>): (ks: seq<string>)
    ensures |ks| == |d|
  {
    if |d| == 0 then [] else [d[0].0] + Keys(d[1..])
  }

  /** No key occurs twice: every dictionary the model builds is of this form. */
  predicate Valid<V>(d: Dict<V>)
  {
    |d| == 0 || (d[0].0 !in Keys(d[1..]) && Valid(d[1..]))
  }

  /** `d.get(k)`: the value stored under `k`, if any. */
  function Get<V>(d: Dict<V>, k: string): (r: Option<V>)
    ensures r.Some? <==> k in Keys(d)
    ensures r.Some? ==> (k, r.value) in d
  {
    if |d| == 0 then None
    else if d[0].0 == k then Some(d[0].1)
    else Get(d[1..], k)
  }

  /** `d[k] = v`. */
  function Put<V>(d: Dict<V>, k: string, v: V): (r: Dict<V>)
    ensures Get(r, k) == Some(v)
    ensures forall k' :: k' != k ==> Get(r, k') == Get(d, k')
    ensures Keys(r) == if k in Keys(d) then Keys(d) else Keys(d) + [k]
    ensures Valid(d) ==> Valid(r)
  {
    if |d| == 0 then [(k, v)]
    else if d[0].0 == k then [(k, v)] + d[1..]
    else
      var rest := Put(d[1..], k, v);
      assert ([d[0]] + rest)[1..] == rest;
      [d[0]] + rest
  }

  /** `del d[k]` when `k` is present; no change otherwise. */
  function Remove<V>(d: Dict<V>, k: string): (r: Dict<V>)
    ensures Get(r, k) == None
    ensures forall k' :: k' != k ==> Get(r, k') == Get(d, k')
    ensures forall k' :: k' in Keys(r) <==> k' in Keys(d) && k' != k
    ensures k !in Keys(d) ==> r == d
    ensures Valid(d) ==> Valid(r)
  {
    if |d| == 0 then []
    else
      var rest := Remove(d[1..], k);
      if d[0].0 == k then rest
      else
        assert ([d[0]] + rest)[1..] == rest;
        [d[0]] + rest
  }

  /** Every entry after `d[k] = v` is an old entry or the new one. */
  lemma {:induction false} PutEntries<V>(d: Dict<V>, k: string, v: V)
    ensures forall p :: p in Put(d, k, v) ==> p in d || p == (k, v)
  {
    if |d| > 0 && d[0].0 != k {
      PutEntries(d[1..], k, v);
      assert Put(d, k, v) == [d[0]] + Put(d[1..], k, v);
      forall p | p in Put(d, k, v) ensures p in d || p == (k, v) {
        if p != d[0] {
          assert p in Put(d[1..], k, v);
          if p in d[1..] { assert p in d; }
        }
      }
    } else if |d| > 0 {
      forall p | p in Put(d, k, v) ensures p in d || p == (k, v) {
        if p != (k, v) { assert p in d[1..]; }
      }
    }
  }

  /** Every entry after `del d[k]` was already there. */
  lemma {:induction false} RemoveEntries<V>(d: Dict<V>, k: string)
    ensures forall p :: p in Remove(d, k) ==> p in d
  {
    if |d| > 0 {
      RemoveEntries(d[1..], k);
      forall p | p in Remove(d, k) ensures p in d {
        if p != d[0] {
          assert p in Remove(d[1..], k);
          assert p in d[1..];
        }
      }
    }
  }
}

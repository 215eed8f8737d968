/**
 * Python's `dict` with `str` keys: its (key, value) pairs in insertion order.
 * Assigning to an existing key keeps its position; a new key goes to the end.
 */
module PyDict {
  import opened Wrappers
  import Text

  type Dict<V> = seq<(string, V)>

  function Keys<V>(d: Dict<V>): (ks: seq<string>)
    ensures |ks| == |d|
    ensures forall i :: 0 <= i < |d| ==> ks[i] == d[i].0
  {
    seq(|d|, i requires 0 <= i < |d| => d[i].0)
  }

  /** What every Python dict satisfies: no key occurs twice. */
  predicate DistinctKeys<V>(d: Dict<V>) {
    Text.Distinct(Keys(d))
  }

  /** `d.get(k)`: the value stored under `k`, if any. */
  function Get<V>(d: Dict<V>, k: string): (r: Option<V>)
    ensures r.Some? <==> k in Keys(d)
  {
    if d == [] then None
    else if d[0].0 == k then Some(d[0].1)
    else Get(d[1..], k)
  }

  /** `d.get(k, default)`. */
  function GetOr<V>(d: Dict<V>, k: string, default: V): V {
    Get(d, k).GetOr(default)
  }

  lemma {:induction false} GetAt<V>(d: Dict<V>, i: nat)
    requires DistinctKeys(d) && i < |d|
    ensures Get(d, d[i].0) == Some(d[i].1)
  {
    if i > 0 {
      assert d[0].0 != d[i].0 by { assert Keys(d)[0] != Keys(d)[i]; }
      assert DistinctKeys(d[1..]) by {
        forall p, q | 0 <= p < q < |d| - 1 ensures Keys(d[1..])[p] != Keys(d[1..])[q] {
          assert Keys(d)[p + 1] != Keys(d)[q + 1];
        }
      }
      GetAt(d[1..], i - 1);
    }
  }

  /** `d[k] = v`. */
  function Put<V>(d: Dict<V>, k: string, v: V): (r: Dict<V>)
    ensures Keys(r) == if k in Keys(d) then Keys(d) else Keys(d) + [k]
  {
    if d == [] then [(k, v)]
    else if d[0].0 == k then [(k, v)] + d[1..]
    else
      var rest := Put(d[1..], k, v);
      assert Keys(d) == [d[0].0] + Keys(d[1..]);
      assert Keys([d[0]] + rest) == [d[0].0] + Keys(rest);
      [d[0]] + rest
  }

  /** After `d[k] = v`, `k` reads `v` and every other key reads what it read before. */
  lemma {:induction false} PutGet<V>(d: Dict<V>, k: string, v: V, k': string)
    ensures Get(Put(d, k, v), k') == if k' == k then Some(v) else Get(d, k')
  {
    if d != [] && d[0].0 != k {
      PutGet(d[1..], k, v, k');
    }
  }

  lemma PutDistinct<V>(d: Dict<V>, k: string, v: V)
    requires DistinctKeys(d)
    ensures DistinctKeys(Put(d, k, v))
  {
    var ks := Keys(d);
    if k !in ks {
      var rs := Keys(Put(d, k, v));
      assert rs == ks + [k];
      forall i, j | 0 <= i < j < |rs| ensures rs[i] != rs[j] {
        if j == |ks| {
          assert rs[i] == ks[i];
        }
      }
    }
  }

  /** `{**a, **b}`: the entries of `b` assigned, in order, over those of `a`. */
  function Merge<V>(a: Dict<V>, b: Dict<V>): (r: Dict<V>)
    ensures forall k :: k in Keys(r) <==> k in Keys(a) || k in Keys(b)
    ensures |a| <= |r| && Keys(r)[..|a|] == Keys(a)
    decreases |b|
  {
    if b == [] then a
    else
      var a' := Put(a, b[0].0, b[0].1);
      var r := Merge(a', b[1..]);
      assert Keys(a')[..|a|] == Keys(a);
      assert Keys(r)[..|a|] == Keys(r)[..|a'|][..|a|];
      r
  }

  lemma {:induction false} MergeDistinct<V>(a: Dict<V>, b: Dict<V>)
    requires DistinctKeys(a)
    ensures DistinctKeys(Merge(a, b))
    decreases |b|
  {
    if b != [] {
      PutDistinct(a, b[0].0, b[0].1);
      MergeDistinct(Put(a, b[0].0, b[0].1), b[1..]);
    }
  }

  /** In `{**a, **b}` every key of `b` takes `b`'s value; every other key keeps `a`'s. */
  lemma {:induction false} MergeGet<V>(a: Dict<V>, b: Dict<V>, k: string)
    requires DistinctKeys(b)
    ensures Get(Merge(a, b), k) == if k in Keys(b) then Get(b, k) else Get(a, k)
    decreases |b|
  {
    if b != [] {
      var a' := Put(a, b[0].0, b[0].1);
      PutGet(a, b[0].0, b[0].1, k);
      assert Keys(b) == [b[0].0] + Keys(b[1..]);
      assert DistinctKeys(b[1..]) by {
        forall p, q | 0 <= p < q < |b| - 1 ensures Keys(b[1..])[p] != Keys(b[1..])[q] {
          assert Keys(b)[p + 1] != Keys(b)[q + 1];
        }
      }
      MergeGet(a', b[1..], k);
      if k == b[0].0 {
        assert k !in Keys(b[1..]) by {
          forall q | 0 <= q < |b| - 1 ensures Keys(b[1..])[q] != k {
            assert Keys(b)[q + 1] != Keys(b)[0];
          }
        }
      }
    }
  }

  /** The same keys in the same order, each value passed through `f`. */
  function MapValues<V, W>(d: Dict<V>, f: V -> W): (r: Dict<W>)
    ensures Keys(r) == Keys(d)
    ensures forall k :: Get(r, k) == match Get(d, k) case Some(v) => Some(f(v)) case None => None
  {
    if d == [] then []
    else
      var rest := MapValues(d[1..], f);
      assert Keys(d) == [d[0].0] + Keys(d[1..]);
      assert Keys([(d[0].0, f(d[0].1))] + rest) == [d[0].0] + Keys(rest);
      [(d[0].0, f(d[0].1))] + rest
  }
}

/**
 * A JavaScript object used as a dictionary with string keys, as a sequence of
 * (key, value) entries in insertion order: the order `Object.keys` and
 * `Object.values` enumerate.
 */
module Dict {
  import opened Wrappers

  /** No key occurs twice, as in every JavaScript object. */
  predicate DistinctKeys<V>(d: seq<(string, V)>) {
    forall i, j | 0 <= i < j < |d| :: d[i].0 != d[j].0
  }

  /** `d[k]`: the value stored under `k`, or `None` when `k` is not a key. */
  function Get<V>(d: seq<(string, V)>, k: string): (r: Option<V>)
    ensures r.None? <==> forall i | 0 <= i < |d| :: d[i].0 != k
    ensures r.Some? ==> exists i | 0 <= i < |d| :: d[i] == (k, r.value)
  {
    if d == [] then None
    else if d[0].0 == k then Some(d[0].1)
    else Get(d[1..], k)
  }

  /** `d[k] = v`: overwrites the value in place when `k` is a key, else adds the entry at the end. */
  function Put<V>(d: seq<(string, V)>, k: string, v: V): seq<(string, V)> {
    if d == [] then [(k, v)]
    else if d[0].0 == k then [(k, v)] + d[1..]
    else [d[0]] + Put(d[1..], k, v)
  }

  /** After `d[k] = v`, `k` maps to `v` and every other key to what it mapped to before. */
  lemma {:induction false} PutGet<V>(d: seq<(string, V)>, k: string, v: V, k': string)
    ensures Get(Put(d, k, v), k') == if k' == k then Some(v) else Get(d, k')
  {
    if d != [] && d[0].0 != k {
      PutGet(d[1..], k, v, k');
      assert Put(d, k, v)[1..] == Put(d[1..], k, v);
    }
  }

  /**
   * `d[k] = v` appends the entry when `k` is new; otherwise it keeps every key in its
   * position. Either way the keys stay distinct.
   */
  lemma {:induction false} PutKeys<V>(d: seq<(string, V)>, k: string, v: V)
    ensures Get(d, k).None? ==> Put(d, k, v) == d + [(k, v)]
    ensures Get(d, k).Some? ==> |Put(d, k, v)| == |d| && forall i | 0 <= i < |d| :: Put(d, k, v)[i].0 == d[i].0
    ensures DistinctKeys(d) ==> DistinctKeys(Put(d, k, v))
  {
    if d != [] && d[0].0 != k {
      PutKeys(d[1..], k, v);
      var r := Put(d, k, v);
      assert r == [d[0]] + Put(d[1..], k, v);
      if Get(d, k).None? {
        assert d == [d[0]] + d[1..];
      }
      if DistinctKeys(d) {
        assert DistinctKeys(d[1..]);
        forall j | 1 <= j < |r| ensures r[j].0 != d[0].0 {
          PutGet(d[1..], k, v, d[0].0);
          assert Get(d[1..], d[0].0).None?;
          assert r[j] in Put(d[1..], k, v);
        }
      }
    }
  }

  /** Every entry after `d[k] = v` is the new entry or one that was there before. */
  lemma {:induction false} PutEntries<V>(d: seq<(string, V)>, k: string, v: V)
    ensures forall e | e in Put(d, k, v) :: e == (k, v) || e in d
  {
    if d != [] && d[0].0 != k {
      PutEntries(d[1..], k, v);
      assert Put(d, k, v) == [d[0]] + Put(d[1..], k, v);
    }
  }

  /** `d[k] || 0` for a dictionary of numbers. */
  function GetOr0(d: seq<(string, real)>, k: string): real {
    Get(d, k).GetOr(0.0)
  }

  /** `Object.values(d).reduce((sum, x) => sum + x, 0)`. */
  function SumValues(d: seq<(string, real)>): real {
    if d == [] then 0.0 else d[0].1 + SumValues(d[1..])
  }

  /** Overwriting or adding one entry changes the sum of the values by exactly that entry. */
  lemma {:induction false} SumAfterPut(d: seq<(string, real)>, k: string, v: real)
    ensures SumValues(Put(d, k, v)) == SumValues(d) - GetOr0(d, k) + v
  {
    if d != [] && d[0].0 != k {
      SumAfterPut(d[1..], k, v);
      assert Put(d, k, v)[1..] == Put(d[1..], k, v);
    }
  }
}

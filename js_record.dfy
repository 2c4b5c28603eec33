/**
 * A JavaScript object used as a dictionary (`Record<string, V>`): its
 * entries in insertion order. `Object.values` walks the entries in that
 * order, and a spread update `{ ...r, [k]: v }` keeps an existing key where
 * it is and appends a new one at the end.
 */
module JsRecord {
  import opened Wrappers

  type Record<V> = seq<(string, V)>

  function Keys<V>(r: Record<V>): (ks: seq<string>)
    ensures |ks| == |r|
    ensures forall i :: 0 <= i < |r| ==> ks[i] == r[i].0
  {
    if r == [] then [] else [r[0].0] + Keys(r[1..])
  }

  /** `Object.values(r)` */
  function Values<V>(r: Record<V>): (vs: seq<V>)
    ensures |vs| == |r|
    ensures forall i :: 0 <= i < |r| ==> vs[i] == r[i].1
  {
    if r == [] then [] else [r[0].1] + Values(r[1..])
  }

  /** No key occurs twice, as in every object. */
  predicate DistinctKeys<V>(r: Record<V>) {
    forall i, j :: 0 <= i < j < |r| ==> r[i].0 != r[j].0
  }

  /** `r[k]`: the value stored under `k`, or undefined. */
  function Get<V>(r: Record<V>, k: string): (o: Option<V>)
    ensures o.None? <==> k !in Keys(r)
    ensures o.Some? ==> (k, o.value) in r
  {
    if r == [] then None else if r[0].0 == k then Some(r[0].1) else Get(r[1..], k)
  }

  /** `{ ...r, [k]: v }` */
  function Put<V>(r: Record<V>, k: string, v: V): (r': Record<V>)
    ensures |r'| == |r| || |r'| == |r| + 1
  {
    if r == [] then [(k, v)]
    else if r[0].0 == k then [(k, v)] + r[1..]
    else [r[0]] + Put(r[1..], k, v)
  }

  /** After the update, `k` maps to `v`. */
  lemma {:induction false} PutGet<V>(r: Record<V>, k: string, v: V)
    ensures Get(Put(r, k, v), k) == Some(v)
  {
    if r != [] && r[0].0 != k {
      PutGet(r[1..], k, v);
    }
  }

  /** Every other key keeps its value (or stays absent). */
  lemma {:induction false} PutOther<V>(r: Record<V>, k: string, v: V, k': string)
    requires k' != k
    ensures Get(Put(r, k, v), k') == Get(r, k')
  {
    if r != [] && r[0].0 != k {
      PutOther(r[1..], k, v, k');
    }
  }

  /** An existing key keeps its position; a new key is appended at the end. */
  lemma {:induction false} PutKeys<V>(r: Record<V>, k: string, v: V)
    ensures Keys(Put(r, k, v)) == if k in Keys(r) then Keys(r) else Keys(r) + [k]
  {
    if r == [] {
    } else if r[0].0 == k {
      assert Keys(Put(r, k, v)) == [k] + Keys(r[1..]);
      assert Keys(r) == [k] + Keys(r[1..]);
    } else {
      var rest := Put(r[1..], k, v);
      PutKeys(r[1..], k, v);
      assert Keys([r[0]] + rest) == [r[0].0] + Keys(rest);
      assert Keys(r) == [r[0].0] + Keys(r[1..]);
      assert k in Keys(r) <==> k in Keys(r[1..]);
    }
  }

  /** Every entry after the update is the new one or an old one. */
  lemma {:induction false} PutEntries<V>(r: Record<V>, k: string, v: V)
    ensures forall e :: e in Put(r, k, v) ==> e == (k, v) || e in r
  {
    if r != [] && r[0].0 != k {
      PutEntries(r[1..], k, v);
    }
  }

  lemma PutKeepsDistinct<V>(r: Record<V>, k: string, v: V)
    requires DistinctKeys(r)
    ensures DistinctKeys(Put(r, k, v))
  {
    var r' := Put(r, k, v);
    PutKeys(r, k, v);
    forall i, j | 0 <= i < j < |r'| ensures r'[i].0 != r'[j].0 {
      assert Keys(r')[i] == r'[i].0 && Keys(r')[j] == r'[j].0;
      if k !in Keys(r) && j == |r| {
        assert Keys(r)[i] == r[i].0;
      } else {
        assert Keys(r')[i] == Keys(r)[i] && Keys(r')[j] == Keys(r)[j];
      }
    }
  }

  /** `s` holds exactly the keys of `done`, once each, all mapped to `v`. */
  ghost predicate FilledFor<V>(s: Record<V>, done: seq<string>, v: V) {
    && DistinctKeys(s)
    && (forall e :: e in s ==> e.1 == v)
    && (forall k :: k in Keys(s) <==> k in done)
  }

  lemma FillStep<V>(s: Record<V>, done: seq<string>, k: string, v: V)
    requires FilledFor(s, done, v)
    ensures FilledFor(Put(s, k, v), done + [k], v)
  {
    PutKeys(s, k, v);
    PutEntries(s, k, v);
    PutKeepsDistinct(s, k, v);
  }

  /** `keys.forEach((k) => (s[k] = v))` on an empty object: every key mapped
      to `v`, once each. */
  method FillAll<V>(keys: seq<string>, v: V) returns (s: Record<V>)
    ensures DistinctKeys(s)
    ensures forall e :: e in s ==> e.1 == v
    ensures forall k :: k in Keys(s) <==> k in keys
  {
    s := [];
    var i := 0;
    while i < |keys|
      invariant 0 <= i <= |keys|
      invariant FilledFor(s, keys[..i], v)
    {
      FillStep(s, keys[..i], keys[i], v);
      assert keys[..i + 1] == keys[..i] + [keys[i]];
      s := Put(s, keys[i], v);
      i := i + 1;
    }
    assert keys[..i] == keys;
  }

  function Sum(xs: seq<int>): int {
    if xs == [] then 0 else xs[0] + Sum(xs[1..])
  }

  lemma {:induction false} SumNonNegative(xs: seq<int>)
    requires forall i :: 0 <= i < |xs| ==> xs[i] >= 0
    ensures Sum(xs) >= 0
  {
    if xs != [] {
      SumNonNegative(xs[1..]);
    }
  }

  /** The sum of the values after `{ ...r, [k]: v }` moves by exactly the
      change at `k` (a missing key counted as 0). */
  lemma {:induction false} SumAfterPut(r: Record<int>, k: string, v: int)
    requires DistinctKeys(r)
    ensures Sum(Values(Put(r, k, v))) == Sum(Values(r)) - Get(r, k).GetOr(0) + v
  {
    if r == [] {
      assert Values([(k, v)]) == [v];
    } else if r[0].0 == k {
      assert Values(Put(r, k, v)) == [v] + Values(r[1..]);
      assert Values(r) == [r[0].1] + Values(r[1..]);
    } else {
      var rest := Put(r[1..], k, v);
      assert Put(r, k, v) == [r[0]] + rest;
      assert Values([r[0]] + rest) == [r[0].1] + Values(rest);
      assert Values(r) == [r[0].1] + Values(r[1..]);
      assert DistinctKeys(r[1..]);
      SumAfterPut(r[1..], k, v);
    }
  }

  lemma {:induction false} SumZeros(xs: seq<int>)
    requires forall i :: 0 <= i < |xs| ==> xs[i] == 0
    ensures Sum(xs) == 0
  {
    if xs != [] {
      SumZeros(xs[1..]);
    }
  }
}

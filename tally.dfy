/**
 * A plain JavaScript object used as a dictionary (`const sales = {}` then
 * `sales[key] = (sales[key] || 0) + amount`), as the list of its entries in insertion
 * order, which is the order `Object.entries`/`Object.keys`/`Object.values` report.
 */
module Tally {

  type Assoc<V> = seq<(string, V)>

  /** The entry keys, in insertion order: `Object.keys(a)`. */
  function Keys<V>(a: Assoc<V>): (r: seq<string>)
    ensures |r| == |a|
    ensures forall i :: 0 <= i < |a| ==> r[i] == a[i].0
  {
    seq(|a|, i requires 0 <= i < |a| => a[i].0)
  }

  /** The entry values, in insertion order: `Object.values(a)`. */
  function Values<V>(a: Assoc<V>): (r: seq<V>)
    ensures |r| == |a|
    ensures forall i :: 0 <= i < |a| ==> r[i] == a[i].1
  {
    seq(|a|, i requires 0 <= i < |a| => a[i].1)
  }

  predicate HasKey<V>(a: Assoc<V>, k: string) {
    k in Keys(a)
  }

  /** Every key occurs once, as in an object. */
  predicate DistinctKeys<V>(a: Assoc<V>) {
    forall i, j :: 0 <= i < j < |a| ==> a[i].0 != a[j].0
  }

  /** `a[k]`, or `zero` when `k` is not a key. */
  function Get<V>(a: Assoc<V>, k: string, zero: V): V {
    if a == [] then zero else if a[0].0 == k then a[0].1 else Get(a[1..], k, zero)
  }

  /**
   * `a[k] = (a[k] || zero) + v` with `plus` as `+`: the entry under `k` grows by `v`; a new
   * key is appended after the existing ones.
   */
  function Bump<V>(a: Assoc<V>, k: string, v: V, zero: V, plus: (V, V) -> V): Assoc<V> {
    if a == [] then [(k, plus(zero, v))]
    else if a[0].0 == k then [(k, plus(a[0].1, v))] + a[1..]
    else [a[0]] + Bump(a[1..], k, v, zero, plus)
  }

  lemma KeysAppend<V>(a: Assoc<V>, b: Assoc<V>)
    ensures Keys(a + b) == Keys(a) + Keys(b)
  {
  }

  lemma KeysTail<V>(a: Assoc<V>)
    requires a != []
    ensures Keys(a) == [a[0].0] + Keys(a[1..])
  {
  }

  /** Bumping keeps the keys in place and appends a key that was not there yet. */
  lemma {:induction false} BumpKeys<V>(a: Assoc<V>, k: string, v: V, zero: V, plus: (V, V) -> V)
    ensures Keys(Bump(a, k, v, zero, plus)) == if HasKey(a, k) then Keys(a) else Keys(a) + [k]
  {
    if a != [] {
      var b := Bump(a, k, v, zero, plus);
      KeysTail(a);
      KeysTail(b);
      if a[0].0 != k {
        BumpKeys(a[1..], k, v, zero, plus);
      }
    }
  }

  /** Bumping keeps every key unique. */
  lemma BumpDistinct<V>(a: Assoc<V>, k: string, v: V, zero: V, plus: (V, V) -> V)
    requires DistinctKeys(a)
    ensures DistinctKeys(Bump(a, k, v, zero, plus))
  {
    var b := Bump(a, k, v, zero, plus);
    BumpKeys(a, k, v, zero, plus);
    forall i, j | 0 <= i < j < |b|
      ensures b[i].0 != b[j].0
    {
      assert Keys(b)[i] == b[i].0 && Keys(b)[j] == b[j].0;
    }
  }

  /**
   * Bumping `k` adds `v` to the value under `k` (starting from `zero` for a new key) and
   * leaves every other key's value alone; `d` is the default of the lookup afterwards.
   */
  lemma {:induction false} BumpGet<V>(a: Assoc<V>, k: string, v: V, zero: V, plus: (V, V) -> V, x: string, d: V)
    ensures Get(Bump(a, k, v, zero, plus), x, d) == if x == k then plus(Get(a, k, zero), v) else Get(a, x, d)
  {
    if a != [] && a[0].0 != k {
      BumpGet(a[1..], k, v, zero, plus, x, d);
    }
  }

  /** The default of a lookup only matters for a key that is absent. */
  lemma {:induction false} GetDefault<V>(a: Assoc<V>, k: string, d1: V, d2: V)
    ensures Get(a, k, d1) == if HasKey(a, k) then Get(a, k, d2) else d1
  {
    if a != [] {
      KeysTail(a);
      GetDefault(a[1..], k, d1, d2);
    }
  }

  function AddReal(x: real, y: real): real { x + y }

  /** The sum of all values: `Object.values(a).reduce((s, x) => s + x, 0)`. */
  function Total(a: Assoc<real>): real {
    if a == [] then 0.0 else a[0].1 + Total(a[1..])
  }

  /** Adding `v` under any key adds `v` to the total. */
  lemma {:induction false} BumpTotal(a: Assoc<real>, k: string, v: real)
    ensures Total(Bump(a, k, v, 0.0, AddReal)) == Total(a) + v
  {
    if a != [] && a[0].0 != k {
      BumpTotal(a[1..], k, v);
    }
  }
}

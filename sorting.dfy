/**
 * JavaScript's `Array.prototype.sort` with a comparator. A comparator `cmp` is read as the
 * relation `le(a, b) == (cmp(a, b) <= 0)`: "a may stand before b". The sort is stable, so
 * it is modelled by insertion sort, which keeps equal elements in their input order.
 */
module Sorting {

  /** Every two values are comparable one way or the other. */
  ghost predicate Total<T(!new)>(le: (T, T) -> bool) {
    forall a, b :: le(a, b) || le(b, a)
  }

  ghost predicate Transitive<T(!new)>(le: (T, T) -> bool) {
    forall a, b, c :: le(a, b) && le(b, c) ==> le(a, c)
  }

  /** Each element may stand before its successor. */
  ghost predicate Sorted<T>(s: seq<T>, le: (T, T) -> bool) {
    forall i :: 0 < i < |s| ==> le(s[i - 1], s[i])
  }

  /** Inserts `x` before the first element it may precede. */
  function Insert<T>(x: T, s: seq<T>, le: (T, T) -> bool): (r: seq<T>)
    ensures |r| == |s| + 1
    ensures multiset(r) == multiset(s) + multiset{x}
  {
    if s == [] then [x]
    else if le(x, s[0]) then [x] + s
    else
      assert s == [s[0]] + s[1..];
      [s[0]] + Insert(x, s[1..], le)
  }

  /** `[...s].sort(cmp)`: a stable sort by `le`. */
  function Sort<T>(s: seq<T>, le: (T, T) -> bool): (r: seq<T>)
    ensures |r| == |s|
    ensures multiset(r) == multiset(s)
  {
    if s == [] then []
    else
      assert s == [s[0]] + s[1..];
      Insert(s[0], Sort(s[1..], le), le)
  }

  lemma {:induction false} InsertSorted<T(!new)>(x: T, s: seq<T>, le: (T, T) -> bool)
    requires Total(le) && Sorted(s, le)
    ensures Sorted(Insert(x, s, le), le)
    ensures Insert(x, s, le)[0] == x || (s != [] && Insert(x, s, le)[0] == s[0])
  {
    if s != [] && !le(x, s[0]) {
      InsertSorted(x, s[1..], le);
    }
  }

  /** With a total comparator the result is in order. */
  lemma {:induction false} SortSorted<T(!new)>(s: seq<T>, le: (T, T) -> bool)
    requires Total(le)
    ensures Sorted(Sort(s, le), le)
  {
    if s != [] {
      SortSorted(s[1..], le);
      InsertSorted(s[0], Sort(s[1..], le), le);
    }
  }

  /** A comparator that calls every pair equal (`return 0`) keeps the input order. */
  lemma {:induction false} SortAllTies<T(!new)>(s: seq<T>, le: (T, T) -> bool)
    requires AllTies(le)
    ensures Sort(s, le) == s
  {
    if s != [] {
      SortAllTies(s[1..], le);
      assert s == [s[0]] + s[1..];
    }
  }

  /** In a sequence sorted by a transitive order the first element may precede every element. */
  lemma {:induction false} SortedFirst<T(!new)>(s: seq<T>, le: (T, T) -> bool, k: nat)
    requires Transitive(le) && (forall a :: le(a, a)) && Sorted(s, le) && k < |s|
    ensures le(s[0], s[k])
  {
    if k > 0 {
      SortedFirst(s, le, k - 1);
    }
  }

  /** A prefix of a sorted sequence is sorted. */
  lemma SortedPrefix<T>(s: seq<T>, le: (T, T) -> bool, n: nat)
    requires Sorted(s, le) && n <= |s|
    ensures Sorted(s[..n], le)
  {
  }

  /** In a sequence sorted by a transitive order, an element may precede every later one. */
  lemma SortedPair<T(!new)>(s: seq<T>, le: (T, T) -> bool, i: nat, j: nat)
    requires Transitive(le) && (forall a :: le(a, a)) && Sorted(s, le) && i <= j < |s|
    ensures le(s[i], s[j])
  {
    var t := s[i..];
    assert Sorted(t, le) by {
      forall k | 0 < k < |t|
        ensures le(t[k - 1], t[k])
      {
        assert t[k - 1] == s[i + k - 1] && t[k] == s[i + k];
      }
    }
    SortedFirst(t, le, j - i);
  }

  /** A total order relates every element to itself. */
  lemma TotalReflexive<T(!new)>(le: (T, T) -> bool)
    requires Total(le)
    ensures forall a :: le(a, a)
  {
    forall a
      ensures le(a, a)
    {
      assert le(a, a) || le(a, a);
    }
  }

  /** What a prefix leaves out of a sequence is its suffix. */
  lemma PrefixRest<T>(s: seq<T>, n: nat)
    requires n <= |s|
    ensures multiset(s[..n]) <= multiset(s)
    ensures multiset(s) - multiset(s[..n]) == multiset(s[n..])
  {
    assert s == s[..n] + s[n..];
  }

  /** In a sorted sequence every element after position `n - 1` may follow it. */
  lemma SuffixFollows<T(!new)>(s: seq<T>, le: (T, T) -> bool, n: nat, x: T)
    requires Transitive(le) && (forall a :: le(a, a)) && Sorted(s, le) && 0 < n <= |s|
    requires x in multiset(s[n..])
    ensures le(s[n - 1], x)
  {
    var k :| 0 <= k < |s[n..]| && s[n..][k] == x;
    SortedPair(s, le, n - 1, n + k);
  }

  /**
   * The first `n` of a sorted copy are `n` best elements: they are in order, they are drawn
   * from `s` (each no more often than in `s`), and every element left out may follow the
   * last one kept.
   */
  lemma SortedTop<T(!new)>(s: seq<T>, le: (T, T) -> bool, n: nat)
    requires Total(le) && Transitive(le) && n <= |s|
    ensures Sorted(Sort(s, le)[..n], le)
    ensures multiset(Sort(s, le)[..n]) <= multiset(s)
    ensures 0 < n ==> forall x :: x in multiset(s) - multiset(Sort(s, le)[..n]) ==> le(Sort(s, le)[n - 1], x)
  {
    var sorted := Sort(s, le);
    SortSorted(s, le);
    SortedPrefix(sorted, le, n);
    PrefixRest(sorted, n);
    if 0 < n {
      TotalReflexive(le);
      forall x | x in multiset(s) - multiset(sorted[..n])
        ensures le(sorted[n - 1], x)
      {
        SuffixFollows(sorted, le, n, x);
      }
    }
  }

  /** The comparator calls every pair equal, as `() => 0` does. */
  ghost predicate AllTies<T(!new)>(le: (T, T) -> bool) {
    forall a, b :: le(a, b)
  }

  /** Two sorted runs whose boundary is in order form one sorted run. */
  lemma SortedJoin<T>(s: seq<T>, j: nat, le: (T, T) -> bool)
    requires j <= |s| && Sorted(s[..j], le) && Sorted(s[j..], le)
    requires 0 < j < |s| ==> le(s[j - 1], s[j])
    ensures Sorted(s, le)
  {
    forall k | 0 < k < |s|
      ensures le(s[k - 1], s[k])
    {
      if k < j {
        assert s[..j][k - 1] == s[k - 1] && s[..j][k] == s[k];
      } else if k > j {
        assert s[j..][k - 1 - j] == s[k - 1] && s[j..][k - j] == s[k];
      }
    }
  }

  /** Insertion only consults the comparator between `x` and the elements of `s`. */
  lemma {:induction false} InsertAgrees<T>(x: T, s: seq<T>, le: (T, T) -> bool, le2: (T, T) -> bool)
    requires forall y :: y in s ==> le(x, y) == le2(x, y)
    ensures Insert(x, s, le) == Insert(x, s, le2)
  {
    if s != [] && !le(x, s[0]) {
      InsertAgrees(x, s[1..], le, le2);
    }
  }

  /** Two comparators that agree on the elements of `s` sort it the same way. */
  lemma {:induction false} SortAgrees<T>(s: seq<T>, le: (T, T) -> bool, le2: (T, T) -> bool)
    requires forall x, y :: x in s && y in s ==> le(x, y) == le2(x, y)
    ensures Sort(s, le) == Sort(s, le2)
  {
    if s != [] {
      SortAgrees(s[1..], le, le2);
      var t := Sort(s[1..], le);
      forall y | y in t
        ensures le(s[0], y) == le2(s[0], y)
      {
        assert y in multiset(t);
        assert y in multiset(s[1..]);
      }
      InsertAgrees(s[0], t, le, le2);
    }
  }

  /**
   * The state of `InsertLast` after moving the new element down to position `j`: both sides
   * of `j` are in order, the element before `j` may precede the one after it, the elements
   * are those of `orig`, and nothing has moved unless the comparator has a strict pair.
   */
  ghost predicate InsertState<T(!new)>(g: seq<T>, j: nat, i: nat, le: (T, T) -> bool, orig: seq<T>) {
    j <= i < |g| && Sorted(g[..j], le) && Sorted(g[j..i + 1], le)
    && (0 < j < i ==> le(g[j - 1], g[j + 1]))
    && multiset(g) == multiset(orig)
    && (j < i ==> !AllTies(le))
    && (j == i ==> g == orig)
  }

  /** An element that may precede the head of a sorted sequence extends it at the front. */
  lemma SortedCons<T>(x: T, s: seq<T>, le: (T, T) -> bool)
    requires Sorted(s, le) && (s != [] ==> le(x, s[0]))
    ensures Sorted([x] + s, le)
  {
    var r := [x] + s;
    forall k | 1 < k < |r|
      ensures le(r[k - 1], r[k])
    {
      assert r[k - 1] == s[k - 2] && r[k] == s[k - 1];
    }
  }

  /** Swapping two neighbours keeps the same elements. */
  lemma SwapPermutes<T>(g: seq<T>, j: nat)
    requires 0 < j < |g|
    ensures multiset(g[j - 1 := g[j]][j := g[j - 1]]) == multiset(g)
  {
    assert g == g[..j - 1] + [g[j - 1]] + [g[j]] + g[j + 1..];
    assert g[j - 1 := g[j]][j := g[j - 1]] == g[..j - 1] + [g[j]] + [g[j - 1]] + g[j + 1..];
  }

  /** One step of `InsertLast`: swapping an out-of-order pair moves the element one place left. */
  lemma SwapStep<T(!new)>(g: seq<T>, j: nat, i: nat, le: (T, T) -> bool, orig: seq<T>)
    requires Total(le) && InsertState(g, j, i, le, orig) && 0 < j && !le(g[j - 1], g[j])
    ensures InsertState(g[j - 1 := g[j]][j := g[j - 1]], j - 1, i, le, orig)
  {
    var t := g[j - 1 := g[j]][j := g[j - 1]];
    SortedPrefix(g[..j], le, j - 1);
    assert t[..j - 1] == g[..j][..j - 1];
    var rest := g[j + 1..i + 1];
    SortedPrefix(g[j..i + 1][1..], le, |rest|);
    assert g[j..i + 1][1..] == rest;
    if rest != [] {
      assert rest[0] == g[j + 1];
    }
    SortedCons(g[j - 1], rest, le);
    assert le(g[j], g[j - 1]);
    SortedCons(g[j], [g[j - 1]] + rest, le);
    assert t[j - 1..i + 1] == [g[j]] + ([g[j - 1]] + rest);
    if 0 < j - 1 {
      assert t[j - 2] == g[..j][j - 2] && t[j] == g[..j][j - 1];
    }
    SwapPermutes(g, j);
  }

  /** Moves `a[i]` left past every element it may not follow, extending the sorted prefix by one. */
  method InsertLast<T(!new)>(a: array<T>, i: nat, le: (T, T) -> bool)
    requires Total(le) && i < a.Length && Sorted(a[..i], le)
    modifies a
    ensures Sorted(a[..i + 1], le)
    ensures multiset(a[..]) == multiset(old(a[..]))
    ensures AllTies(le) ==> a[..] == old(a[..])
  {
    var j: int := i;
    ghost var g := a[..];
    assert g[i..i + 1] == [g[i]];
    while j > 0 && !le(a[j - 1], a[j])
      invariant 0 <= j && g == a[..] && InsertState(g, j, i, le, old(a[..]))
    {
      SwapStep(g, j, i, le, old(a[..]));
      a[j - 1], a[j] := a[j], a[j - 1];
      g := g[j - 1 := g[j]][j := g[j - 1]];
      j := j - 1;
    }
    SortedJoin(g[..i + 1], j, le);
    assert g[..i + 1][..j] == g[..j] && g[..i + 1][j..] == g[j..i + 1];
  }

  /** `a.sort(cmp)`: sorts `a` in place; the result is ordered and a permutation of the input. */
  method SortInPlace<T(!new)>(a: array<T>, le: (T, T) -> bool)
    requires Total(le)
    modifies a
    ensures Sorted(a[..], le)
    ensures multiset(a[..]) == multiset(old(a[..]))
    ensures AllTies(le) ==> a[..] == old(a[..])
  {
    if a.Length == 0 {
      return;
    }
    var i := 1;
    while i < a.Length
      invariant 1 <= i <= a.Length
      invariant Sorted(a[..i], le)
      invariant multiset(a[..]) == multiset(old(a[..]))
      invariant AllTies(le) ==> a[..] == old(a[..])
    {
      InsertLast(a, i, le);
      i := i + 1;
    }
    assert a[..i] == a[..];
  }
}

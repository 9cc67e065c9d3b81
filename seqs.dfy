/**
 * Sequence operations the models are built from: SQL WHERE and JavaScript
 * `filter` (Filter), `map` followed by `filter(Boolean)` (FilterMap), nested
 * loops that emit rows (Flatten), JavaScript's insertion-ordered Set (Dedup)
 * and ORDER BY / Array.prototype.sort on one key (SortBy, stable).
 */
module Seqs {
  import opened Js

  // ---------------------------------------------------------------------------
  // Filter
  // ---------------------------------------------------------------------------

  function Filter<T(!new)>(s: seq<T>, p: T -> bool): (r: seq<T>)
    ensures |r| <= |s|
    ensures forall x :: x in r <==> x in s && p(x)
    ensures forall i :: 0 <= i < |r| ==> p(r[i])
  {
    if s == [] then [] else (if p(s[0]) then [s[0]] else []) + Filter(s[1..], p)
  }

  lemma {:induction false} FilterAppend<T(!new)>(s: seq<T>, t: seq<T>, p: T -> bool)
    ensures Filter(s + t, p) == Filter(s, p) + Filter(t, p)
  {
    if s == [] {
      assert s + t == t;
    } else {
      assert (s + t)[1..] == s[1..] + t;
      FilterAppend(s[1..], t, p);
    }
  }

  /** Filtering keeps every element that passes, in order, and drops the rest. */
  lemma {:induction false} FilterKeepsAll<T(!new)>(s: seq<T>, p: T -> bool)
    requires forall i :: 0 <= i < |s| ==> p(s[i])
    ensures Filter(s, p) == s
  {
    if s != [] {
      FilterKeepsAll(s[1..], p);
    }
  }

  /** Two tests that agree on every element select the same subsequence. */
  lemma {:induction false} FilterCongruent<T(!new)>(s: seq<T>, p: T -> bool, q: T -> bool)
    requires forall i :: 0 <= i < |s| ==> p(s[i]) == q(s[i])
    ensures Filter(s, p) == Filter(s, q)
  {
    if s != [] {
      FilterCongruent(s[1..], p, q);
    }
  }

  lemma {:induction false} FilterMultiset<T(!new)>(s: seq<T>, p: T -> bool)
    ensures multiset(Filter(s, p)) <= multiset(s)
  {
    if s != [] {
      FilterMultiset(s[1..], p);
      FilterHead(s, p);
      MultisetCons(s);
    }
  }

  lemma MultisetCons<T>(s: seq<T>)
    requires s != []
    ensures multiset(s) == multiset{s[0]} + multiset(s[1..])
  {
    assert s == [s[0]] + s[1..];
  }

  // ---------------------------------------------------------------------------
  // FilterMap: `s.map(f).filter(Boolean)` where f returns null to drop an element
  // ---------------------------------------------------------------------------

  function FilterMap<T(!new), U(!new)>(s: seq<T>, f: T -> Option<U>): (r: seq<U>)
    ensures |r| <= |s|
    ensures forall y :: y in r <==> exists i :: 0 <= i < |s| && f(s[i]) == Some(y)
  {
    if s == [] then []
    else
      var rest := FilterMap(s[1..], f);
      assert forall y :: (exists i :: 0 <= i < |s[1..]| && f(s[1..][i]) == Some(y)) <==>
                         (exists i :: 1 <= i < |s| && f(s[i]) == Some(y));
      match f(s[0])
      case None => rest
      case Some(y) => [y] + rest
  }

  lemma {:induction false} FilterMapAppend<T(!new), U(!new)>(s: seq<T>, t: seq<T>, f: T -> Option<U>)
    ensures FilterMap(s + t, f) == FilterMap(s, f) + FilterMap(t, f)
  {
    if s == [] {
      assert s + t == t;
    } else {
      assert (s + t)[1..] == s[1..] + t;
      FilterMapAppend(s[1..], t, f);
    }
  }

  /** FilterMap loses exactly the elements mapped to None. */
  lemma {:induction false} FilterMapLength<T(!new), U(!new)>(s: seq<T>, f: T -> Option<U>)
    ensures |FilterMap(s, f)| == |s| - |Filter(s, x => f(x).None?)|
  {
    if s != [] {
      FilterMapLength(s[1..], f);
    }
  }

  // ---------------------------------------------------------------------------
  // Flatten
  // ---------------------------------------------------------------------------

  function Flatten<T(!new)>(ss: seq<seq<T>>): (r: seq<T>)
    ensures forall x :: x in r <==> exists i :: 0 <= i < |ss| && x in ss[i]
  {
    if ss == [] then []
    else
      var rest := Flatten(ss[1..]);
      assert forall i :: 0 <= i < |ss| - 1 ==> ss[1..][i] == ss[i + 1];
      ss[0] + rest
  }

  lemma {:induction false} FlattenAppend<T(!new)>(a: seq<seq<T>>, b: seq<seq<T>>)
    ensures Flatten(a + b) == Flatten(a) + Flatten(b)
  {
    if a == [] {
      assert a + b == b;
    } else {
      assert (a + b)[1..] == a[1..] + b;
      FlattenAppend(a[1..], b);
    }
  }

  lemma FlattenSnoc<T(!new)>(a: seq<seq<T>>, s: seq<T>)
    ensures Flatten(a + [s]) == Flatten(a) + s
  {
    FlattenAppend(a, [s]);
    assert Flatten([s]) == s + Flatten([s][1..]);
  }

  // ---------------------------------------------------------------------------
  // Dedup: the order in which an insertion-ordered Set lists what was added
  // ---------------------------------------------------------------------------

  predicate NoDuplicates<T(==,!new)>(s: seq<T>) {
    forall i, j :: 0 <= i < j < |s| ==> s[i] != s[j]
  }

  function Dedup<T(==,!new)>(s: seq<T>): seq<T> {
    if s == [] then []
    else
      var d := Dedup(s[..|s| - 1]);
      if s[|s| - 1] in d then d else d + [s[|s| - 1]]
  }

  /** The insertion-ordered Set holds exactly the elements that were added. */
  lemma {:induction false} DedupMembers<T(!new)>(s: seq<T>)
    ensures forall x :: x in Dedup(s) <==> x in s
  {
    if s != [] {
      var p := s[..|s| - 1];
      DedupMembers(p);
      assert s == p + [s[|s| - 1]];
    }
  }

  /** The insertion-ordered Set holds each element once. */
  lemma {:induction false} DedupDistinct<T(!new)>(s: seq<T>)
    ensures NoDuplicates(Dedup(s))
  {
    if s != [] {
      DedupDistinct(s[..|s| - 1]);
    }
  }

  /** Adding one more element to an insertion-ordered Set. */
  lemma DedupSnoc<T(!new)>(s: seq<T>, x: T)
    ensures Dedup(s + [x]) == if x in Dedup(s) then Dedup(s) else Dedup(s) + [x]
  {
    assert (s + [x])[..|s|] == s;
  }

  /** The index of the first occurrence of x in s. */
  function FirstIndex<T(==,!new)>(s: seq<T>, x: T): (k: nat)
    requires x in s
    ensures k < |s| && s[k] == x
    ensures forall i :: 0 <= i < k ==> s[i] != x
  {
    if s[0] == x then 0 else 1 + FirstIndex(s[1..], x)
  }

  lemma FirstIndexPrefix<T(!new)>(s: seq<T>, x: T, n: nat)
    requires n <= |s| && x in s[..n]
    ensures FirstIndex(s[..n], x) == FirstIndex(s, x)
  {
    var k := FirstIndex(s[..n], x);
    assert s[k] == x;
    assert forall i :: 0 <= i < k ==> s[i] == s[..n][i];
  }

  /** Dedup lists the distinct elements in the order of their first occurrence. */
  lemma {:induction false} DedupFirstSeenOrder<T(!new)>(s: seq<T>, i: nat, j: nat)
    requires i < j < |Dedup(s)|
    ensures Dedup(s)[i] in s && Dedup(s)[j] in s
    ensures FirstIndex(s, Dedup(s)[i]) < FirstIndex(s, Dedup(s)[j])
  {
    DedupMembers(s);
    var n := |s| - 1;
    var p := s[..n];
    var d := Dedup(p);
    var x, y := Dedup(s)[i], Dedup(s)[j];
    if j < |d| {
      assert x == d[i] && y == d[j];
      DedupFirstSeenOrder(p, i, j);
      FirstIndexPrefix(s, x, n);
      FirstIndexPrefix(s, y, n);
    } else {
      // y is the last element, which was not yet seen in p
      DedupMembers(p);
      assert y == s[n] && y !in p;
      assert x in p;
      FirstIndexPrefix(s, x, n);
      assert forall k :: 0 <= k < n ==> s[k] == p[k];
      assert forall k :: 0 <= k < n ==> s[k] != y;
    }
  }

  // ---------------------------------------------------------------------------
  // Stable insertion sort on one integer key
  // ---------------------------------------------------------------------------

  predicate SortedBy<T>(s: seq<T>, key: T -> int) {
    forall i, j :: 0 <= i < j < |s| ==> key(s[i]) <= key(s[j])
  }

  /** Inserts x before the first element whose key is not smaller. */
  function InsertBy<T>(x: T, s: seq<T>, key: T -> int): (r: seq<T>)
    ensures multiset(r) == multiset(s) + multiset{x}
    ensures |r| == |s| + 1
    ensures r[0] == x || (|s| > 0 && r[0] == s[0])
  {
    if s == [] || key(x) <= key(s[0]) then [x] + s
    else
      assert s == [s[0]] + s[1..];
      [s[0]] + InsertBy(x, s[1..], key)
  }

  lemma {:induction false} InsertBySorted<T(!new)>(x: T, s: seq<T>, key: T -> int)
    requires SortedBy(s, key)
    ensures SortedBy(InsertBy(x, s, key), key)
  {
    if s != [] && key(x) > key(s[0]) {
      var rest := InsertBy(x, s[1..], key);
      InsertBySorted(x, s[1..], key);
      // rest starts with x or with s[1], both keyed at least key(s[0])
      assert key(s[0]) <= key(rest[0]);
      var r := [s[0]] + rest;
      assert forall i :: 1 <= i < |r| ==> r[i] == rest[i - 1];
    }
  }

  /** An ordering by one key; elements with equal keys keep their relative order. */
  function SortBy<T(!new)>(s: seq<T>, key: T -> int): (r: seq<T>)
    ensures multiset(r) == multiset(s)
    ensures |r| == |s|
    ensures SortedBy(r, key)
  {
    if s == [] then []
    else
      assert s == [s[0]] + s[1..];
      var rest := SortBy(s[1..], key);
      InsertBySorted(s[0], rest, key);
      InsertBy(s[0], rest, key)
  }

  /** Sorting what is already sorted changes nothing. */
  lemma {:induction false} SortBySortedIsIdentity<T(!new)>(s: seq<T>, key: T -> int)
    requires SortedBy(s, key)
    ensures SortBy(s, key) == s
  {
    if s != [] {
      SortBySortedIsIdentity(s[1..], key);
      assert s == [s[0]] + s[1..];
    }
  }

  function KeyIs<T>(key: T -> int, k: int): T -> bool {
    x => key(x) == k
  }

  lemma FilterCons<T(!new)>(x: T, s: seq<T>, p: T -> bool)
    ensures Filter([x] + s, p) == (if p(x) then [x] else []) + Filter(s, p)
  {
    assert ([x] + s)[0] == x && ([x] + s)[1..] == s;
  }

  lemma FilterHead<T(!new)>(s: seq<T>, p: T -> bool)
    requires s != []
    ensures Filter(s, p) == (if p(s[0]) then [s[0]] else []) + Filter(s[1..], p)
  {
  }

  /** Two pieces commute when one of them is empty. */
  lemma SwapEmpty<T>(u: seq<T>, v: seq<T>, t: seq<T>)
    requires u == [] || v == []
    ensures u + (v + t) == v + (u + t)
  {
    if u == [] {
      assert u + (v + t) == v + t && u + t == t;
    } else {
      assert v + t == t && v + (u + t) == u + t;
    }
  }

  lemma {:induction false} InsertByStable<T(!new)>(x: T, s: seq<T>, key: T -> int, k: int)
    ensures Filter(InsertBy(x, s, key), KeyIs(key, k)) ==
            (if key(x) == k then [x] else []) + Filter(s, KeyIs(key, k))
  {
    var p := KeyIs(key, k);
    assert p(x) == (key(x) == k);
    if s == [] || key(x) <= key(s[0]) {
      assert InsertBy(x, s, key) == [x] + s;
      FilterCons(x, s, p);
    } else {
      var rest := InsertBy(x, s[1..], key);
      assert InsertBy(x, s, key) == [s[0]] + rest;
      InsertByStable(x, s[1..], key, k);
      // x's key exceeds s[0]'s, so at most one of the two passes
      assert !(p(x) && p(s[0]));
      FilterCons(s[0], rest, p);
      SwapEmpty(if p(s[0]) then [s[0]] else [], if p(x) then [x] else [], Filter(s[1..], p));
      FilterHead(s, p);
    }
  }

  /** Stability: among elements with one key, the sorted order is the original order. */
  lemma {:induction false} SortByStable<T(!new)>(s: seq<T>, key: T -> int, k: int)
    ensures Filter(SortBy(s, key), KeyIs(key, k)) == Filter(s, KeyIs(key, k))
  {
    if s != [] {
      SortByStable(s[1..], key, k);
      InsertByStable(s[0], SortBy(s[1..], key), key, k);
    }
  }

  /** Inserting after a run of smaller keys: the element lands right after the run. */
  lemma {:induction false} InsertByAfterSmaller<T(!new)>(x: T, u: seq<T>, v: seq<T>, key: T -> int)
    requires KeysBelow(u, key, key(x))
    requires v == [] || key(x) <= key(v[0])
    ensures InsertBy(x, u + v, key) == u + [x] + v
  {
    if u == [] {
      assert u + v == v;
    } else {
      var w := u + v;
      assert w[0] == u[0] && w[1..] == u[1..] + v;
      InsertByAfterSmaller(x, u[1..], v, key);
      assert u + [x] + v == [u[0]] + (u[1..] + [x] + v);
    }
  }

  /** Sorting a suffix inserts its head into the sorted rest. */
  lemma SortByCons<T(!new)>(s: seq<T>, i: nat, key: T -> int)
    requires i < |s|
    ensures SortBy(s[i..], key) == InsertBy(s[i], SortBy(s[i + 1..], key), key)
  {
    assert s[i..][1..] == s[i + 1..];
  }

  /** Every key of u is below bound. */
  predicate KeysBelow<T>(u: seq<T>, key: T -> int, bound: int) {
    forall k :: 0 <= k < |u| ==> key(u[k]) < bound
  }

  lemma KeysBelowSnoc<T>(u: seq<T>, y: T, key: T -> int, bound: int)
    requires KeysBelow(u, key, bound) && key(y) < bound
    ensures KeysBelow(u + [y], key, bound)
  {
  }

  /** Where the element after x sits once the pieces are laid end to end. */
  lemma NextOf<T>(s: seq<T>, p: seq<T>, u: seq<T>, x: T, v: seq<T>)
    requires s == p + u + [x] + v
    ensures |s| == |p| + |u| + 1 + |v|
    ensures v != [] ==> s[|p| + |u| + 1] == v[0]
  {
  }

  /** The state an insertion loop stops in is the insertion of x. */
  lemma InsertedAfter<T(!new)>(s: seq<T>, p: seq<T>, u: seq<T>, x: T, v: seq<T>, key: T -> int)
    requires s == p + u + [x] + v
    requires KeysBelow(u, key, key(x))
    requires v == [] || key(x) <= key(v[0])
    ensures s == p + InsertBy(x, u + v, key)
  {
    InsertByAfterSmaller(x, u, v, key);
    assert s == p + (u + [x] + v);
  }

  /** Swapping x with the element after it moves that element to the run before x. */
  lemma SwapStep<T>(s: seq<T>, p: seq<T>, u: seq<T>, x: T, v: seq<T>, j: nat)
    requires s == p + u + [x] + v && j == |p| + |u| && v != []
    ensures s[j := v[0]][j + 1 := x] == p + (u + [v[0]]) + [x] + v[1..]
    ensures (u + [v[0]]) + v[1..] == u + v
  {
    assert v == [v[0]] + v[1..];
    var r := p + (u + [v[0]]) + [x] + v[1..];
    assert forall k :: 0 <= k < |s| ==> s[j := v[0]][j + 1 := x][k] == r[k];
  }

  /** Exchanges a[j] and a[j + 1]. */
  method SwapNext<T>(a: array<T>, j: nat)
    requires j + 1 < a.Length
    modifies a
    ensures a[..] == old(a[..])[j := old(a[j + 1])][j + 1 := old(a[j])]
  {
    a[j], a[j + 1] := a[j + 1], a[j];
  }

  /**
   * One step of insertion sort: moves a[i] rightwards past the smaller keys
   * after it, leaving a[i..] as the insertion of the old a[i] into the old a[i + 1..].
   */
  method InsertInto<T(!new)>(a: array<T>, i: nat, key: T -> int)
    requires i < a.Length
    modifies a
    ensures a[..] == old(a[..i]) + InsertBy(old(a[i]), old(a[i + 1..]), key)
  {
    var x := a[i];
    ghost var p, t := a[..i], a[i + 1..];
    ghost var u: seq<T>, v := [], t;
    assert a[..] == p + u + [x] + v;
    var j := i;
    while j + 1 < a.Length && key(a[j + 1]) < key(x)
      invariant j == i + |u| && u + v == t
      invariant a[..] == p + u + [x] + v
      invariant KeysBelow(u, key, key(x))
    {
      NextOf(a[..], p, u, x, v);
      KeysBelowSnoc(u, v[0], key, key(x));
      SwapStep(a[..], p, u, x, v, j);
      SwapNext(a, j);
      u, v := u + [v[0]], v[1..];
      j := j + 1;
    }
    NextOf(a[..], p, u, x, v);
    InsertedAfter(a[..], p, u, x, v, key);
  }
}

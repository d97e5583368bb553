/** Array pipelines the front end builds from `filter`, `slice(0, n)` and
    `sort`: JavaScript's `Array.prototype.sort` is stable, so it is modelled
    as an insertion sort that keeps equal elements in their original order. */
module Seqs {

  // ---------------------------------------------------------------------------
  // filter

  function Filter<T(!new)>(s: seq<T>, f: T -> bool): (r: seq<T>)
    ensures |r| <= |s|
    decreases |s|
  {
    if |s| == 0 then [] else (if f(s[0]) then [s[0]] else []) + Filter(s[1..], f)
  }

  /** The filtered sequence holds exactly the elements that pass the test. */
  lemma {:induction false} FilterMembers<T(!new)>(s: seq<T>, f: T -> bool)
    ensures forall x :: x in Filter(s, f) <==> x in s && f(x)
    decreases |s|
  {
    if |s| > 0 {
      FilterMembers(s[1..], f);
      assert s == [s[0]] + s[1..];
    }
  }

  lemma {:induction false} FilterAppend<T(!new)>(a: seq<T>, b: seq<T>, f: T -> bool)
    ensures Filter(a + b, f) == Filter(a, f) + Filter(b, f)
    decreases |a|
  {
    if |a| == 0 {
      assert a + b == b;
    } else {
      var head := if f(a[0]) then [a[0]] else [];
      assert (a + b)[1..] == a[1..] + b;
      FilterAppend(a[1..], b, f);
      assert Filter(a + b, f) == head + Filter(a[1..] + b, f);
      assert Filter(a, f) == head + Filter(a[1..], f);
    }
  }

  /** Keeping the elements that satisfy f and those that do not splits the
      sequence: together they are the same multiset. */
  lemma {:induction false} FilterSplit<T(!new)>(s: seq<T>, f: T -> bool, g: T -> bool)
    requires forall x :: g(x) == !f(x)
    ensures multiset(Filter(s, f)) + multiset(Filter(s, g)) == multiset(s)
    decreases |s|
  {
    if |s| > 0 {
      var x, rest := s[0], s[1..];
      FilterSplit(rest, f, g);
      assert s == [x] + rest;
      assert multiset(s) == multiset{x} + multiset(rest);
      var rf, rg := Filter(rest, f), Filter(rest, g);
      if f(x) {
        assert !g(x);
        assert Filter(s, f) == [x] + rf;
        assert multiset([x] + rf) == multiset{x} + multiset(rf);
        assert Filter(s, g) == rg;
      } else {
        assert g(x);
        assert Filter(s, f) == rf;
        assert Filter(s, g) == [x] + rg;
        assert multiset([x] + rg) == multiset{x} + multiset(rg);
      }
    }
  }

  lemma {:induction false} FilterMultiset<T(!new)>(s: seq<T>, f: T -> bool)
    ensures multiset(Filter(s, f)) <= multiset(s)
    decreases |s|
  {
    if |s| > 0 {
      FilterMultiset(s[1..], f);
      assert s == [s[0]] + s[1..];
    }
  }

  /** Filtering by f and then by g is filtering by both. */
  lemma {:induction false} FilterFilter<T(!new)>(s: seq<T>, f: T -> bool, g: T -> bool, h: T -> bool)
    requires forall x :: h(x) == (f(x) && g(x))
    ensures Filter(Filter(s, f), g) == Filter(s, h)
    decreases |s|
  {
    if |s| > 0 {
      FilterFilter(s[1..], f, g, h);
      var rest := Filter(s[1..], f);
      if f(s[0]) {
        assert Filter(s, f) == [s[0]] + rest;
        FilterAppend([s[0]], rest, g);
        assert [s[0]][1..] == [];
        assert Filter([s[0]], g) == (if g(s[0]) then [s[0]] else []) + Filter([], g);
      } else {
        assert Filter(s, f) == [] + rest == rest;
      }
    }
  }

  /** Filtering is a function of the elements alone: two filters that agree
      on every element give the same result. */
  lemma {:induction false} FilterExt<T(!new)>(s: seq<T>, f: T -> bool, g: T -> bool)
    requires forall x :: x in s ==> f(x) == g(x)
    ensures Filter(s, f) == Filter(s, g)
    decreases |s|
  {
    if |s| > 0 {
      FilterExt(s[1..], f, g);
    }
  }

  /** A filter that no element of s fails keeps everything. */
  lemma {:induction false} FilterAll<T(!new)>(s: seq<T>, f: T -> bool)
    requires forall x :: x in s ==> f(x)
    ensures Filter(s, f) == s
    decreases |s|
  {
    if |s| > 0 {
      FilterAll(s[1..], f);
      assert s == [s[0]] + s[1..];
    }
  }

  /** A filter keeps the whole length exactly when every element passes. */
  lemma {:induction false} FilterKeepsAll<T(!new)>(s: seq<T>, f: T -> bool)
    ensures |Filter(s, f)| == |s| <==> forall x :: x in s ==> f(x)
    decreases |s|
  {
    if |s| > 0 {
      FilterKeepsAll(s[1..], f);
      assert s == [s[0]] + s[1..];
      assert forall x :: x in s <==> x == s[0] || x in s[1..];
    }
  }

  /** Three filters no two of which keep the same element keep at most
      the whole sequence between them. */
  lemma {:induction false} DisjointFilters<T(!new)>(s: seq<T>, f: T -> bool, g: T -> bool, h: T -> bool)
    requires forall x :: !(f(x) && g(x)) && !(f(x) && h(x)) && !(g(x) && h(x))
    ensures |Filter(s, f)| + |Filter(s, g)| + |Filter(s, h)| <= |s|
    decreases |s|
  {
    if |s| > 0 {
      DisjointFilters(s[1..], f, g, h);
    }
  }

  function Count<T(!new)>(s: seq<T>, f: T -> bool): nat
  {
    |Filter(s, f)|
  }

  /** `slice(0, n)`. */
  function Take<T>(s: seq<T>, n: nat): (r: seq<T>)
    ensures |r| == if |s| < n then |s| else n
    ensures r == s[..|r|]
  {
    if |s| <= n then s else s[..n]
  }

  /** A prefix takes each element at most as often as the whole does. */
  lemma TakeMultiset<T>(s: seq<T>, n: nat)
    ensures multiset(Take(s, n)) <= multiset(s)
  {
    var r := Take(s, n);
    assert s == r + s[|r|..];
    assert multiset(s) == multiset(r) + multiset(s[|r|..]);
  }

  /** `slice(n)`. */
  function Drop<T>(s: seq<T>, n: nat): (r: seq<T>)
    ensures |r| == if |s| < n then 0 else |s| - n
    ensures Take(s, n) + r == s
  {
    if |s| <= n then [] else s[n..]
  }

  // ---------------------------------------------------------------------------
  // stable sort

  /** `leq` is a total preorder: what a consistent `sort` comparator induces. */
  ghost predicate TotalPreorder<T(!new)>(leq: (T, T) -> bool)
  {
    Total(leq) && Transitive(leq)
  }

  ghost predicate Total<T(!new)>(leq: (T, T) -> bool)
  {
    forall a, b :: leq(a, b) || leq(b, a)
  }

  ghost predicate Transitive<T(!new)>(leq: (T, T) -> bool)
  {
    forall a, b, c :: leq(a, b) && leq(b, c) ==> leq(a, c)
  }

  predicate Sorted<T>(s: seq<T>, leq: (T, T) -> bool)
  {
    forall i, j :: 0 <= i < j < |s| ==> leq(s[i], s[j])
  }

  /** Inserts x after every element that does not compare greater than it. */
  function InsertLast<T>(sorted: seq<T>, x: T, leq: (T, T) -> bool): (r: seq<T>)
    ensures multiset(r) == multiset(sorted) + multiset{x}
    ensures |r| == |sorted| + 1
    decreases |sorted|
  {
    if |sorted| == 0 then [x]
    else if leq(sorted[|sorted| - 1], x) then sorted + [x]
    else
      var n := |sorted| - 1;
      assert sorted == sorted[..n] + [sorted[n]];
      InsertLast(sorted[..n], x, leq) + [sorted[n]]
  }

  /** Stable insertion sort: each element is inserted, in the original order,
      after everything already placed that is not greater than it. */
  function SortBy<T>(s: seq<T>, leq: (T, T) -> bool): (r: seq<T>)
    ensures multiset(r) == multiset(s)
    ensures |r| == |s|
    decreases |s|
  {
    if |s| == 0 then []
    else
      assert s == s[..|s| - 1] + [s[|s| - 1]];
      InsertLast(SortBy(s[..|s| - 1], leq), s[|s| - 1], leq)
  }

  lemma {:induction false} InsertLastSorted<T(!new)>(sorted: seq<T>, x: T, leq: (T, T) -> bool)
    requires TotalPreorder(leq) && Sorted(sorted, leq)
    ensures Sorted(InsertLast(sorted, x, leq), leq)
    ensures |sorted| > 0 && !leq(sorted[|sorted| - 1], x) ==>
      InsertLast(sorted, x, leq)[|sorted|] == sorted[|sorted| - 1]
    decreases |sorted|
  {
    if |sorted| > 0 && !leq(sorted[|sorted| - 1], x) {
      var n := |sorted| - 1;
      InsertLastSorted(sorted[..n], x, leq);
      var r := InsertLast(sorted, x, leq);
      var left := InsertLast(sorted[..n], x, leq);
      assert r == left + [sorted[n]];
      forall e | e in left ensures leq(e, sorted[n]) {
        assert e in multiset(left);
        assert e == x || e in multiset(sorted[..n]);
        if e != x {
          var k :| 0 <= k < n && sorted[..n][k] == e;
          assert sorted[k] == e;
        }
      }
      forall i, j | 0 <= i < j < |r| ensures leq(r[i], r[j]) {
        if j == n + 1 {
          assert r[i] == left[i] && r[i] in left;
        } else {
          assert r[i] == left[i] && r[j] == left[j];
        }
      }
    }
  }

  /** The sort's result is ordered by the comparator. */
  lemma {:induction false} SortBySorted<T(!new)>(s: seq<T>, leq: (T, T) -> bool)
    requires TotalPreorder(leq)
    ensures Sorted(SortBy(s, leq), leq)
    decreases |s|
  {
    if |s| > 0 {
      SortBySorted(s[..|s| - 1], leq);
      InsertLastSorted(SortBy(s[..|s| - 1], leq), s[|s| - 1], leq);
    }
  }

  /** The elements comparator-equivalent to y, in order. */
  function Block<T(!new)>(s: seq<T>, y: T, leq: (T, T) -> bool): seq<T>
  {
    Filter(s, EquivalentTo(y, leq))
  }

  function EquivalentTo<T>(y: T, leq: (T, T) -> bool): T -> bool
  {
    e => leq(e, y) && leq(y, e)
  }

  /** An element that sorts strictly after x is not in the same block as x. */
  lemma NotBothEquivalent<T(!new)>(x: T, z: T, y: T, leq: (T, T) -> bool)
    requires Transitive(leq) && !leq(z, x)
    ensures !(EquivalentTo(y, leq)(x) && EquivalentTo(y, leq)(z))
  {
  }

  /** Swapping the last element of s with a new element a does not change
      what a filter keeps when at most one of the two passes it. */
  lemma {:induction false} FilterSwapLast<T(!new)>(s: seq<T>, a: T, f: T -> bool)
    requires |s| > 0 && !(f(a) && f(s[|s| - 1]))
    ensures Filter(s[..|s| - 1] + [a], f) + Filter([s[|s| - 1]], f) == Filter(s + [a], f)
  {
    var n := |s| - 1;
    var pre, b := s[..n], s[n];
    FilterAppend(pre, [a], f);
    assert s == pre + [b];
    FilterAppend(pre, [b], f);
    FilterAppend(s, [a], f);
    FilterSingle(a, f);
    FilterSingle(b, f);
  }

  lemma FilterSingle<T(!new)>(a: T, f: T -> bool)
    ensures Filter([a], f) == if f(a) then [a] else []
  {
    assert [a][1..] == [];
  }

  lemma {:induction false} InsertLastStable<T(!new)>(sorted: seq<T>, x: T, y: T, leq: (T, T) -> bool)
    requires Transitive(leq)
    ensures Block(InsertLast(sorted, x, leq), y, leq) == Block(sorted + [x], y, leq)
    decreases |sorted|
  {
    var f := EquivalentTo(y, leq);
    if |sorted| > 0 && !leq(sorted[|sorted| - 1], x) {
      var n := |sorted| - 1;
      InsertLastStable(sorted[..n], x, y, leq);
      FilterAppend(InsertLast(sorted[..n], x, leq), [sorted[n]], f);
      NotBothEquivalent(x, sorted[n], y, leq);
      FilterSwapLast(sorted, x, f);
    }
  }

  /** Stability: the elements equivalent to any y keep their original order. */
  lemma {:induction false} SortByStable<T(!new)>(s: seq<T>, y: T, leq: (T, T) -> bool)
    requires Transitive(leq)
    ensures Block(SortBy(s, leq), y, leq) == Block(s, y, leq)
    decreases |s|
  {
    if |s| > 0 {
      var n := |s| - 1;
      var f := EquivalentTo(y, leq);
      var pre := s[..n];
      var sorted := SortBy(pre, leq);
      assert s == pre + [s[n]];
      assert SortBy(s, leq) == InsertLast(sorted, s[n], leq);
      SortByStable(pre, y, leq);
      InsertLastStable(sorted, s[n], y, leq);
      FilterAppend(sorted, [s[n]], f);
      FilterAppend(pre, [s[n]], f);
      assert Block(SortBy(s, leq), y, leq) == Filter(sorted, f) + Filter([s[n]], f);
    }
  }

  /** Filtering keeps an ordering: a sorted sequence filtered is sorted. */
  lemma {:induction false} FilterSorted<T(!new)>(s: seq<T>, f: T -> bool, leq: (T, T) -> bool)
    requires Sorted(s, leq)
    ensures Sorted(Filter(s, f), leq)
    decreases |s|
  {
    if |s| > 0 {
      FilterSorted(s[1..], f, leq);
      FilterMembers(s[1..], f);
      var rest := Filter(s[1..], f);
      forall x | x in rest ensures leq(s[0], x) {
        var k :| 0 <= k < |s[1..]| && s[1..][k] == x;
        assert s[k + 1] == x;
      }
      var r := Filter(s, f);
      if f(s[0]) {
        forall i, j | 0 <= i < j < |r| ensures leq(r[i], r[j]) {
          if i == 0 {
            assert r[j] == rest[j - 1] && r[j] in rest;
          } else {
            assert r[i] == rest[i - 1] && r[j] == rest[j - 1];
          }
        }
      } else {
        assert r == rest;
      }
    }
  }

  /** How often a filter keeps x: as often as s holds it when x passes, else
      never. So a filter's multiset depends only on the multiset filtered. */
  lemma {:induction false} FilterCount<T(!new)>(s: seq<T>, f: T -> bool, x: T)
    ensures multiset(Filter(s, f))[x] == if f(x) then multiset(s)[x] else 0
    decreases |s|
  {
    if |s| > 0 {
      FilterCount(s[1..], f, x);
      assert s == [s[0]] + s[1..];
    }
  }

  // ---------------------------------------------------------------------------
  // findIndex and splice

  /** `findIndex(f)`: the first index whose element passes, or -1. */
  function IndexWhere<T>(s: seq<T>, f: T -> bool): (r: int)
    ensures -1 <= r < |s|
    ensures r >= 0 ==> f(s[r]) && forall i :: 0 <= i < r ==> !f(s[i])
    ensures r < 0 ==> forall i :: 0 <= i < |s| ==> !f(s[i])
    decreases |s|
  {
    if |s| == 0 then -1
    else if f(s[0]) then 0
    else
      var r := IndexWhere(s[1..], f);
      if r < 0 then -1 else r + 1
  }

  /** `splice(i, 1)`. */
  function Remove<T>(s: seq<T>, i: nat): (r: seq<T>)
    requires i < |s|
    ensures |r| == |s| - 1
  {
    s[..i] + s[i + 1..]
  }

  /** `splice(i, 0, x)`. */
  function Insert<T>(s: seq<T>, i: nat, x: T): (r: seq<T>)
    requires i <= |s|
    ensures |r| == |s| + 1
  {
    s[..i] + [x] + s[i..]
  }

  /** Inserting and removing at the same place undo each other. */
  lemma InsertRemove<T>(s: seq<T>, i: nat, x: T)
    requires i <= |s|
    ensures Insert(s, i, x)[i] == x
    ensures Remove(Insert(s, i, x), i) == s
  {
    var r := Insert(s, i, x);
    assert r[..i] == s[..i];
    assert r[i + 1..] == s[i..];
  }

  /** Removing one element takes exactly it out of the multiset. */
  lemma RemoveMultiset<T>(s: seq<T>, i: nat)
    requires i < |s|
    ensures multiset(s) == multiset(Remove(s, i)) + multiset{s[i]}
  {
    assert s == s[..i] + [s[i]] + s[i + 1..];
  }

  /** `arrayMove(s, from, to)`: take the element out and put it back at `to`. */
  function ArrayMove<T>(s: seq<T>, from: nat, to: nat): (r: seq<T>)
    requires from < |s| && to < |s|
    ensures |r| == |s|
  {
    Insert(Remove(s, from), to, s[from])
  }

  // ---------------------------------------------------------------------------
  // Distinct elements

  predicate Distinct<T(==)>(s: seq<T>)
  {
    forall i, j :: 0 <= i < j < |s| ==> s[i] != s[j]
  }

  /** Rearranging a sequence without repeats gives one without repeats. */
  lemma DistinctPermutation<T>(s: seq<T>, r: seq<T>)
    requires Distinct(s) && multiset(r) == multiset(s)
    ensures Distinct(r)
  {
    forall x ensures multiset(s)[x] <= 1 {
      DistinctCount(s, x);
    }
    forall i, j | 0 <= i < j < |r| ensures r[i] != r[j] {
      assert r == r[..i] + [r[i]] + r[i + 1..j] + [r[j]] + r[j + 1..];
      assert multiset(r) == multiset(r[..i]) + multiset{r[i]} + multiset(r[i + 1..j]) + multiset{r[j]} +
        multiset(r[j + 1..]);
      assert multiset(r)[r[i]] >= multiset{r[i]}[r[i]] + multiset{r[j]}[r[i]];
    }
  }

  lemma {:induction false} DistinctCount<T>(s: seq<T>, x: T)
    requires Distinct(s)
    ensures multiset(s)[x] <= 1
    decreases |s|
  {
    if |s| > 0 {
      var n := |s| - 1;
      assert s == s[..n] + [s[n]];
      DistinctCount(s[..n], x);
      if s[n] == x {
        assert x !in s[..n];
      }
    }
  }

  // ---------------------------------------------------------------------------
  // Dictionaries filled in order

  /** The dictionary a loop over s fills with `m[key(x)] = val(x)` for every
      x that `has`: a later element overwrites an earlier one. */
  function KeyedMap<T, K, V>(s: seq<T>, has: T -> bool, key: T -> K, val: T -> V): map<K, V>
    decreases |s|
  {
    if |s| == 0 then map[]
    else
      var m := KeyedMap(s[..|s| - 1], has, key, val);
      if has(s[|s| - 1]) then m[key(s[|s| - 1]) := val(s[|s| - 1])] else m
  }

  /** Element i of s is stored under k. */
  predicate StoredAt<T, K(==)>(s: seq<T>, has: T -> bool, key: T -> K, i: int, k: K)
  {
    0 <= i < |s| && has(s[i]) && key(s[i]) == k
  }

  /** A key is present exactly when some element is stored under it. */
  lemma {:induction false} KeyedMapKeys<T, K, V>(s: seq<T>, has: T -> bool, key: T -> K, val: T -> V)
    ensures forall k :: k in KeyedMap(s, has, key, val) <==> exists i :: StoredAt(s, has, key, i, k)
    decreases |s|
  {
    if |s| > 0 {
      var n := |s| - 1;
      var prefix := s[..n];
      KeyedMapKeys(prefix, has, key, val);
      forall k ensures k in KeyedMap(s, has, key, val) <==> exists i :: StoredAt(s, has, key, i, k) {
        if exists i :: StoredAt(s, has, key, i, k) {
          var i :| StoredAt(s, has, key, i, k);
          if i < n {
            assert StoredAt(prefix, has, key, i, k);
          }
        }
        if exists i :: StoredAt(prefix, has, key, i, k) {
          var i :| StoredAt(prefix, has, key, i, k);
          assert StoredAt(s, has, key, i, k);
        }
        if StoredAt(s, has, key, n, k) {
          assert k in KeyedMap(s, has, key, val);
        }
      }
    }
  }

  /** A present key holds the value of the last element stored under it. */
  lemma {:induction false} KeyedMapLast<T, K, V>(s: seq<T>, has: T -> bool, key: T -> K, val: T -> V)
    ensures forall k :: k in KeyedMap(s, has, key, val) ==>
      exists i ::
        StoredAt(s, has, key, i, k) && KeyedMap(s, has, key, val)[k] == val(s[i]) &&
        forall j :: i < j < |s| ==> !StoredAt(s, has, key, j, k)
    decreases |s|
  {
    if |s| > 0 {
      var n := |s| - 1;
      var prefix := s[..n];
      KeyedMapLast(prefix, has, key, val);
      var m := KeyedMap(s, has, key, val);
      forall k | k in m
        ensures exists i ::
          StoredAt(s, has, key, i, k) && m[k] == val(s[i]) &&
          forall j :: i < j < |s| ==> !StoredAt(s, has, key, j, k)
      {
        if StoredAt(s, has, key, n, k) {
          assert m[k] == val(s[n]);
        } else {
          var i :|
            StoredAt(prefix, has, key, i, k) && KeyedMap(prefix, has, key, val)[k] == val(prefix[i]) &&
            forall j :: i < j < n ==> !StoredAt(prefix, has, key, j, k);
          assert StoredAt(s, has, key, i, k);
          forall j | i < j < |s| ensures !StoredAt(s, has, key, j, k) {
            if j < n {
              assert !StoredAt(prefix, has, key, j, k);
            }
          }
        }
      }
    }
  }
}

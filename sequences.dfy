/**
 * The array operations the dashboard is built from, on immutable sequences:
 * `filter`, `find`, the stable `sort` of JavaScript's `Array.prototype.sort`
 * (as an insertion sort on an integer key), the insertion-ordered
 * de-duplication `Array.from(new Set(xs))`, and a sum.
 */
module Sequences {
  import opened Wrappers

  // ---------------------------------------------------------------- filter

  /** The elements of `s` that satisfy `p`, in their original order. */
  function Filter<T>(s: seq<T>, p: T -> bool): (r: seq<T>)
    ensures |r| <= |s|
    ensures forall i :: 0 <= i < |r| ==> p(r[i])
    ensures forall i :: 0 <= i < |r| ==> r[i] in s
    ensures forall i :: 0 <= i < |s| ==> (s[i] in r <==> p(s[i]))
  {
    if s == [] then []
    else Filter(s[..|s| - 1], p) + (if p(s[|s| - 1]) then [s[|s| - 1]] else [])
  }

  /** Filtering distributes over concatenation, so relative order survives it. */
  lemma {:induction false} FilterConcat<T>(a: seq<T>, b: seq<T>, p: T -> bool)
    ensures Filter(a + b, p) == Filter(a, p) + Filter(b, p)
    decreases |b|
  {
    if b == [] {
      assert a + b == a;
    } else {
      var b' := b[..|b| - 1];
      assert (a + b)[..|a + b| - 1] == a + b';
      FilterConcat(a, b', p);
    }
  }

  /** An element is kept exactly as often as it occurs, when it satisfies `p`. */
  lemma {:induction false} FilterMultiset<T>(s: seq<T>, p: T -> bool, x: T)
    ensures multiset(Filter(s, p))[x] == if p(x) then multiset(s)[x] else 0
  {
    if s != [] {
      var s' := s[..|s| - 1];
      assert s == s' + [s[|s| - 1]];
      FilterMultiset(s', p, x);
    }
  }

  /** Filters of two permutations of each other are permutations of each other. */
  lemma FilterPermutation<T>(s: seq<T>, t: seq<T>, p: T -> bool)
    requires multiset(s) == multiset(t)
    ensures multiset(Filter(s, p)) == multiset(Filter(t, p))
    ensures |Filter(s, p)| == |Filter(t, p)|
  {
    forall x ensures multiset(Filter(s, p))[x] == multiset(Filter(t, p))[x] {
      FilterMultiset(s, p, x);
      FilterMultiset(t, p, x);
    }
    assert multiset(Filter(s, p)) == multiset(Filter(t, p));
    assert |multiset(Filter(s, p))| == |multiset(Filter(t, p))|;
  }

  /** Filtering a sequence extended by one element. */
  lemma FilterSnoc<T>(a: seq<T>, x: T, p: T -> bool)
    ensures Filter(a + [x], p) == Filter(a, p) + (if p(x) then [x] else [])
  {
    assert (a + [x])[..|a|] == a;
  }

  /** Two selected elements make the selection at least two long. */
  lemma {:induction false} FilterTwo<T>(s: seq<T>, f: T -> bool, i: nat, j: nat)
    requires i < j < |s| && f(s[i]) && f(s[j])
    ensures |Filter(s, f)| >= 2
  {
    var s' := s[..|s| - 1];
    if j == |s| - 1 {
      assert s'[i] == s[i];
      assert s'[i] in Filter(s', f);
    } else {
      assert s'[i] == s[i] && s'[j] == s[j];
      FilterTwo(s', f, i, j);
    }
  }

  /**
   * Of two sequences of the same length, the one whose every position is
   * selected whenever the other's is, has at least as many selected elements.
   */
  lemma {:induction false} FilterMonotone<T>(a: seq<T>, b: seq<T>, p: T -> bool)
    requires |a| == |b|
    requires forall i :: 0 <= i < |b| && p(b[i]) ==> p(a[i])
    ensures |Filter(b, p)| <= |Filter(a, p)|
  {
    if b != [] {
      FilterMonotone(a[..|a| - 1], b[..|b| - 1], p);
    }
  }

  /** Filtering two sequences whose elements agree on the predicate, index by index, keeps as many of each. */
  lemma FilterSameCount<T>(a: seq<T>, b: seq<T>, p: T -> bool)
    requires |a| == |b|
    requires forall i :: 0 <= i < |a| ==> p(a[i]) == p(b[i])
    ensures |Filter(a, p)| == |Filter(b, p)|
  {
    FilterMonotone(a, b, p);
    FilterMonotone(b, a, p);
  }

  // ------------------------------------------------------------------ find

  /** The first element of `s` that satisfies `p`, if any. */
  function Find<T>(s: seq<T>, p: T -> bool): (r: Option<T>)
    ensures r.None? <==> forall i :: 0 <= i < |s| ==> !p(s[i])
    ensures r.Some? ==> exists i :: 0 <= i < |s| && s[i] == r.value && p(s[i]) && forall j :: 0 <= j < i ==> !p(s[j])
  {
    if s == [] then None
    else if p(s[0]) then Some(s[0])
    else
      var r := Find(s[1..], p);
      assert r.Some? ==> exists i :: 1 <= i < |s| && s[i] == r.value && p(s[i]) && forall j :: 0 <= j < i ==> !p(s[j]) by {
        if r.Some? {
          var i :| 0 <= i < |s[1..]| && s[1..][i] == r.value && p(s[1..][i]) && forall j :: 0 <= j < i ==> !p(s[1..][j]);
          assert forall j :: 1 <= j < i + 1 ==> !p(s[j]) by {
            forall j | 1 <= j < i + 1 ensures !p(s[j]) { assert s[j] == s[1..][j - 1]; }
          }
        }
      }
      r
  }

  // ------------------------------------------------------------------ sort

  /** `s` is in ascending order of `key`. */
  predicate SortedBy<T>(s: seq<T>, key: T -> int) {
    forall i, j :: 0 <= i < j < |s| ==> key(s[i]) <= key(s[j])
  }

  /** The elements whose key is `k`: the selection on which stability is stated. */
  function KeyIs<T>(key: T -> int, k: int): T -> bool {
    t => key(t) == k
  }

  /**
   * Inserts `x` into `s` from the right: `x` moves left past every element
   * whose key is strictly greater, and stops behind the first one that is not.
   */
  function InsertBy<T>(s: seq<T>, x: T, key: T -> int): (r: seq<T>)
    ensures |r| == |s| + 1
  {
    if s == [] || key(s[|s| - 1]) <= key(x) then s + [x]
    else
      var r := InsertBy(s[..|s| - 1], x, key) + [s[|s| - 1]];
      assert s == s[..|s| - 1] + [s[|s| - 1]];
      r
  }

  /**
   * Stable insertion sort of `s` by `key`: the comparator `key(a) - key(b)`
   * handed to JavaScript's stable `Array.prototype.sort`.
   */
  function SortBy<T>(s: seq<T>, key: T -> int): (r: seq<T>)
    ensures |r| == |s|
  {
    if s == [] then []
    else
      var r := InsertBy(SortBy(s[..|s| - 1], key), s[|s| - 1], key);
      assert s == s[..|s| - 1] + [s[|s| - 1]];
      r
  }

  /** Insertion adds exactly `x`. */
  lemma {:induction false} InsertByPermutation<T>(s: seq<T>, x: T, key: T -> int)
    ensures multiset(InsertBy(s, x, key)) == multiset(s) + multiset{x}
  {
    if s == [] || key(s[|s| - 1]) <= key(x) {
    } else {
      var s' := s[..|s| - 1];
      InsertByPermutation(s', x, key);
      assert s == s' + [s[|s| - 1]];
    }
  }

  /** The sort is a permutation of its input. */
  lemma {:induction false} SortByPermutation<T>(s: seq<T>, key: T -> int)
    ensures multiset(SortBy(s, key)) == multiset(s)
  {
    if s != [] {
      var s', last := s[..|s| - 1], s[|s| - 1];
      SortByPermutation(s', key);
      InsertByPermutation(SortBy(s', key), last, key);
      assert SortBy(s, key) == InsertBy(SortBy(s', key), last, key);
      assert s == s' + [last];
      assert multiset(s) == multiset(s') + multiset{last};
    }
  }

  /** Inserting into a sorted sequence keeps it sorted. */
  lemma {:induction false} InsertBySorted<T>(s: seq<T>, x: T, key: T -> int)
    requires SortedBy(s, key)
    ensures SortedBy(InsertBy(s, x, key), key)
  {
    if s == [] || key(s[|s| - 1]) <= key(x) {
    } else {
      var s', last := s[..|s| - 1], s[|s| - 1];
      InsertBySorted(s', x, key);
      var r' := InsertBy(s', x, key);
      InsertByPermutation(s', x, key);
      forall i | 0 <= i < |r'| ensures key(r'[i]) <= key(last) {
        assert r'[i] in multiset(r');
        if r'[i] != x {
          assert r'[i] in multiset(s');
          var m :| 0 <= m < |s'| && s'[m] == r'[i];
          assert s[m] == s'[m];
        }
      }
    }
  }

  /** The sort orders its result by `key`. */
  lemma {:induction false} SortBySorted<T>(s: seq<T>, key: T -> int)
    ensures SortedBy(SortBy(s, key), key)
  {
    if s != [] {
      SortBySorted(s[..|s| - 1], key);
      InsertBySorted(SortBy(s[..|s| - 1], key), s[|s| - 1], key);
    }
  }

  /** Inserting `x` keeps the relative order of every group of equal keys, and puts `x` last in its own group. */
  lemma {:induction false} InsertByStable<T>(s: seq<T>, x: T, key: T -> int, k: int)
    ensures Filter(InsertBy(s, x, key), KeyIs(key, k)) == Filter(s + [x], KeyIs(key, k))
  {
    if s != [] && key(s[|s| - 1]) > key(x) {
      var p := KeyIs(key, k);
      var s', last := s[..|s| - 1], s[|s| - 1];
      var r' := InsertBy(s', x, key);
      var X, L := (if p(x) then [x] else []), (if p(last) then [last] else []);
      assert X == [] || L == [];
      calc {
        Filter(InsertBy(s, x, key), p);
        Filter(r' + [last], p);
        { FilterSnoc(r', last, p); }
        Filter(r', p) + L;
        { InsertByStable(s', x, key, k); FilterSnoc(s', x, p); }
        Filter(s', p) + X + L;
        Filter(s', p) + L + X;
        { FilterSnoc(s', last, p); assert s == s' + [last]; }
        Filter(s, p) + X;
        { FilterSnoc(s, x, p); }
        Filter(s + [x], p);
      }
    }
  }

  /** The sort is stable: elements with equal keys keep their relative order. */
  lemma {:induction false} SortByStable<T>(s: seq<T>, key: T -> int, k: int)
    ensures Filter(SortBy(s, key), KeyIs(key, k)) == Filter(s, KeyIs(key, k))
  {
    if s != [] {
      var s', last := s[..|s| - 1], s[|s| - 1];
      SortByStable(s', key, k);
      InsertByStable(SortBy(s', key), last, key, k);
      assert SortBy(s, key) == InsertBy(SortBy(s', key), last, key);
      FilterSnoc(SortBy(s', key), last, KeyIs(key, k));
      FilterSnoc(s', last, KeyIs(key, k));
      assert s == s' + [last];
    }
  }

  /** A sorted sequence stays sorted when an element no smaller than all of it is appended. */
  lemma SortedSnoc<T>(s: seq<T>, x: T, key: T -> int)
    requires SortedBy(s, key)
    requires forall i :: 0 <= i < |s| ==> key(s[i]) <= key(x)
    ensures SortedBy(s + [x], key)
  {
    var r := s + [x];
    forall i, j | 0 <= i < j < |r|
      ensures key(r[i]) <= key(r[j])
    {
      assert r[i] == s[i];
      if j < |s| {
        assert r[j] == s[j];
      }
    }
  }

  /** Dropping the last element of a sorted sequence leaves it sorted, below that element. */
  lemma SortedInit<T>(s: seq<T>, key: T -> int)
    requires SortedBy(s, key) && s != []
    ensures SortedBy(s[..|s| - 1], key)
    ensures forall i :: 0 <= i < |s| - 1 ==> key(s[i]) <= key(s[|s| - 1])
  {
    var init := s[..|s| - 1];
    forall i, j | 0 <= i < j < |init|
      ensures key(init[i]) <= key(init[j])
    {
      assert init[i] == s[i] && init[j] == s[j];
    }
  }

  /** Selecting from a sorted sequence keeps it sorted. */
  lemma {:induction false} FilterKeepsSorted<T>(s: seq<T>, p: T -> bool, key: T -> int)
    requires SortedBy(s, key)
    ensures SortedBy(Filter(s, p), key)
  {
    if s != [] {
      var init, last := s[..|s| - 1], s[|s| - 1];
      SortedInit(s, key);
      FilterKeepsSorted(init, p, key);
      var f := Filter(init, p);
      if p(last) {
        forall i | 0 <= i < |f|
          ensures key(f[i]) <= key(last)
        {
          assert f[i] in init;
          var j :| 0 <= j < |init| && init[j] == f[i];
          assert init[j] == s[j];
        }
        SortedSnoc(f, last, key);
        assert Filter(s, p) == f + [last];
      } else {
        assert Filter(s, p) == f;
      }
    }
  }

  /** Sorting what is already sorted changes nothing. */
  lemma {:induction false} SortBySortedIsIdentity<T>(s: seq<T>, key: T -> int)
    requires SortedBy(s, key)
    ensures SortBy(s, key) == s
  {
    if s != [] {
      var s', last := s[..|s| - 1], s[|s| - 1];
      SortedInit(s, key);
      SortBySortedIsIdentity(s', key);
      assert SortBy(s, key) == InsertBy(s', last, key);
      if s' != [] {
        assert s'[|s'| - 1] == s[|s| - 2];
      }
      assert InsertBy(s', last, key) == s' + [last];
      assert s == s' + [last];
    }
  }

  /**
   * Into a sorted sequence, `x` is inserted after every element whose key is at
   * most its own and before every element whose key is greater.
   */
  lemma {:induction false} InsertBySplits<T>(s: seq<T>, x: T, key: T -> int) returns (k: nat)
    requires SortedBy(s, key)
    ensures k <= |s|
    ensures InsertBy(s, x, key) == s[..k] + [x] + s[k..]
    ensures forall i :: 0 <= i < k ==> key(s[i]) <= key(x)
    ensures forall i :: k <= i < |s| ==> key(x) < key(s[i])
  {
    if s == [] || key(s[|s| - 1]) <= key(x) {
      k := |s|;
      assert s[..k] == s;
    } else {
      var s', last := s[..|s| - 1], s[|s| - 1];
      assert SortedBy(s', key);
      k := InsertBySplits(s', x, key);
      assert s'[..k] == s[..k];
      assert s'[k..] + [last] == s[k..];
    }
  }

  // ----------------------------------------------------------- de-duplicate

  /** No element occurs twice. */
  predicate NoDuplicates<T(==)>(s: seq<T>) {
    forall i, j :: 0 <= i < j < |s| ==> s[i] != s[j]
  }

  /** The position of the first occurrence of `x` in `s`. */
  function FirstIndex<T(==)>(s: seq<T>, x: T): (k: nat)
    requires x in s
    ensures k < |s| && s[k] == x && x !in s[..k]
  {
    if s[0] == x then 0
    else
      var k := 1 + FirstIndex(s[1..], x);
      assert s[..k] == [s[0]] + s[1..][..k - 1];
      k
  }

  /** Appending to `s` does not move the first occurrence of a value already in it. */
  lemma FirstIndexSnoc<T>(s: seq<T>, y: T, x: T)
    requires x in s
    ensures FirstIndex(s + [y], x) == FirstIndex(s, x)
  {
    var k, k' := FirstIndex(s, x), FirstIndex(s + [y], x);
    forall j | 0 <= j < k
      ensures (s + [y])[j] != x
    {
      assert (s + [y])[j] == s[..k][j];
    }
    forall j | 0 <= j < k'
      ensures (s + [y])[j] != x
    {
      assert (s + [y])[j] == (s + [y])[..k'][j];
    }
    assert (s + [y])[k] == x;
  }

  /** Each element of `s` once, in the order of its first occurrence (`Array.from(new Set(s))`). */
  function Dedup<T(==)>(s: seq<T>): (r: seq<T>)
    ensures NoDuplicates(r)
    ensures forall i :: 0 <= i < |r| ==> r[i] in s
    ensures forall i :: 0 <= i < |s| ==> s[i] in r
    ensures |r| <= |s|
  {
    if s == [] then []
    else
      var d := Dedup(s[..|s| - 1]);
      if s[|s| - 1] in d then d else d + [s[|s| - 1]]
  }

  /** The de-duplication lists values in the order in which they first occur in `s`. */
  lemma {:induction false} DedupFirstOccurrenceOrder<T>(s: seq<T>)
    ensures forall i, j :: 0 <= i < j < |Dedup(s)| ==> FirstIndex(s, Dedup(s)[i]) < FirstIndex(s, Dedup(s)[j])
  {
    if s != [] {
      var s', x := s[..|s| - 1], s[|s| - 1];
      assert s == s' + [x];
      DedupFirstOccurrenceOrder(s');
      var d := Dedup(s');
      forall y | y in d
        ensures FirstIndex(s, y) == FirstIndex(s', y)
      {
        FirstIndexSnoc(s', x, y);
      }
      if x !in d {
        assert FirstIndex(s, x) == |s'|;
      }
    }
  }

  /** Appending to `s` adds the new value to the de-duplication exactly when it is new. */
  lemma DedupSnoc<T>(s: seq<T>, x: T)
    ensures Dedup(s + [x]) == if x in s then Dedup(s) else Dedup(s) + [x]
  {
    assert (s + [x])[..|s|] == s;
  }

  /** Appending to a sequence without duplicates adds the value exactly when it is new. */
  lemma DistinctSnoc<T>(s: seq<T>, x: T)
    requires NoDuplicates(s)
    ensures Dedup(s + [x]) == if x in s then s else s + [x]
  {
    DedupOfDistinct(s);
    DedupSnoc(s, x);
  }

  /**
   * Appending two values to a sequence without duplicates adds each one that
   * is new, in order.
   */
  lemma DistinctSnocTwo<T>(s: seq<T>, x: T, y: T)
    requires NoDuplicates(s)
    ensures Dedup(s + [x, y]) == s + (if x in s then [] else [x]) + (if y in s || y == x then [] else [y])
  {
    assert s + [x, y] == (s + [x]) + [y];
    if x in s {
      DistinctSnocKnown(s, x, y);
      assert s + [] == s;
    } else {
      DistinctSnocNew(s, x, y);
    }
  }

  /** The first value is already present: only the second can be added. */
  lemma DistinctSnocKnown<T>(s: seq<T>, x: T, y: T)
    requires NoDuplicates(s) && x in s
    ensures Dedup((s + [x]) + [y]) == if y in s then s else s + [y]
  {
    DistinctSnoc(s, x);
    DedupSnoc(s + [x], y);
    assert y in s + [x] <==> y in s;
  }

  /** The first value is new: it is kept, and the second is added when it differs from both. */
  lemma DistinctSnocNew<T>(s: seq<T>, x: T, y: T)
    requires NoDuplicates(s) && x !in s
    ensures Dedup((s + [x]) + [y]) == if y in s || y == x then s + [x] else s + [x] + [y]
  {
    DistinctSnoc(s, x);
    DistinctSnoc(s + [x], y);
    assert y in s + [x] <==> y in s || y == x;
  }

  /** A sequence without duplicates is its own de-duplication. */
  lemma {:induction false} DedupOfDistinct<T>(s: seq<T>)
    requires NoDuplicates(s)
    ensures Dedup(s) == s
  {
    if s != [] {
      var s' := s[..|s| - 1];
      DedupOfDistinct(s');
      assert s == s' + [s[|s| - 1]];
      assert s[|s| - 1] !in s';
    }
  }

  // -------------------------------------------------------------------- sum

  /** The sum of `value` over `s` (`reduce((total, x) => total + value(x), 0)`). */
  function SumBy<T>(s: seq<T>, value: T -> int): (r: int)
    ensures (forall i :: 0 <= i < |s| ==> value(s[i]) >= 0) ==> r >= 0
  {
    if s == [] then 0 else SumBy(s[..|s| - 1], value) + value(s[|s| - 1])
  }

  /** Summing distributes over concatenation. */
  lemma {:induction false} SumByConcat<T>(a: seq<T>, b: seq<T>, value: T -> int)
    ensures SumBy(a + b, value) == SumBy(a, value) + SumBy(b, value)
    decreases |b|
  {
    if b == [] {
      assert a + b == a;
    } else {
      var b' := b[..|b| - 1];
      assert (a + b)[..|a + b| - 1] == a + b';
      SumByConcat(a, b', value);
    }
  }
}

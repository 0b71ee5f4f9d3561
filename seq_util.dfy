/**
 * The array operations the application calls on lists: `filter`, `slice(0, n)`,
 * a stable `sort` by a numeric key, and `Array.from(new Set(...))`, which keeps
 * the first occurrence of each value.
 */
module SeqUtil {

  /** `s.filter(p)`: the elements satisfying `p`, in their original order. */
  function Filter<T>(s: seq<T>, p: T -> bool): (r: seq<T>)
    ensures |r| <= |s|
  {
    if |s| == 0 then []
    else
      Filter(s[..|s| - 1], p) + (if p(s[|s| - 1]) then [s[|s| - 1]] else [])
  }

  /** The filtered list holds exactly the elements that satisfy the predicate. */
  lemma {:induction false} FilterMembers<T>(s: seq<T>, p: T -> bool, x: T)
    ensures x in Filter(s, p) <==> x in s && p(x)
  {
    if |s| > 0 {
      FilterMembers(s[..|s| - 1], p, x);
      assert s == s[..|s| - 1] + [s[|s| - 1]];
    }
  }

  /** `r` can be obtained from `s` by deleting elements (the order is kept). */
  predicate IsSubsequence<T(==)>(r: seq<T>, s: seq<T>)
    decreases |s|
  {
    || r == []
    || (|s| > 0 &&
        ((r[|r| - 1] == s[|s| - 1] && IsSubsequence(r[..|r| - 1], s[..|s| - 1]))
         || IsSubsequence(r, s[..|s| - 1])))
  }

  /** Filtering keeps the original order. */
  lemma {:induction false} FilterIsSubsequence<T>(s: seq<T>, p: T -> bool)
    ensures IsSubsequence(Filter(s, p), s)
  {
    if |s| > 0 {
      var s' := s[..|s| - 1];
      FilterIsSubsequence(s', p);
      var f := Filter(s', p);
      if p(s[|s| - 1]) {
        var r := f + [s[|s| - 1]];
        assert r[..|r| - 1] == f && r[|r| - 1] == s[|s| - 1];
        assert Filter(s, p) == r;
      } else {
        assert Filter(s, p) == f;
        SubsequenceOfPrefix(f, s);
      }
    }
  }

  /** A prefix of a subsequence of `s` is again a subsequence of `s`. */
  lemma {:induction false} PrefixOfSubsequence<T>(r: seq<T>, s: seq<T>, n: nat)
    requires IsSubsequence(r, s) && n <= |r|
    ensures IsSubsequence(r[..n], s)
    decreases |s|
  {
    if n < |r| && r != [] {
      if r[|r| - 1] == s[|s| - 1] && IsSubsequence(r[..|r| - 1], s[..|s| - 1]) {
        PrefixOfSubsequence(r[..|r| - 1], s[..|s| - 1], n);
        assert r[..|r| - 1][..n] == r[..n];
        SubsequenceOfPrefix(r[..n], s);
      } else {
        PrefixOfSubsequence(r, s[..|s| - 1], n);
        SubsequenceOfPrefix(r[..n], s);
      }
    } else if r == [] {
      assert r[..n] == [];
    } else {
      assert r[..n] == r;
    }
  }

  /** A subsequence of a prefix of `s` is a subsequence of `s`. */
  lemma SubsequenceOfPrefix<T>(r: seq<T>, s: seq<T>)
    requires |s| > 0 && IsSubsequence(r, s[..|s| - 1])
    ensures IsSubsequence(r, s)
  {
    if r != [] {
      assert IsSubsequence(r, s[..|s| - 1]);
    }
  }

  lemma {:induction false} SelfSubsequence<T>(s: seq<T>)
    ensures IsSubsequence(s, s)
  {
    if |s| > 0 {
      SelfSubsequence(s[..|s| - 1]);
    }
  }

  /** A subsequence of a subsequence of `s` is a subsequence of `s`. */
  lemma {:induction false} SubsequenceTransitive<T>(a: seq<T>, b: seq<T>, c: seq<T>)
    requires IsSubsequence(a, b) && IsSubsequence(b, c)
    ensures IsSubsequence(a, c)
    decreases |c|
  {
    if a != [] && b != [] {
      var c' := c[..|c| - 1];
      if b[|b| - 1] == c[|c| - 1] && IsSubsequence(b[..|b| - 1], c') {
        if a[|a| - 1] == b[|b| - 1] && IsSubsequence(a[..|a| - 1], b[..|b| - 1]) {
          SubsequenceTransitive(a[..|a| - 1], b[..|b| - 1], c');
        } else {
          SubsequenceTransitive(a, b[..|b| - 1], c');
          SubsequenceOfPrefix(a, c);
        }
      } else {
        SubsequenceTransitive(a, b, c');
        SubsequenceOfPrefix(a, c);
      }
    } else if a != [] {
      assert false;
    }
  }

  /** Two filters with complementary predicates split the list without loss or overlap. */
  lemma {:induction false} FilterPartition<T>(s: seq<T>, p: T -> bool, q: T -> bool)
    requires forall k :: 0 <= k < |s| ==> q(s[k]) == !p(s[k])
    ensures multiset(Filter(s, p)) + multiset(Filter(s, q)) == multiset(s)
    ensures |Filter(s, p)| + |Filter(s, q)| == |s|
  {
    if |s| > 0 {
      var s' := s[..|s| - 1];
      var x := s[|s| - 1];
      FilterPartition(s', p, q);
      assert multiset(s) == multiset(s') + multiset{x} by {
        assert s == s' + [x];
      }
      FilterLast(s, p);
      FilterLast(s, q);
      var mp, mq := multiset(Filter(s', p)), multiset(Filter(s', q));
      if p(x) {
        assert multiset(Filter(s, p)) == mp + multiset{x};
        assert multiset(Filter(s, q)) == mq;
        calc {
          multiset(Filter(s, p)) + multiset(Filter(s, q));
          mp + multiset{x} + mq;
          (mp + mq) + multiset{x};
        }
      } else {
        assert multiset(Filter(s, p)) == mp;
        assert multiset(Filter(s, q)) == mq + multiset{x};
      }
    }
  }

  /** The last element contributes to exactly the filters whose predicate it satisfies. */
  lemma FilterLast<T>(s: seq<T>, p: T -> bool)
    requires |s| > 0
    ensures p(s[|s| - 1]) ==> Filter(s, p) == Filter(s[..|s| - 1], p) + [s[|s| - 1]]
    ensures !p(s[|s| - 1]) ==> Filter(s, p) == Filter(s[..|s| - 1], p)
  {
  }

  /** Filtering twice is filtering by the conjunction. */
  lemma {:induction false} FilterFilter<T>(s: seq<T>, p: T -> bool, q: T -> bool, pq: T -> bool)
    requires forall x :: pq(x) == (p(x) && q(x))
    ensures Filter(Filter(s, p), q) == Filter(s, pq)
  {
    if |s| > 0 {
      var s' := s[..|s| - 1];
      var x := s[|s| - 1];
      FilterFilter(s', p, q, pq);
      var f := Filter(s', p);
      if p(x) {
        var g := f + [x];
        assert Filter(s, p) == g;
        assert g[..|g| - 1] == f && g[|g| - 1] == x;
        assert Filter(g, q) == Filter(f, q) + (if q(x) then [x] else []);
      } else {
        assert Filter(s, p) == f;
      }
    }
  }

  /** `s.map(f)`. */
  function MapSeq<A, B>(s: seq<A>, f: A -> B): (r: seq<B>)
    ensures |r| == |s|
    ensures forall k :: 0 <= k < |s| ==> r[k] == f(s[k])
  {
    seq(|s|, k requires 0 <= k < |s| => f(s[k]))
  }

  /** Mapping a filtered list gives a subsequence of the mapped list. */
  lemma {:induction false} MapFilterSubsequence<A, B>(s: seq<A>, p: A -> bool, f: A -> B)
    ensures IsSubsequence(MapSeq(Filter(s, p), f), MapSeq(s, f))
  {
    if |s| > 0 {
      var n := |s| - 1;
      MapFilterSubsequence(s[..n], p, f);
      var g := Filter(s[..n], p);
      var all := MapSeq(s, f);
      assert all[..n] == MapSeq(s[..n], f);
      FilterLast(s, p);
      if p(s[n]) {
        var r := MapSeq(g + [s[n]], f);
        assert r[..|r| - 1] == MapSeq(g, f);
      } else {
        SubsequenceOfPrefix(MapSeq(g, f), all);
      }
    }
  }

  /** The number of elements that `f` puts in bucket `k`. */
  function CountWhere<T>(s: seq<T>, f: T -> nat, k: nat): (r: nat)
    ensures r <= |s|
  {
    if |s| == 0 then 0
    else CountWhere(s[..|s| - 1], f, k) + (if f(s[|s| - 1]) == k then 1 else 0)
  }

  /** Counting one more element adds one to its own bucket only. */
  lemma CountWhereStep<T>(s: seq<T>, f: T -> nat, i: nat, k: nat)
    requires i < |s|
    ensures CountWhere(s[..i + 1], f, k) == CountWhere(s[..i], f, k) + (if f(s[i]) == k then 1 else 0)
  {
    assert s[..i + 1][..i] == s[..i];
  }

  /** The sizes of buckets `0` to `n - 1` added up. */
  function BucketTotal<T>(s: seq<T>, f: T -> nat, n: nat): nat {
    if n == 0 then 0 else BucketTotal(s, f, n - 1) + CountWhere(s, f, n - 1)
  }

  lemma {:induction false} BucketTotalStep<T>(s: seq<T>, f: T -> nat, n: nat)
    requires |s| > 0
    ensures BucketTotal(s, f, n) == BucketTotal(s[..|s| - 1], f, n) + (if f(s[|s| - 1]) < n then 1 else 0)
  {
    if n > 0 {
      BucketTotalStep(s, f, n - 1);
    }
  }

  /** When every element falls in one of the buckets `0` to `n - 1`, the bucket sizes
      add up to the length: each element is counted exactly once. */
  lemma {:induction false} BucketTotalIsLength<T>(s: seq<T>, f: T -> nat, n: nat)
    requires forall i :: 0 <= i < |s| ==> f(s[i]) < n
    ensures BucketTotal(s, f, n) == |s|
  {
    if |s| == 0 {
      BucketTotalOfEmpty(s, f, n);
    } else {
      BucketTotalIsLength(s[..|s| - 1], f, n);
      BucketTotalStep(s, f, n);
    }
  }

  lemma {:induction false} BucketTotalOfEmpty<T>(s: seq<T>, f: T -> nat, n: nat)
    requires |s| == 0
    ensures BucketTotal(s, f, n) == 0
  {
    if n > 0 {
      BucketTotalOfEmpty(s, f, n - 1);
    }
  }

  function Min(a: int, b: int): int {
    if a <= b then a else b
  }

  /** `s.slice(0, n)`: the first `n` elements, or all of them when there are fewer. */
  function Take<T>(s: seq<T>, n: nat): (r: seq<T>)
    ensures |r| == Min(n, |s|)
    ensures forall k :: 0 <= k < |r| ==> r[k] == s[k]
  {
    s[..Min(n, |s|)]
  }

  /** `s` is ordered by non-decreasing `key`. */
  ghost predicate SortedBy<T>(s: seq<T>, key: T -> real) {
    forall i, j :: 0 <= i < j < |s| ==> key(s[i]) <= key(s[j])
  }

  /** Inserts `x` after every element whose key is at most `key(x)`. */
  function InsertByKey<T>(x: T, s: seq<T>, key: T -> real): (r: seq<T>)
    ensures multiset(r) == multiset(s) + multiset{x}
    ensures |r| == |s| + 1
  {
    if |s| == 0 then [x]
    else if key(x) < key(s[0]) then
      assert [x] + s == [x] + s;
      [x] + s
    else
      assert s == [s[0]] + s[1..];
      [s[0]] + InsertByKey(x, s[1..], key)
  }

  /** Insertion keeps a sorted list sorted. */
  lemma {:induction false} InsertSorted<T>(x: T, s: seq<T>, key: T -> real)
    requires SortedBy(s, key)
    ensures SortedBy(InsertByKey(x, s, key), key)
  {
    if |s| > 0 && key(x) >= key(s[0]) {
      var tail := InsertByKey(x, s[1..], key);
      InsertSorted(x, s[1..], key);
      forall k | 0 <= k < |tail| ensures key(s[0]) <= key(tail[k]) {
        assert tail[k] in multiset(tail);
        if tail[k] != x {
          assert tail[k] in multiset(s[1..]);
          var j :| 0 <= j < |s[1..]| && s[1..][j] == tail[k];
          assert s[j + 1] == tail[k];
        }
      }
      var r := InsertByKey(x, s, key);
      assert r == [s[0]] + tail;
      forall i, j | 0 <= i < j < |r| ensures key(r[i]) <= key(r[j]) {
        if i == 0 {
          assert r[j] == tail[j - 1];
        } else {
          assert r[i] == tail[i - 1] && r[j] == tail[j - 1];
        }
      }
    } else if |s| > 0 {
      var r := InsertByKey(x, s, key);
      assert r == [x] + s;
      forall i, j | 0 <= i < j < |r| ensures key(r[i]) <= key(r[j]) {
        if i == 0 {
          assert key(s[0]) <= key(s[j - 1]);
        } else {
          assert r[i] == s[i - 1] && r[j] == s[j - 1];
        }
      }
    }
  }

  /** A stable sort by `key`, ascending: each element is inserted after the
      earlier elements with the same or a smaller key. */
  function SortByKey<T>(s: seq<T>, key: T -> real): (r: seq<T>)
    ensures SortedBy(r, key)
    ensures multiset(r) == multiset(s)
    ensures |r| == |s|
  {
    if |s| == 0 then []
    else
      assert s == s[..|s| - 1] + [s[|s| - 1]];
      var sorted := SortByKey(s[..|s| - 1], key);
      InsertSorted(s[|s| - 1], sorted, key);
      InsertByKey(s[|s| - 1], sorted, key)
  }

  /** Pairwise distinct elements. */
  predicate Distinct<T(==)>(s: seq<T>) {
    forall i, j :: 0 <= i < j < |s| ==> s[i] != s[j]
  }

  /** The index of the first occurrence of `x` in `s`. */
  function FirstIndex<T(==)>(s: seq<T>, x: T): (k: nat)
    requires x in s
    ensures k < |s| && s[k] == x
    ensures forall j :: 0 <= j < k ==> s[j] != x
  {
    if x in s[..|s| - 1] then FirstIndex(s[..|s| - 1], x) else |s| - 1
  }

  /** `Array.from(new Set(s))`: one copy of each value, kept where it first occurs. */
  function Dedup<T(==)>(s: seq<T>): (r: seq<T>)
    ensures forall k :: 0 <= k < |r| ==> r[k] in s
    ensures forall k :: 0 <= k < |s| ==> s[k] in r
    ensures Distinct(r)
  {
    if |s| == 0 then []
    else
      var d := Dedup(s[..|s| - 1]);
      if s[|s| - 1] in d then d else d + [s[|s| - 1]]
  }

  /** The kept values appear in the order of their first occurrences. */
  lemma {:induction false} DedupFirstOccurrenceOrder<T>(s: seq<T>)
    ensures forall i, j :: 0 <= i < j < |Dedup(s)| ==>
      FirstIndex(s, Dedup(s)[i]) < FirstIndex(s, Dedup(s)[j])
  {
    if |s| > 0 {
      var s' := s[..|s| - 1];
      DedupFirstOccurrenceOrder(s');
      var d := Dedup(s');
      var r := Dedup(s);
      forall i, j | 0 <= i < j < |r| ensures FirstIndex(s, r[i]) < FirstIndex(s, r[j]) {
        assert r[i] in d;
        assert FirstIndex(s, r[i]) == FirstIndex(s', r[i]);
        if j < |d| {
          assert FirstIndex(s, r[j]) == FirstIndex(s', r[j]);
        } else {
          assert r[j] == s[|s| - 1] && r[j] !in s';
        }
      }
    }
  }
}

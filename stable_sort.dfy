/**
 * A stable sort by a natural-number rank, the behaviour JavaScript's
 * `Array.prototype.sort` guarantees for a comparator `rank(a) - rank(b)`.
 * The badge list is sorted by tier this way, and the multi-report view
 * sorts reports by their protocol's position in the canonical order.
 */
module StableSort {

  /** Non-decreasing by rank. */
  ghost predicate Sorted<T>(s: seq<T>, rank: T -> nat) {
    forall i, j :: 0 <= i < j < |s| ==> rank(s[i]) <= rank(s[j])
  }

  /** The elements of `s` of rank `k`, in their order in `s`. */
  function Filter<T>(s: seq<T>, rank: T -> nat, k: nat): seq<T> {
    if s == [] then []
    else (if rank(s[0]) == k then [s[0]] else []) + Filter(s[1..], rank, k)
  }

  /** No element occurs twice. */
  ghost predicate Distinct<T>(s: seq<T>) {
    forall i, j :: 0 <= i < j < |s| ==> s[i] != s[j]
  }

  /** Puts `x` before the first element whose rank is not smaller. */
  function Insert<T>(x: T, s: seq<T>, rank: T -> nat): seq<T> {
    if s == [] || rank(x) <= rank(s[0]) then [x] + s
    else [s[0]] + Insert(x, s[1..], rank)
  }

  /** Insertion sort; equal ranks keep their relative order. */
  function SortByRank<T>(s: seq<T>, rank: T -> nat): seq<T> {
    if s == [] then [] else Insert(s[0], SortByRank(s[1..], rank), rank)
  }

  lemma {:induction false} InsertPermutes<T>(x: T, s: seq<T>, rank: T -> nat)
    ensures multiset(Insert(x, s, rank)) == multiset(s) + multiset{x}
  {
    if s == [] || rank(x) <= rank(s[0]) {
    } else {
      InsertPermutes(x, s[1..], rank);
      assert s == [s[0]] + s[1..];
    }
  }

  lemma {:induction false} InsertSorted<T>(x: T, s: seq<T>, rank: T -> nat)
    requires Sorted(s, rank)
    ensures Sorted(Insert(x, s, rank), rank)
    ensures Insert(x, s, rank) != []
    ensures Insert(x, s, rank)[0] == x || (s != [] && Insert(x, s, rank)[0] == s[0])
  {
    if s == [] || rank(x) <= rank(s[0]) {
    } else {
      InsertSorted(x, s[1..], rank);
      var t := Insert(x, s[1..], rank);
      assert rank(s[0]) <= rank(t[0]);
      forall i, j | 0 <= i < j < |[s[0]] + t|
        ensures rank(([s[0]] + t)[i]) <= rank(([s[0]] + t)[j])
      {
        if i > 0 {
          assert ([s[0]] + t)[i] == t[i - 1];
        } else {
          assert rank(t[0]) <= rank(t[j - 1]) || j - 1 == 0;
        }
      }
    }
  }

  /** Filtering a list with a head: the head's contribution, then the tail's. */
  lemma FilterCons<T>(y: T, t: seq<T>, rank: T -> nat, k: nat)
    ensures Filter([y] + t, rank, k) == (if rank(y) == k then [y] else []) + Filter(t, rank, k)
  {
    assert ([y] + t)[1..] == t;
  }

  lemma {:induction false} InsertFilter<T>(x: T, s: seq<T>, rank: T -> nat, k: nat)
    ensures Filter(Insert(x, s, rank), rank, k)
         == (if rank(x) == k then [x] else []) + Filter(s, rank, k)
  {
    if s == [] || rank(x) <= rank(s[0]) {
      FilterCons(x, s, rank, k);
    } else {
      var ins := Insert(x, s[1..], rank);
      var rest := Filter(s[1..], rank, k);
      InsertFilter(x, s[1..], rank, k);
      assert Insert(x, s, rank) == [s[0]] + ins;
      FilterCons(s[0], ins, rank, k);
      FilterCons(s[0], s[1..], rank, k);
      assert [s[0]] + s[1..] == s;
      if rank(s[0]) == k {
        // x outranks s[0], so it cannot share its rank
        assert Filter(Insert(x, s, rank), rank, k) == [s[0]] + rest;
      } else {
        assert Filter(s, rank, k) == rest;
      }
    }
  }

  /** The sorted list holds the same elements, with the same multiplicities. */
  lemma {:induction false} SortPermutes<T>(s: seq<T>, rank: T -> nat)
    ensures multiset(SortByRank(s, rank)) == multiset(s)
  {
    if s != [] {
      SortPermutes(s[1..], rank);
      InsertPermutes(s[0], SortByRank(s[1..], rank), rank);
      assert s == [s[0]] + s[1..];
    }
  }

  /** The sorted list is in non-decreasing rank order. */
  lemma {:induction false} SortSorted<T>(s: seq<T>, rank: T -> nat)
    ensures Sorted(SortByRank(s, rank), rank)
  {
    if s != [] {
      SortSorted(s[1..], rank);
      InsertSorted(s[0], SortByRank(s[1..], rank), rank);
    }
  }

  /** Stability: within each rank the input order is kept. */
  lemma {:induction false} SortStable<T>(s: seq<T>, rank: T -> nat, k: nat)
    ensures Filter(SortByRank(s, rank), rank, k) == Filter(s, rank, k)
  {
    if s != [] {
      SortStable(s[1..], rank, k);
      InsertFilter(s[0], SortByRank(s[1..], rank), rank, k);
    }
  }

  /** A list already in rank order is left as it is. */
  lemma {:induction false} SortedUnchanged<T>(s: seq<T>, rank: T -> nat)
    requires Sorted(s, rank)
    ensures SortByRank(s, rank) == s
  {
    if s != [] {
      assert Sorted(s[1..], rank) by {
        forall i, j | 0 <= i < j < |s[1..]| ensures rank(s[1..][i]) <= rank(s[1..][j]) {
          assert s[1..][i] == s[i + 1] && s[1..][j] == s[j + 1];
        }
      }
      SortedUnchanged(s[1..], rank);
      assert s == [s[0]] + s[1..];
    }
  }

  /** Reordering keeps distinctness. */
  lemma {:induction false} DistinctOfPermutation<T>(a: seq<T>, b: seq<T>)
    requires multiset(a) == multiset(b)
    requires Distinct(a)
    ensures Distinct(b)
  {
    forall i, j | 0 <= i < j < |b| ensures b[i] != b[j] {
      if b[i] == b[j] {
        var x := b[i];
        assert multiset(b)[x] >= 2 by {
          assert b == b[..i] + [x] + b[i + 1..j] + [x] + b[j + 1..];
        }
        CountAtMostOne(a, x);
      }
    }
  }

  lemma {:induction false} CountAtMostOne<T>(s: seq<T>, x: T)
    requires Distinct(s)
    ensures multiset(s)[x] <= 1
  {
    if s != [] {
      assert Distinct(s[1..]) by {
        forall i, j | 0 <= i < j < |s[1..]| ensures s[1..][i] != s[1..][j] {
          assert s[1..][i] == s[i + 1] && s[1..][j] == s[j + 1];
        }
      }
      CountAtMostOne(s[1..], x);
      assert s == [s[0]] + s[1..];
      if s[0] == x {
        assert x !in s[1..] by {
          forall j | 0 <= j < |s[1..]| ensures s[1..][j] != x {
            assert s[1..][j] == s[j + 1];
          }
        }
      }
    }
  }
}

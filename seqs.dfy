/**
 * Sequence operations the screens rely on through the JavaScript array library:
 * `Array.prototype.filter` and the stable `Array.prototype.sort` (ECMAScript 2019 on).
 */
module Seqs {

  /** `r` is obtained from `s` by deleting elements: the order of what is kept is preserved. */
  predicate Subsequence<T(==)>(r: seq<T>, s: seq<T>)
    decreases |s|
  {
    if r == [] then true
    else if s == [] then false
    else if r[0] == s[0] then Subsequence(r[1..], s[1..])
    else Subsequence(r, s[1..])
  }

  /** A prefix of a subsequence is a subsequence. */
  lemma {:induction false} SubsequencePrefix<T>(r: seq<T>, s: seq<T>, k: nat)
    requires Subsequence(r, s) && k <= |r|
    ensures Subsequence(r[..k], s)
    decreases |s|
  {
    if k > 0 && s != [] {
      if r[0] == s[0] {
        SubsequencePrefix(r[1..], s[1..], k - 1);
        assert r[..k][1..] == r[1..][..k - 1];
      } else {
        SubsequencePrefix(r, s[1..], k);
      }
    }
  }

  /** `s.filter(f)`: the elements of `s` that satisfy `f`, in their original order. */
  function Filter<T>(s: seq<T>, f: T -> bool): (r: seq<T>)
    ensures |r| <= |s|
    ensures forall i :: 0 <= i < |r| ==> f(r[i])
  {
    if s == [] then []
    else if f(s[0]) then
      assert s == [s[0]] + s[1..];
      [s[0]] + Filter(s[1..], f)
    else
      assert s == [s[0]] + s[1..];
      Filter(s[1..], f)
  }

  /** An element is kept exactly when it occurs in the input and satisfies the predicate. */
  lemma {:induction false} FilterMembers<T>(s: seq<T>, f: T -> bool)
    ensures forall i :: 0 <= i < |s| && f(s[i]) ==> s[i] in Filter(s, f)
    ensures forall x :: x in Filter(s, f) ==> x in s
  {
    if s != [] {
      FilterMembers(s[1..], f);
      assert forall i :: 1 <= i < |s| ==> s[i] == s[1..][i - 1];
    }
  }

  /** Every occurrence of an element that satisfies the predicate is kept, and no other element. */
  lemma {:induction false} FilterCount<T>(s: seq<T>, f: T -> bool, x: T)
    ensures multiset(Filter(s, f))[x] == if f(x) then multiset(s)[x] else 0
  {
    if s != [] {
      FilterCount(s[1..], f, x);
      assert s == [s[0]] + s[1..];
    }
  }

  /** Filtering distributes over concatenation. */
  lemma {:induction false} FilterAppend<T>(a: seq<T>, b: seq<T>, f: T -> bool)
    ensures Filter(a + b, f) == Filter(a, f) + Filter(b, f)
  {
    if a == [] {
      assert a + b == b;
    } else {
      assert (a + b)[0] == a[0];
      assert (a + b)[1..] == a[1..] + b;
      FilterAppend(a[1..], b, f);
    }
  }

  /** What `filter` keeps is a subsequence of its input. */
  lemma {:induction false} FilterIsSubsequence<T>(s: seq<T>, f: T -> bool)
    ensures Subsequence(Filter(s, f), s)
  {
    if s != [] {
      FilterIsSubsequence(s[1..], f);
      var r := Filter(s[1..], f);
      if !f(s[0]) && r != [] {
        assert f(r[0]);
      }
    }
  }

  /** A filter whose predicate holds of every element returns its input unchanged. */
  lemma {:induction false} FilterAll<T>(s: seq<T>, f: T -> bool)
    requires forall i :: 0 <= i < |s| ==> f(s[i])
    ensures Filter(s, f) == s
  {
    if s != [] {
      FilterAll(s[1..], f);
      assert s == [s[0]] + s[1..];
    }
  }

  /** A filter whose predicate holds of no element returns the empty sequence. */
  lemma {:induction false} FilterNone<T>(s: seq<T>, f: T -> bool)
    requires forall i :: 0 <= i < |s| ==> !f(s[i])
    ensures Filter(s, f) == []
  {
    if s != [] {
      FilterNone(s[1..], f);
    }
  }

  /** Elements ordered by a non-decreasing integer rank, as a comparator `rank(a) - rank(b)` orders them. */
  predicate SortedBy<T>(s: seq<T>, rank: T -> int) {
    forall i, j :: 0 <= i < j < |s| ==> rank(s[i]) <= rank(s[j])
  }

  /** The predicate "has rank k", used to single out the elements that tie at one rank. */
  function RankIs<T>(rank: T -> int, k: int): T -> bool {
    x => rank(x) == k
  }

  /** Inserts `x` into `t` after every leading element whose rank is at most `x`'s. */
  function Insert<T>(x: T, t: seq<T>, rank: T -> int): (r: seq<T>)
    ensures |r| == |t| + 1
  {
    if t == [] then [x]
    else if rank(x) < rank(t[0]) then [x] + t
    else [t[0]] + Insert(x, t[1..], rank)
  }

  /** Inserting into a sorted sequence keeps it sorted and adds exactly `x`. */
  lemma {:induction false} InsertSorted<T>(x: T, t: seq<T>, rank: T -> int)
    requires SortedBy(t, rank)
    ensures SortedBy(Insert(x, t, rank), rank)
    ensures multiset(Insert(x, t, rank)) == multiset(t) + multiset{x}
  {
    InsertPermutes(x, t, rank);
    if t == [] {
      assert Insert(x, t, rank) == [x];
    } else if rank(x) < rank(t[0]) {
      assert Insert(x, t, rank) == [x] + t;
      SortedTail(t, rank);
      SortedCons(x, t, rank);
    } else {
      var u := Insert(x, t[1..], rank);
      assert Insert(x, t, rank) == [t[0]] + u;
      SortedTail(t, rank);
      InsertSorted(x, t[1..], rank);
      LowerBoundPreserved(u, t[1..], x, rank, rank(t[0]));
      SortedCons(t[0], u, rank);
    }
  }

  /** Inserting adds exactly the inserted element. */
  lemma {:induction false} InsertPermutes<T>(x: T, t: seq<T>, rank: T -> int)
    ensures multiset(Insert(x, t, rank)) == multiset(t) + multiset{x}
  {
    if t != [] && rank(x) >= rank(t[0]) {
      InsertPermutes(x, t[1..], rank);
      assert t == [t[0]] + t[1..];
    }
  }

  /** The tail of a sorted sequence is sorted, and bounded below by its head. */
  lemma SortedTail<T>(t: seq<T>, rank: T -> int)
    requires SortedBy(t, rank) && t != []
    ensures SortedBy(t[1..], rank)
    ensures forall i :: 0 <= i < |t| ==> rank(t[0]) <= rank(t[i])
  {
    forall i, j | 0 <= i < j < |t[1..]| ensures rank(t[1..][i]) <= rank(t[1..][j]) {
      assert t[1..][i] == t[i + 1] && t[1..][j] == t[j + 1];
    }
  }

  lemma LowerBoundPreserved<T>(u: seq<T>, t: seq<T>, x: T, rank: T -> int, lo: int)
    requires multiset(u) == multiset(t) + multiset{x}
    requires lo <= rank(x)
    requires forall i :: 0 <= i < |t| ==> lo <= rank(t[i])
    ensures forall j :: 0 <= j < |u| ==> lo <= rank(u[j])
  {
    forall j | 0 <= j < |u| ensures lo <= rank(u[j]) {
      assert u[j] in multiset(u);
      if u[j] != x {
        assert u[j] in multiset(t);
        var idx :| 0 <= idx < |t| && t[idx] == u[j];
      }
    }
  }

  lemma SortedCons<T>(y: T, u: seq<T>, rank: T -> int)
    requires SortedBy(u, rank)
    requires forall j :: 0 <= j < |u| ==> rank(y) <= rank(u[j])
    ensures SortedBy([y] + u, rank)
  {
    var r := [y] + u;
    forall i, j | 0 <= i < j < |r| ensures rank(r[i]) <= rank(r[j]) {
      assert r[j] == u[j - 1];
      if i > 0 {
        assert r[i] == u[i - 1];
      }
    }
  }

  /** The stable sort of `s` by ascending `rank`: `s.sort((a, b) => rank(a) - rank(b))`. */
  function SortBy<T>(s: seq<T>, rank: T -> int): (r: seq<T>)
    ensures SortedBy(r, rank)
    ensures multiset(r) == multiset(s)
    ensures |r| == |s|
  {
    if s == [] then []
    else
      var init, last := s[..|s| - 1], s[|s| - 1];
      assert s == init + [last];
      var sorted := SortBy(init, rank);
      InsertSorted(last, sorted, rank);
      Insert(last, sorted, rank)
  }

  lemma {:induction false} FilterNoneAbove<T>(t: seq<T>, rank: T -> int, k: int)
    requires SortedBy(t, rank)
    requires t != [] ==> k < rank(t[0])
    ensures Filter(t, RankIs(rank, k)) == []
  {
    forall i | 0 <= i < |t| ensures !RankIs(rank, k)(t[i]) {
      assert rank(t[0]) <= rank(t[i]);
    }
    FilterNone(t, RankIs(rank, k));
  }

  /** Inserting `x` puts it after every element of equal rank already in `t`. */
  lemma {:induction false} InsertStable<T>(x: T, t: seq<T>, rank: T -> int, k: int)
    requires SortedBy(t, rank)
    ensures Filter(Insert(x, t, rank), RankIs(rank, k))
         == Filter(t, RankIs(rank, k)) + Filter([x], RankIs(rank, k))
  {
    if t == [] {
      assert Insert(x, t, rank) == [x];
    } else if rank(x) < rank(t[0]) {
      InsertStableFront(x, t, rank, k);
    } else {
      assert SortedBy(t[1..], rank);
      InsertStable(x, t[1..], rank, k);
      InsertStableSkip(x, t, rank, k);
    }
  }

  lemma InsertStableFront<T>(x: T, t: seq<T>, rank: T -> int, k: int)
    requires SortedBy(t, rank) && t != [] && rank(x) < rank(t[0])
    ensures Filter(Insert(x, t, rank), RankIs(rank, k))
         == Filter(t, RankIs(rank, k)) + Filter([x], RankIs(rank, k))
  {
    var p := RankIs(rank, k);
    assert Insert(x, t, rank) == [x] + t;
    FilterAppend([x], t, p);
    if rank(x) == k {
      FilterNoneAbove(t, rank, k);
    } else {
      assert !p(x);
      assert Filter([x], p) == [];
    }
  }

  lemma InsertStableSkip<T>(x: T, t: seq<T>, rank: T -> int, k: int)
    requires t != [] && rank(x) >= rank(t[0])
    requires Filter(Insert(x, t[1..], rank), RankIs(rank, k))
          == Filter(t[1..], RankIs(rank, k)) + Filter([x], RankIs(rank, k))
    ensures Filter(Insert(x, t, rank), RankIs(rank, k))
         == Filter(t, RankIs(rank, k)) + Filter([x], RankIs(rank, k))
  {
    var p := RankIs(rank, k);
    var u := Insert(x, t[1..], rank);
    assert Insert(x, t, rank) == [t[0]] + u;
    assert t == [t[0]] + t[1..];
    FilterAppend([t[0]], u, p);
    FilterAppend([t[0]], t[1..], p);
    var a, b, c := Filter([t[0]], p), Filter(t[1..], p), Filter([x], p);
    assert Filter(Insert(x, t, rank), p) == a + (b + c);
    assert Filter(t, p) == a + b;
    assert a + (b + c) == (a + b) + c;
  }

  /**
   * Stability: the elements of any one rank appear in the sorted result in exactly the
   * order they had in the input, so ties keep their input order.
   */
  lemma {:induction false} SortByStable<T>(s: seq<T>, rank: T -> int, k: int)
    ensures Filter(SortBy(s, rank), RankIs(rank, k)) == Filter(s, RankIs(rank, k))
  {
    if s != [] {
      var init, last := s[..|s| - 1], s[|s| - 1];
      SortByStable(init, rank, k);
      InsertStable(last, SortBy(init, rank), rank, k);
      FilterAppend(init, [last], RankIs(rank, k));
      assert s == init + [last];
    }
  }

  /** Sorting an input that is already in rank order changes nothing. */
  lemma {:induction false} SortBySorted<T>(s: seq<T>, rank: T -> int)
    requires SortedBy(s, rank)
    ensures SortBy(s, rank) == s
  {
    if s != [] {
      var init, last := s[..|s| - 1], s[|s| - 1];
      assert s == init + [last];
      InsertLast(last, init, rank);
      SortBySorted(init, rank);
    }
  }

  lemma {:induction false} InsertLast<T>(x: T, t: seq<T>, rank: T -> int)
    requires SortedBy(t + [x], rank)
    ensures SortedBy(t, rank) && Insert(x, t, rank) == t + [x]
  {
    SortedPrefix(t, [x], rank);
    if t != [] {
      var s := t + [x];
      assert s[0] == t[0] && s[|t|] == x;
      SortedTail(s, rank);
      assert t[1..] + [x] == s[1..];
      InsertLast(x, t[1..], rank);
      assert Insert(x, t, rank) == [t[0]] + (t[1..] + [x]);
    }
  }

  /** A prefix of a sorted sequence is sorted. */
  lemma SortedPrefix<T>(t: seq<T>, v: seq<T>, rank: T -> int)
    requires SortedBy(t + v, rank)
    ensures SortedBy(t, rank)
  {
    forall i, j | 0 <= i < j < |t| ensures rank(t[i]) <= rank(t[j]) {
      assert (t + v)[i] == t[i] && (t + v)[j] == t[j];
    }
  }
}

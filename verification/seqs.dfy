/** Generic sequence operations that the views are built from: the
    counterparts of JavaScript's Array.prototype.filter and .map, and the
    "order-preserving subsequence" relation the views are specified by. */
module Seqs {

  /** `a` is `b` with some elements dropped and the rest kept in order. */
  predicate IsSubsequence<T(==,!new)>(a: seq<T>, b: seq<T>)
    decreases |b|
  {
    if b == [] then a == []
    else (a != [] && a[0] == b[0] && IsSubsequence(a[1..], b[1..])) || IsSubsequence(a, b[1..])
  }

  /** `a` is an initial segment of `b`. */
  predicate IsPrefix<T(==)>(a: seq<T>, b: seq<T>) {
    |a| <= |b| && b[..|a|] == a
  }

  /** Array.prototype.filter: the elements of `s` that satisfy `p`, in order. */
  function Filter<T(==,!new)>(s: seq<T>, p: T -> bool): (r: seq<T>)
    ensures |r| <= |s|
    ensures forall x :: x in r <==> x in s && p(x)
    ensures IsSubsequence(r, s)
    ensures forall x {:trigger multiset(r)[x]} :: multiset(r)[x] == if p(x) then multiset(s)[x] else 0
  {
    if s == [] then []
    else
      assert s == [s[0]] + s[1..];
      assert multiset(s) == multiset{s[0]} + multiset(s[1..]);
      if p(s[0]) then [s[0]] + Filter(s[1..], p) else Filter(s[1..], p)
  }

  /** Array.prototype.map. */
  function MapSeq<T, U>(s: seq<T>, f: T -> U): (r: seq<U>)
    ensures |r| == |s|
    ensures forall i :: 0 <= i < |s| ==> r[i] == f(s[i])
  {
    if s == [] then [] else [f(s[0])] + MapSeq(s[1..], f)
  }

  /** Every element of a subsequence comes from the longer sequence. */
  lemma {:induction false} SubsequenceMembers<T(!new)>(a: seq<T>, b: seq<T>)
    requires IsSubsequence(a, b)
    ensures |a| <= |b|
    ensures forall x :: x in a ==> x in b
    decreases |b|
  {
    if b != [] {
      if a != [] && a[0] == b[0] && IsSubsequence(a[1..], b[1..]) {
        SubsequenceMembers(a[1..], b[1..]);
        assert a == [a[0]] + a[1..];
      } else {
        SubsequenceMembers(a, b[1..]);
      }
      assert b == [b[0]] + b[1..];
    }
  }

  /** A subsequence of a subsequence is a subsequence. */
  lemma {:induction false} SubsequenceTransitive<T(!new)>(a: seq<T>, b: seq<T>, c: seq<T>)
    requires IsSubsequence(a, b) && IsSubsequence(b, c)
    ensures IsSubsequence(a, c)
    decreases |c|
  {
    if c == [] {
      assert b == [];
    } else if b != [] && b[0] == c[0] && IsSubsequence(b[1..], c[1..]) {
      // b's head is matched with c's head; a's head is matched with b's head or later
      if a != [] && a[0] == b[0] && IsSubsequence(a[1..], b[1..]) {
        SubsequenceTransitive(a[1..], b[1..], c[1..]);
      } else {
        SubsequenceTransitive(a, b[1..], c[1..]);
      }
    } else {
      SubsequenceTransitive(a, b, c[1..]);
    }
  }

  /** Filtering with a predicate every element satisfies keeps everything. */
  lemma {:induction false} FilterKeepsAll<T(!new)>(s: seq<T>, p: T -> bool)
    requires forall x :: x in s ==> p(x)
    ensures Filter(s, p) == s
  {
    if s != [] {
      FilterKeepsAll(s[1..], p);
    }
  }

  /** Filtering depends only on the values of the predicate. */
  lemma {:induction false} FilterExtensional<T(!new)>(s: seq<T>, p: T -> bool, q: T -> bool)
    requires forall x :: p(x) == q(x)
    ensures Filter(s, p) == Filter(s, q)
  {
    if s != [] {
      FilterExtensional(s[1..], p, q);
    }
  }

  /** Two filters in a row are one filter by the conjunction. */
  lemma {:induction false} FilterFilter<T(!new)>(s: seq<T>, p: T -> bool, q: T -> bool, pq: T -> bool)
    requires forall x :: pq(x) == (p(x) && q(x))
    ensures Filter(Filter(s, p), q) == Filter(s, pq)
  {
    if s != [] {
      FilterFilter(s[1..], p, q, pq);
      assert Filter(s, p) == if p(s[0]) then [s[0]] + Filter(s[1..], p) else Filter(s[1..], p);
      if p(s[0]) {
        assert (Filter(s, p))[1..] == Filter(s[1..], p);
      }
    }
  }

  /** Filters commute. */
  lemma FilterCommute<T(!new)>(s: seq<T>, p: T -> bool, q: T -> bool)
    ensures Filter(Filter(s, p), q) == Filter(Filter(s, q), p)
  {
    var pq := x => p(x) && q(x);
    var qp := x => q(x) && p(x);
    FilterFilter(s, p, q, pq);
    FilterFilter(s, q, p, qp);
    FilterExtensional(s, pq, qp);
  }

  /** A weaker predicate keeps a longer subsequence. */
  lemma {:induction false} FilterMonotone<T(!new)>(s: seq<T>, p: T -> bool, q: T -> bool)
    requires forall x :: p(x) ==> q(x)
    ensures IsSubsequence(Filter(s, p), Filter(s, q))
  {
    if s != [] {
      FilterMonotone(s[1..], p, q);
      var fp, fq := Filter(s[1..], p), Filter(s[1..], q);
      if p(s[0]) {
        assert Filter(s, p) == [s[0]] + fp && Filter(s, q) == [s[0]] + fq;
      } else if q(s[0]) {
        assert Filter(s, q) == [s[0]] + fq && Filter(s, q)[1..] == fq;
      }
    }
  }

  /** A subsequence stays a subsequence under the same filter. */
  lemma {:induction false} FilterSubsequence<T(!new)>(a: seq<T>, b: seq<T>, p: T -> bool)
    requires IsSubsequence(a, b)
    ensures IsSubsequence(Filter(a, p), Filter(b, p))
    decreases |b|
  {
    if b == [] {
    } else if a != [] && a[0] == b[0] && IsSubsequence(a[1..], b[1..]) {
      FilterSubsequence(a[1..], b[1..], p);
      assert a == [a[0]] + a[1..];
      if p(a[0]) {
        assert Filter(a, p)[1..] == Filter(a[1..], p);
      }
    } else {
      FilterSubsequence(a, b[1..], p);
      if p(b[0]) {
        assert Filter(b, p)[1..] == Filter(b[1..], p);
      }
    }
  }

  /** Two predicates that never hold together split a sequence into two
      parts whose lengths add up to at most its length. */
  lemma {:induction false} FilterDisjointCount<T(!new)>(s: seq<T>, p: T -> bool, q: T -> bool)
    requires forall x :: !(p(x) && q(x))
    ensures |Filter(s, p)| + |Filter(s, q)| <= |s|
  {
    if s != [] {
      FilterDisjointCount(s[1..], p, q);
    }
  }

  /** Mapping commutes with filtering when the map does not change the
      predicate's verdict. */
  lemma {:induction false} FilterMapCommute<T(!new)>(s: seq<T>, f: T -> T, p: T -> bool)
    requires forall x :: p(f(x)) == p(x)
    ensures Filter(MapSeq(s, f), p) == MapSeq(Filter(s, p), f)
  {
    if s != [] {
      FilterMapCommute(s[1..], f, p);
      assert MapSeq(s, f) == [f(s[0])] + MapSeq(s[1..], f);
      assert (MapSeq(s, f))[1..] == MapSeq(s[1..], f);
    }
  }

  /** Filtering a concatenation filters each part. */
  lemma {:induction false} FilterAppend<T(!new)>(a: seq<T>, b: seq<T>, p: T -> bool)
    ensures Filter(a + b, p) == Filter(a, p) + Filter(b, p)
  {
    if a != [] {
      assert (a + b)[1..] == a[1..] + b;
      FilterAppend(a[1..], b, p);
    } else {
      assert a + b == b;
    }
  }

  /** Mapping twice with an involution gives back the original sequence. */
  lemma {:induction false} MapInvolution<T(!new)>(s: seq<T>, f: T -> T)
    requires forall x :: f(f(x)) == x
    ensures MapSeq(MapSeq(s, f), f) == s
  {
    var once := MapSeq(s, f);
    var twice := MapSeq(once, f);
    assert forall i :: 0 <= i < |s| ==> twice[i] == f(f(s[i]));
  }
}

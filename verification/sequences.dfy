/**
  Generic sequence facts used by the pose filter: an order-preserving
  `Filter`, the subsequence relation it establishes, and key uniqueness
  and ordering carried over to subsequences.
 */
module Sequences {

  /** `a` can be obtained from `b` by deleting elements, without reordering. */
  predicate IsSubsequence<T(==)>(a: seq<T>, b: seq<T>)
    decreases |b|
  {
    || |a| == 0
    || (&& |b| > 0
        && ((a[0] == b[0] && IsSubsequence(a[1..], b[1..])) || IsSubsequence(a, b[1..])))
  }

  /** The elements of `s` that satisfy `p`, in their original order. */
  function Filter<T(==)>(s: seq<T>, p: T -> bool): (r: seq<T>)
    ensures |r| <= |s|
    ensures forall i :: 0 <= i < |r| ==> p(r[i])
    ensures forall i :: 0 <= i < |s| && p(s[i]) ==> s[i] in r
    ensures IsSubsequence(r, s)
  {
    if |s| == 0 then []
    else if p(s[0]) then [s[0]] + Filter(s[1..], p)
    else Filter(s[1..], p)
  }

  /** The conjunction of two predicates, as one predicate. */
  function Both<T>(p: T -> bool, q: T -> bool): T -> bool {
    x => p(x) && q(x)
  }

  /** No two positions of `s` carry the same key. */
  predicate DistinctBy<T, K(==)>(s: seq<T>, key: T -> K) {
    forall i, j :: 0 <= i < j < |s| ==> key(s[i]) != key(s[j])
  }

  /** The keys of `s` strictly increase from left to right. */
  predicate IncreasingBy<T>(s: seq<T>, key: T -> int) {
    forall i, j :: 0 <= i < j < |s| ==> key(s[i]) < key(s[j])
  }

  lemma {:induction false} SubsequenceMembers<T>(a: seq<T>, b: seq<T>)
    requires IsSubsequence(a, b)
    ensures forall x :: x in a ==> x in b
    decreases |b|
  {
    if |a| > 0 {
      if a[0] == b[0] && IsSubsequence(a[1..], b[1..]) {
        SubsequenceMembers(a[1..], b[1..]);
        forall x | x in a ensures x in b {
          if x != a[0] {
            assert x in a[1..];
          }
        }
      } else {
        SubsequenceMembers(a, b[1..]);
      }
    }
  }

  lemma {:induction false} SubsequenceTransitive<T>(a: seq<T>, b: seq<T>, c: seq<T>)
    requires IsSubsequence(a, b) && IsSubsequence(b, c)
    ensures IsSubsequence(a, c)
    decreases |c|
  {
    if |a| > 0 {
      assert |b| > 0;
      if b[0] == c[0] && IsSubsequence(b[1..], c[1..]) {
        if a[0] == b[0] && IsSubsequence(a[1..], b[1..]) {
          SubsequenceTransitive(a[1..], b[1..], c[1..]);
        } else {
          SubsequenceTransitive(a, b[1..], c[1..]);
        }
      } else {
        SubsequenceTransitive(a, b, c[1..]);
      }
    }
  }

  /** A subsequence inherits distinct keys from the sequence it is taken from. */
  lemma {:induction false} SubsequenceKeepsDistinct<T, K>(a: seq<T>, b: seq<T>, key: T -> K)
    requires IsSubsequence(a, b) && DistinctBy(b, key)
    ensures DistinctBy(a, key)
    decreases |b|
  {
    if |a| > 0 {
      assert DistinctBy(b[1..], key) by {
        forall i, j | 0 <= i < j < |b[1..]| ensures key(b[1..][i]) != key(b[1..][j]) {
          assert b[1..][i] == b[i + 1] && b[1..][j] == b[j + 1];
        }
      }
      if a[0] == b[0] && IsSubsequence(a[1..], b[1..]) {
        SubsequenceKeepsDistinct(a[1..], b[1..], key);
        SubsequenceMembers(a[1..], b[1..]);
        forall i, j | 0 <= i < j < |a| ensures key(a[i]) != key(a[j]) {
          assert a[j] == a[1..][j - 1];
          if i == 0 {
            assert a[j] in a[1..];
            assert a[j] in b[1..];
            var k :| 0 <= k < |b[1..]| && b[1..][k] == a[j];
            assert b[k + 1] == a[j];
          } else {
            assert a[i] == a[1..][i - 1];
          }
        }
      } else {
        SubsequenceKeepsDistinct(a, b[1..], key);
      }
    }
  }

  /** A subsequence inherits strictly increasing keys. */
  lemma {:induction false} SubsequenceKeepsIncreasing<T>(a: seq<T>, b: seq<T>, key: T -> int)
    requires IsSubsequence(a, b) && IncreasingBy(b, key)
    ensures IncreasingBy(a, key)
    decreases |b|
  {
    if |a| > 0 {
      assert IncreasingBy(b[1..], key) by {
        forall i, j | 0 <= i < j < |b[1..]| ensures key(b[1..][i]) < key(b[1..][j]) {
          assert b[1..][i] == b[i + 1] && b[1..][j] == b[j + 1];
        }
      }
      if a[0] == b[0] && IsSubsequence(a[1..], b[1..]) {
        SubsequenceKeepsIncreasing(a[1..], b[1..], key);
        SubsequenceMembers(a[1..], b[1..]);
        forall i, j | 0 <= i < j < |a| ensures key(a[i]) < key(a[j]) {
          assert a[j] == a[1..][j - 1];
          if i == 0 {
            assert a[j] in a[1..];
            assert a[j] in b[1..];
            var k :| 0 <= k < |b[1..]| && b[1..][k] == a[j];
            assert b[k + 1] == a[j];
          } else {
            assert a[i] == a[1..][i - 1];
          }
        }
      } else {
        SubsequenceKeepsIncreasing(a, b[1..], key);
      }
    }
  }

  /** Filtering by `p` and then by `q` keeps, in order, exactly the elements satisfying both. */
  lemma FilterTwice<T>(s: seq<T>, p: T -> bool, q: T -> bool)
    ensures IsSubsequence(Filter(Filter(s, p), q), s)
    ensures forall i :: 0 <= i < |Filter(Filter(s, p), q)|
              ==> p(Filter(Filter(s, p), q)[i]) && q(Filter(Filter(s, p), q)[i])
    ensures forall i :: 0 <= i < |s| && p(s[i]) && q(s[i]) ==> s[i] in Filter(Filter(s, p), q)
  {
    var first := Filter(s, p);
    var second := Filter(first, q);
    SubsequenceTransitive(second, first, s);
    SubsequenceMembers(second, first);
  }

  /** Filtering by a predicate every element satisfies returns the sequence unchanged. */
  lemma {:induction false} FilterKeepsAll<T>(s: seq<T>, p: T -> bool)
    requires forall x :: x in s ==> p(x)
    ensures Filter(s, p) == s
    decreases |s|
  {
    if |s| > 0 {
      assert s[0] in s;
      FilterKeepsAll(s[1..], p);
      assert [s[0]] + s[1..] == s;
    }
  }

  /** Filtering distributes over concatenation. */
  lemma {:induction false} FilterAppend<T>(a: seq<T>, b: seq<T>, p: T -> bool)
    ensures Filter(a + b, p) == Filter(a, p) + Filter(b, p)
    decreases |a|
  {
    if |a| > 0 {
      assert (a + b)[1..] == a[1..] + b;
      FilterAppend(a[1..], b, p);
    } else {
      assert a + b == b;
    }
  }

  /** Filtering one more element appends it exactly when it passes. */
  lemma FilterSnoc<T>(s: seq<T>, x: T, p: T -> bool)
    ensures Filter(s + [x], p) == Filter(s, p) + (if p(x) then [x] else [])
  {
    FilterAppend(s, [x], p);
    assert Filter([x], p) == if p(x) then [x] else [];
  }

  /** Two predicates that agree on the elements of `s` filter it alike. */
  lemma {:induction false} FilterCongruent<T>(s: seq<T>, p: T -> bool, q: T -> bool)
    requires forall x :: x in s ==> p(x) == q(x)
    ensures Filter(s, p) == Filter(s, q)
    decreases |s|
  {
    if |s| > 0 {
      assert s[0] in s;
      FilterCongruent(s[1..], p, q);
    }
  }

  /** Filtering twice is filtering once by the conjunction. */
  lemma {:induction false} FilterFusion<T>(s: seq<T>, p: T -> bool, q: T -> bool)
    ensures Filter(Filter(s, p), q) == Filter(s, Both(p, q))
    decreases |s|
  {
    if |s| > 0 {
      FilterFusion(s[1..], p, q);
      if p(s[0]) {
        assert ([s[0]] + Filter(s[1..], p))[1..] == Filter(s[1..], p);
      }
    }
  }

  /** A weaker predicate keeps a supersequence. */
  lemma {:induction false} FilterMonotone<T>(s: seq<T>, p: T -> bool, q: T -> bool)
    requires forall x :: x in s && p(x) ==> q(x)
    ensures IsSubsequence(Filter(s, p), Filter(s, q))
    decreases |s|
  {
    if |s| > 0 {
      assert s[0] in s;
      FilterMonotone(s[1..], p, q);
      var fp, fq := Filter(s[1..], p), Filter(s[1..], q);
      if p(s[0]) {
        assert ([s[0]] + fp)[1..] == fp && ([s[0]] + fq)[1..] == fq;
      } else if q(s[0]) {
        assert ([s[0]] + fq)[1..] == fq;
      }
    }
  }

  /** Every occurrence of a kept value survives, and no other value does. */
  lemma {:induction false} FilterMultiplicity<T>(s: seq<T>, p: T -> bool, x: T)
    ensures multiset(Filter(s, p))[x] == if p(x) then multiset(s)[x] else 0
    decreases |s|
  {
    if |s| > 0 {
      FilterMultiplicity(s[1..], p, x);
      assert s == [s[0]] + s[1..];
      assert multiset(s) == multiset{s[0]} + multiset(s[1..]);
    }
  }

  /** Membership in `r`, as a predicate. */
  function MemberOf<T(==)>(r: seq<T>): T -> bool {
    x => x in r
  }

  /** Every element of `s` that `r` holds occurs in `s` only once. */
  predicate MembersOnce<T(==)>(r: seq<T>, s: seq<T>) {
    forall i, j :: 0 <= i < j < |s| && s[i] in r ==> s[i] != s[j]
  }

  /**
    A subsequence whose elements occur once in the whole sequence is the
    sequence filtered by membership in it.
   */
  lemma {:induction false} SubsequenceByMembers<T>(r: seq<T>, s: seq<T>)
    requires IsSubsequence(r, s) && MembersOnce(r, s)
    ensures Filter(s, MemberOf(r)) == r
    decreases |s|
  {
    if |s| > 0 {
      assert MembersOnce(r, s[1..]) by {
        forall i, j | 0 <= i < j < |s[1..]| && s[1..][i] in r ensures s[1..][i] != s[1..][j] {
          assert s[1..][i] == s[i + 1] && s[1..][j] == s[j + 1];
        }
      }
      assert s[0] in r ==> s[0] !in s[1..] by {
        if s[0] in r {
          assert forall j :: 0 <= j < |s[1..]| ==> s[1..][j] != s[0] by {
            forall j | 0 <= j < |s[1..]| ensures s[1..][j] != s[0] {
              assert s[1..][j] == s[j + 1];
            }
          }
        }
      }
      if |r| > 0 && r[0] == s[0] && IsSubsequence(r[1..], s[1..]) {
        assert MembersOnce(r[1..], s[1..]) by {
          forall i, j | 0 <= i < j < |s[1..]| && s[1..][i] in r[1..] ensures s[1..][i] != s[1..][j] {
            assert s[1..][i] in r;
          }
        }
        SubsequenceByMembers(r[1..], s[1..]);
        SubsequenceMembers(r[1..], s[1..]);
        FilterCongruent(s[1..], MemberOf(r), MemberOf(r[1..]));
      } else {
        assert IsSubsequence(r, s[1..]);
        SubsequenceMembers(r, s[1..]);
        SubsequenceByMembers(r, s[1..]);
      }
    }
  }

  /** Strictly increasing positions, each inside `0..n`. */
  predicate IsIndexList(idx: seq<int>, n: int) {
    && (forall k :: 0 <= k < |idx| ==> 0 <= idx[k] < n)
    && (forall k, l :: 0 <= k < l < |idx| ==> idx[k] < idx[l])
  }

  /** The elements of `s` at the positions `idx`, in that order. */
  function Pick<T>(s: seq<T>, idx: seq<int>): (r: seq<T>)
    requires IsIndexList(idx, |s|)
    ensures |r| == |idx|
  {
    seq(|idx|, k requires 0 <= k < |idx| => s[idx[k]])
  }

  /** Every position moved one to the left. */
  function ShiftLeft(idx: seq<int>): (r: seq<int>)
    ensures |r| == |idx|
  {
    seq(|idx|, k requires 0 <= k < |idx| => idx[k] - 1)
  }

  /** Dropping position 0 from an index list leaves positions from 1 on. */
  lemma DropZero(idx: seq<int>, n: int)
    requires IsIndexList(idx, n)
    ensures 0 in idx ==> |idx| > 0 && idx[0] == 0
    ensures var rest := if 0 in idx then idx[1..] else idx;
      && IsIndexList(rest, n)
      && (forall k :: 0 <= k < |rest| ==> rest[k] >= 1)
      && (forall j :: j in rest <==> j in idx && j != 0)
  {
    if 0 in idx {
      forall k | 1 <= k < |idx| ensures idx[k] >= 1 {
        assert idx[0] < idx[k];
      }
    }
  }

  lemma ShiftLeftIndexList(rest: seq<int>, n: int)
    requires IsIndexList(rest, n)
    requires forall k :: 0 <= k < |rest| ==> rest[k] >= 1
    ensures IsIndexList(ShiftLeft(rest), n - 1)
    ensures forall i :: i in ShiftLeft(rest) <==> i + 1 in rest
  {
    var shifted := ShiftLeft(rest);
    forall i ensures i in shifted <==> i + 1 in rest {
      if i + 1 in rest {
        var j :| 0 <= j < |rest| && rest[j] == i + 1;
        assert shifted[j] == i;
      }
    }
  }

  lemma PickShift<T>(s: seq<T>, rest: seq<int>)
    requires |s| > 0
    requires IsIndexList(rest, |s|) && IsIndexList(ShiftLeft(rest), |s| - 1)
    ensures Pick(s[1..], ShiftLeft(rest)) == Pick(s, rest)
  {
  }

  lemma PickHead<T>(s: seq<T>, idx: seq<int>)
    requires IsIndexList(idx, |s|) && |idx| > 0 && idx[0] == 0
    ensures IsIndexList(idx[1..], |s|)
    ensures Pick(s, idx) == [s[0]] + Pick(s, idx[1..])
  {
  }

  /**
    Exact characterisation of `Filter` by positions: when `idx` lists, in
    increasing order, exactly the positions whose elements satisfy `p`, the
    filter returns the elements at those positions.
   */
  lemma {:induction false} FilterIsPick<T>(s: seq<T>, p: T -> bool, idx: seq<int>)
    requires IsIndexList(idx, |s|)
    requires forall i :: 0 <= i < |s| ==> (p(s[i]) <==> i in idx)
    ensures Filter(s, p) == Pick(s, idx)
    decreases |s|
  {
    if |s| > 0 {
      DropZero(idx, |s|);
      var rest := if 0 in idx then idx[1..] else idx;
      ShiftLeftIndexList(rest, |s|);
      var shifted := ShiftLeft(rest);
      forall i | 0 <= i < |s[1..]| ensures p(s[1..][i]) <==> i in shifted {
        assert s[1..][i] == s[i + 1];
      }
      FilterIsPick(s[1..], p, shifted);
      PickShift(s, rest);
      if p(s[0]) {
        PickHead(s, idx);
      }
    }
  }

  /**
    A subsequence is fixed by which positions of the sequence it keeps, when
    the kept elements differ: it is exactly those elements, in order.
   */
  lemma SubsequenceAtPositions<T>(r: seq<T>, s: seq<T>, idx: seq<int>)
    requires IsSubsequence(r, s) && IsIndexList(idx, |s|)
    requires forall i :: 0 <= i < |s| ==> (s[i] in r <==> i in idx)
    requires forall k, l :: 0 <= k < l < |idx| ==> s[idx[k]] != s[idx[l]]
    ensures r == Pick(s, idx)
  {
    assert MembersOnce(r, s) by {
      forall i, j | 0 <= i < j < |s| && s[i] in r ensures s[i] != s[j] {
        if s[j] in r {
          var k :| 0 <= k < |idx| && idx[k] == i;
          var l :| 0 <= l < |idx| && idx[l] == j;
          assert k < l;
        }
      }
    }
    SubsequenceByMembers(r, s);
    forall i | 0 <= i < |s| ensures MemberOf(r)(s[i]) <==> i in idx {
    }
    FilterIsPick(s, MemberOf(r), idx);
  }

  /** `r` holds the elements of `s` at positions `a` and `b` and no other element of `s`. */
  predicate OnlyTwoAt<T(==)>(r: seq<T>, s: seq<T>, a: int, b: int) {
    && 0 <= a < b < |s| && s[a] in r && s[b] in r
    && forall i :: 0 <= i < |s| && i != a && i != b ==> s[i] !in r
  }

  /** A subsequence that holds exactly two different elements of `s` is those two, in order. */
  lemma OnlyTwoAtIsPair<T>(r: seq<T>, s: seq<T>, a: int, b: int)
    requires IsSubsequence(r, s) && OnlyTwoAt(r, s, a, b) && s[a] != s[b]
    ensures r == [s[a], s[b]]
  {
    SubsequenceAtPositions(r, s, [a, b]);
    assert Pick(s, [a, b]) == [s[a], s[b]];
  }
}

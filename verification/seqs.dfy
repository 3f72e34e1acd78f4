/** Sequence utilities shared by the analysis modules: JavaScript's
    `[...new Set(xs)]` de-duplication, `slice(0, n)`, sums and means. */
module Seqs {

  /** No element occurs twice. */
  predicate NoDup<T(==)>(s: seq<T>) {
    forall i, j :: 0 <= i < j < |s| ==> s[i] != s[j]
  }

  /** `[...new Set(s)]` with the elements of `seen` already in the set:
      walks left to right and keeps an element the first time it is met. */
  function DedupFrom<T(==)>(s: seq<T>, seen: set<T>): (r: seq<T>)
    ensures NoDup(r)
    ensures forall i :: 0 <= i < |r| ==> r[i] in s && r[i] !in seen
    ensures forall i :: 0 <= i < |s| && s[i] !in seen ==> s[i] in r
    ensures |r| <= |s|
    decreases |s|
  {
    if |s| == 0 then []
    else if s[0] in seen then DedupFrom(s[1..], seen)
    else [s[0]] + DedupFrom(s[1..], seen + {s[0]})
  }

  /** `[...new Set(s)]`: the distinct elements of `s` in order of first occurrence. */
  function Dedup<T(==)>(s: seq<T>): (r: seq<T>)
    ensures NoDup(r)
    ensures forall i :: 0 <= i < |r| ==> r[i] in s
    ensures forall i :: 0 <= i < |s| ==> s[i] in r
    ensures |r| <= |s|
  {
    DedupFrom(s, {})
  }

  /** `lastIndexOf`: the position of the last `x` in `s`, or -1. */
  function LastIndexOf<T(==)>(s: seq<T>, x: T): (r: int)
    ensures -1 <= r < |s|
    ensures r == -1 <==> x !in s
    ensures 0 <= r ==> s[r] == x && forall j :: r < j < |s| ==> s[j] != x
    decreases |s|
  {
    if |s| == 0 then -1
    else if s[|s| - 1] == x then |s| - 1
    else LastIndexOf(s[..|s| - 1], x)
  }

  /** Reference definition of "keep first occurrences", built from the
      right end: the last element survives exactly when it is new. */
  function FirstOccurrences<T(==)>(s: seq<T>): seq<T>
    decreases |s|
  {
    if |s| == 0 then []
    else
      var init := s[..|s| - 1];
      FirstOccurrences(init) + (if s[|s| - 1] in init then [] else [s[|s| - 1]])
  }

  lemma {:induction false} DedupFromSnoc<T>(a: seq<T>, x: T, seen: set<T>)
    ensures DedupFrom(a + [x], seen)
         == DedupFrom(a, seen) + (if x in seen || x in a then [] else [x])
    decreases |a|
  {
    if |a| == 0 {
      assert a + [x] == [x];
      assert ([x])[1..] == [];
    } else {
      assert (a + [x])[0] == a[0];
      assert (a + [x])[1..] == a[1..] + [x];
      if a[0] in seen {
        DedupFromSnoc(a[1..], x, seen);
        assert x in a[1..] ==> x in a;
        assert x in a && x != a[0] ==> x in a[1..] by {
          if x in a && x != a[0] {
            var k :| 0 <= k < |a| && a[k] == x;
            assert k != 0;
            assert a[1..][k - 1] == x;
          }
        }
      } else {
        DedupFromSnoc(a[1..], x, seen + {a[0]});
        assert x in a[1..] ==> x in a;
        assert x in a && x != a[0] ==> x in a[1..] by {
          if x in a && x != a[0] {
            var k :| 0 <= k < |a| && a[k] == x;
            assert k != 0;
            assert a[1..][k - 1] == x;
          }
        }
      }
    }
  }

  /** The left-to-right `Set` walk agrees with the reference definition. */
  lemma {:induction false} DedupIsFirstOccurrences<T>(s: seq<T>)
    ensures Dedup(s) == FirstOccurrences(s)
    decreases |s|
  {
    if |s| > 0 {
      var init := s[..|s| - 1];
      assert s == init + [s[|s| - 1]];
      DedupFromSnoc(init, s[|s| - 1], {});
      DedupIsFirstOccurrences(init);
    }
  }

  /** Walking a list without repeats, none of it seen yet, keeps it all. */
  lemma {:induction false} DedupFromDistinct<T>(s: seq<T>, seen: set<T>)
    requires NoDup(s)
    requires forall i :: 0 <= i < |s| ==> s[i] !in seen
    ensures DedupFrom(s, seen) == s
    decreases |s|
  {
    if |s| > 0 {
      assert forall i :: 0 <= i < |s| - 1 ==> s[1..][i] == s[i + 1];
      DedupFromDistinct(s[1..], seen + {s[0]});
    }
  }

  /** De-duplicating a list without repeats changes nothing. */
  lemma DedupDistinct<T>(s: seq<T>)
    requires NoDup(s)
    ensures Dedup(s) == s
  {
    DedupFromDistinct(s, {});
  }

  /** `s.slice(0, n)`. */
  function Take<T>(s: seq<T>, n: nat): (r: seq<T>)
    ensures |r| <= n && |r| <= |s|
    ensures |s| <= n ==> r == s
    ensures |s| > n ==> |r| == n
    ensures forall i :: 0 <= i < |r| ==> r[i] == s[i]
  {
    if |s| <= n then s else s[..n]
  }

  /** Sum of a list of reals (`reduce((a, b) => a + b, 0)`). */
  function Sum(s: seq<real>): real
    decreases |s|
  {
    if |s| == 0 then 0.0 else s[0] + Sum(s[1..])
  }

  /** Sum of a list of reals, bounded through its elements. */
  lemma {:induction false} SumBounds(s: seq<real>, lo: real, hi: real)
    requires forall i :: 0 <= i < |s| ==> lo <= s[i] <= hi
    ensures lo * |s| as real <= Sum(s) <= hi * |s| as real
    decreases |s|
  {
    if |s| > 0 {
      SumBounds(s[1..], lo, hi);
      assert lo * |s| as real == lo + lo * |s[1..]| as real;
      assert hi * |s| as real == hi + hi * |s[1..]| as real;
    }
  }

  /** Arithmetic mean; zero for the empty list (the callers guard it). */
  function Mean(s: seq<real>): real {
    if |s| == 0 then 0.0 else Sum(s) / |s| as real
  }

  /** A mean of values in [lo, hi] lies in [lo, hi]. */
  lemma MeanBounds(s: seq<real>, lo: real, hi: real)
    requires |s| > 0
    requires forall i :: 0 <= i < |s| ==> lo <= s[i] <= hi
    ensures lo <= Mean(s) <= hi
  {
    SumBounds(s, lo, hi);
    var n := |s| as real;
    assert lo * n <= Sum(s) <= hi * n;
    assert lo == lo * n / n;
    assert hi == hi * n / n;
  }

  /** Concatenation of a list of lists. */
  function Concat<T>(ss: seq<seq<T>>): seq<T>
    decreases |ss|
  {
    if |ss| == 0 then [] else ss[0] + Concat(ss[1..])
  }

  /** Flattening distributes over appending a list. */
  lemma {:induction false} ConcatAppend<T>(a: seq<seq<T>>, b: seq<seq<T>>)
    ensures Concat(a + b) == Concat(a) + Concat(b)
    decreases |a|
  {
    if |a| == 0 {
      assert a + b == b;
    } else {
      assert (a + b)[0] == a[0];
      assert (a + b)[1..] == a[1..] + b;
      ConcatAppend(a[1..], b);
    }
  }
}

/** The `filter` and `reduce((sum, x) => sum + f(x), 0)` idioms every page
    uses, with the identities between them: filters keep order and split
    sums, and a filtered total never exceeds the full one when the amounts
    are non-negative. */
module Totals {

  /** `s.filter(p)`. */
  function Filter<T>(s: seq<T>, p: T -> bool): (r: seq<T>)
    ensures |r| <= |s|
    ensures forall i :: 0 <= i < |r| ==> p(r[i])
  {
    if s == [] then [] else Filter(s[..|s| - 1], p) + (if p(s[|s| - 1]) then [s[|s| - 1]] else [])
  }

  /** `s.reduce((sum, x) => sum + f(x), 0)`. */
  function SumBy<T>(s: seq<T>, f: T -> real): real {
    if s == [] then 0.0 else SumBy(s[..|s| - 1], f) + f(s[|s| - 1])
  }

  /** `a` is `b` with some elements removed and the rest in their order. */
  predicate IsSubseq<T(==)>(a: seq<T>, b: seq<T>)
    decreases |b|
  {
    if a == [] then true
    else if b == [] then false
    else IsSubseq(a, b[..|b| - 1]) || (a[|a| - 1] == b[|b| - 1] && IsSubseq(a[..|a| - 1], b[..|b| - 1]))
  }

  lemma {:induction false} FilterAppend<T>(a: seq<T>, b: seq<T>, p: T -> bool)
    ensures Filter(a + b, p) == Filter(a, p) + Filter(b, p)
    decreases |b|
  {
    if b == [] {
      assert a + b == a;
    } else {
      var b' := b[..|b| - 1];
      assert (a + b)[..|a + b| - 1] == a + b';
      FilterAppend(a, b', p);
    }
  }

  lemma {:induction false} SumByAppend<T>(a: seq<T>, b: seq<T>, f: T -> real)
    ensures SumBy(a + b, f) == SumBy(a, f) + SumBy(b, f)
    decreases |b|
  {
    if b == [] {
      assert a + b == a;
    } else {
      var b' := b[..|b| - 1];
      assert (a + b)[..|a + b| - 1] == a + b';
      SumByAppend(a, b', f);
    }
  }

  /** A filter keeps the order of what it keeps. */
  lemma {:induction false} FilterIsSubseq<T>(s: seq<T>, p: T -> bool)
    ensures IsSubseq(Filter(s, p), s)
    decreases |s|
  {
    if s != [] {
      var s' := s[..|s| - 1];
      FilterIsSubseq(s', p);
      var r := Filter(s, p);
      if p(s[|s| - 1]) {
        assert r[..|r| - 1] == Filter(s', p);
      } else {
        assert r == Filter(s', p);
      }
    }
  }

  /** A filter that keeps everything is the identity. */
  lemma {:induction false} FilterAll<T>(s: seq<T>, p: T -> bool)
    requires forall x :: x in s ==> p(x)
    ensures Filter(s, p) == s
    decreases |s|
  {
    if s != [] {
      FilterAll(s[..|s| - 1], p);
      assert s[..|s| - 1] + [s[|s| - 1]] == s;
    }
  }

  /** Filters by predicates that agree on `s` keep the same elements. */
  lemma {:induction false} FilterCongruent<T>(s: seq<T>, p: T -> bool, q: T -> bool)
    requires forall x :: x in s ==> (p(x) <==> q(x))
    ensures Filter(s, p) == Filter(s, q)
    decreases |s|
  {
    if s != [] {
      FilterCongruent(s[..|s| - 1], p, q);
    }
  }

  /** Two filters in a row are one filter by the conjunction. */
  lemma {:induction false} FilterFilter<T>(s: seq<T>, p: T -> bool, q: T -> bool, pq: T -> bool)
    requires forall x :: pq(x) <==> p(x) && q(x)
    ensures Filter(Filter(s, p), q) == Filter(s, pq)
    decreases |s|
  {
    if s != [] {
      var s' := s[..|s| - 1];
      var x := s[|s| - 1];
      FilterFilter(s', p, q, pq);
      FilterAppend(Filter(s', p), if p(x) then [x] else [], q);
      assert Filter([x], q) == (if q(x) then [x] else []) by {
        assert [x][..0] == [];
      }
    }
  }

  /** Splitting by a predicate and its negation splits the total. */
  lemma {:induction false} SumByComplement<T>(s: seq<T>, f: T -> real, p: T -> bool, q: T -> bool)
    requires forall x :: q(x) <==> !p(x)
    ensures SumBy(Filter(s, p), f) + SumBy(Filter(s, q), f) == SumBy(s, f)
    decreases |s|
  {
    if s != [] {
      var s' := s[..|s| - 1];
      var x := s[|s| - 1];
      SumByComplement(s', f, p, q);
      SumByAppend(Filter(s', p), if p(x) then [x] else [], f);
      SumByAppend(Filter(s', q), if q(x) then [x] else [], f);
      assert SumBy([x], f) == f(x) by {
        assert [x][..0] == [];
      }
    }
  }

  /** ... and splits the count. */
  lemma {:induction false} CountComplement<T>(s: seq<T>, p: T -> bool, q: T -> bool)
    requires forall x :: q(x) <==> !p(x)
    ensures |Filter(s, p)| + |Filter(s, q)| == |s|
    decreases |s|
  {
    if s != [] {
      CountComplement(s[..|s| - 1], p, q);
    }
  }

  lemma {:induction false} SumByNonNegative<T>(s: seq<T>, f: T -> real)
    requires forall x :: x in s ==> f(x) >= 0.0
    ensures SumBy(s, f) >= 0.0
    decreases |s|
  {
    if s != [] {
      SumByNonNegative(s[..|s| - 1], f);
    }
  }

  /** A sum of zeros is zero. */
  lemma {:induction false} SumByZero<T>(s: seq<T>)
    ensures SumBy(s, x => 0.0) == 0.0
    decreases |s|
  {
    if s != [] {
      SumByZero(s[..|s| - 1]);
    }
  }

  /** With non-negative amounts a sub-total never exceeds the total. */
  lemma {:induction false} SumByFilterAtMost<T>(s: seq<T>, f: T -> real, p: T -> bool)
    requires forall x :: x in s ==> f(x) >= 0.0
    ensures SumBy(Filter(s, p), f) <= SumBy(s, f)
  {
    var q := (x: T) => !p(x);
    SumByComplement(s, f, p, q);
    forall x | x in Filter(s, q) ensures f(x) >= 0.0 {
      FilterMembers(s, q, x);
    }
    SumByNonNegative(Filter(s, q), f);
  }

  /** The total of a difference is the difference of the totals. */
  lemma {:induction false} SumByDifference<T>(s: seq<T>, f: T -> real, g: T -> real, h: T -> real)
    requires forall x :: h(x) == f(x) - g(x)
    ensures SumBy(s, h) == SumBy(s, f) - SumBy(s, g)
    decreases |s|
  {
    if s != [] {
      SumByDifference(s[..|s| - 1], f, g, h);
    }
  }

  /** Totals of amounts that agree element-wise agree. */
  lemma {:induction false} SumByCongruent<T>(s: seq<T>, f: T -> real, g: T -> real)
    requires forall x :: x in s ==> f(x) == g(x)
    ensures SumBy(s, f) == SumBy(s, g)
    decreases |s|
  {
    if s != [] {
      SumByCongruent(s[..|s| - 1], f, g);
    }
  }

  /** What a filter keeps is exactly the elements of `s` that satisfy `p`. */
  lemma {:induction false} FilterMembers<T>(s: seq<T>, p: T -> bool, x: T)
    ensures x in Filter(s, p) <==> x in s && p(x)
    decreases |s|
  {
    if s != [] {
      FilterMembers(s[..|s| - 1], p, x);
      assert s == s[..|s| - 1] + [s[|s| - 1]];
    }
  }

  /** A filter that keeps nothing of `s` is empty. */
  lemma {:induction false} FilterNone<T>(s: seq<T>, p: T -> bool)
    requires forall i :: 0 <= i < |s| ==> !p(s[i])
    ensures Filter(s, p) == []
    decreases |s|
  {
    if s != [] {
      FilterNone(s[..|s| - 1], p);
    }
  }

  /** How often a filter keeps a value: as often as `s` holds it, if it passes. */
  lemma {:induction false} FilterMultiplicity<T>(s: seq<T>, p: T -> bool, x: T)
    ensures multiset(Filter(s, p))[x] == if p(x) then multiset(s)[x] else 0
    decreases |s|
  {
    if s != [] {
      var s' := s[..|s| - 1];
      FilterMultiplicity(s', p, x);
      assert s == s' + [s[|s| - 1]];
    }
  }

  /** Filtering two permutations of each other gives permutations of each other. */
  lemma {:induction false} FilterPermutation<T>(a: seq<T>, b: seq<T>, p: T -> bool)
    requires multiset(a) == multiset(b)
    ensures multiset(Filter(a, p)) == multiset(Filter(b, p))
  {
    forall x ensures multiset(Filter(a, p))[x] == multiset(Filter(b, p))[x] {
      FilterMultiplicity(a, p, x);
      FilterMultiplicity(b, p, x);
    }
    MultisetsAgree(Filter(a, p), Filter(b, p));
  }

  /** Two sequences with the same multiplicities are permutations of each other. */
  lemma {:induction false} MultisetsAgree<T>(a: seq<T>, b: seq<T>)
    requires forall x :: multiset(a)[x] == multiset(b)[x]
    ensures multiset(a) == multiset(b)
  {
  }

  /** The total does not depend on the order of the elements. */
  lemma {:induction false} SumByPermutation<T>(a: seq<T>, b: seq<T>, f: T -> real)
    requires multiset(a) == multiset(b)
    ensures SumBy(a, f) == SumBy(b, f)
    decreases |a|
  {
    if a == [] {
      assert |b| == |multiset(b)| == 0;
    } else {
      var x := a[|a| - 1];
      var a' := a[..|a| - 1];
      assert a == a' + [x];
      assert x in multiset(b);
      var j :| 0 <= j < |b| && b[j] == x;
      var b' := b[..j] + b[j + 1..];
      assert b == b[..j] + [x] + b[j + 1..];
      assert multiset(a) == multiset(a') + multiset{x};
      assert multiset(b) == multiset(b[..j]) + multiset{x} + multiset(b[j + 1..]);
      assert multiset(b') == multiset(b[..j]) + multiset(b[j + 1..]);
      forall y ensures multiset(a')[y] == multiset(b')[y] {
        assert multiset(a)[y] == multiset(b)[y];
      }
      MultisetsAgree(a', b');
      SumByPermutation(a', b', f);
      SumByAppend(b[..j], b[j + 1..], f);
      SumByAppend(b[..j], [x], f);
      SumByAppend(b[..j] + [x], b[j + 1..], f);
      assert SumBy([x], f) == f(x) by {
        assert [x][..0] == [];
      }
    }
  }

  /** Totals over a filtered, element-wise transformed copy (`s.map(g)`)
      equal the totals over the original when the filter and the amount
      read through the transformation. */
  lemma {:induction false} SumByFilterMapped<A, B>(s: seq<A>, ms: seq<B>, g: A -> B,
                                                 pa: A -> bool, pb: B -> bool, fa: A -> real, fb: B -> real)
    requires |ms| == |s| && forall i :: 0 <= i < |s| ==> ms[i] == g(s[i])
    requires forall a :: pb(g(a)) == pa(a) && fb(g(a)) == fa(a)
    ensures SumBy(Filter(ms, pb), fb) == SumBy(Filter(s, pa), fa)
    decreases |s|
  {
    if s != [] {
      var n := |s| - 1;
      SumByFilterMapped(s[..n], ms[..n], g, pa, pb, fa, fb);
      var x := s[n];
      assert ms[n] == g(x);
      assert pb(g(x)) == pa(x) && fb(g(x)) == fa(x);
      assert Filter(ms, pb) == Filter(ms[..n], pb) + (if pb(g(x)) then [g(x)] else []);
      assert Filter(s, pa) == Filter(s[..n], pa) + (if pa(x) then [x] else []);
      if pa(x) {
        SumByAppend(Filter(ms[..n], pb), [g(x)], fb);
        SumByAppend(Filter(s[..n], pa), [x], fa);
        assert SumBy([g(x)], fb) == fb(g(x)) by {
          assert [g(x)][..0] == [];
        }
        assert SumBy([x], fa) == fa(x) by {
          assert [x][..0] == [];
        }
      } else {
        assert Filter(ms, pb) == Filter(ms[..n], pb);
        assert Filter(s, pa) == Filter(s[..n], pa);
      }
    }
  }

  /** A filter that keeps more never totals less, with non-negative amounts. */
  lemma {:induction false} SumByFilterMonotone<T>(s: seq<T>, f: T -> real, p: T -> bool, q: T -> bool)
    requires forall x :: p(x) ==> q(x)
    requires forall x :: x in s ==> f(x) >= 0.0
    ensures SumBy(Filter(s, p), f) <= SumBy(Filter(s, q), f)
    decreases |s|
  {
    if s != [] {
      var n := |s| - 1;
      var x := s[n];
      assert forall y :: y in s[..n] ==> y in s;
      SumByFilterMonotone(s[..n], f, p, q);
      SumByAppend(Filter(s[..n], p), if p(x) then [x] else [], f);
      SumByAppend(Filter(s[..n], q), if q(x) then [x] else [], f);
      assert SumBy([x], f) == f(x) by {
        assert [x][..0] == [];
      }
    }
  }
}

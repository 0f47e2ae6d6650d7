/** `Array.prototype.reduce((sum, x) => sum + f(x), 0)` over exact reals,
    and the facts about it the dashboard's totals rely on. */
module Sums {

  /** The left fold `((0 + f(s[0])) + f(s[1])) + ...`. */
  function SumOf<T>(s: seq<T>, f: T -> real): real
    decreases |s|
  {
    if |s| == 0 then 0.0 else SumOf(s[..|s| - 1], f) + f(s[|s| - 1])
  }

  /** The elements of `s` that satisfy `p`, in order (`Array.prototype.filter`). */
  function Filter<T(!new)>(s: seq<T>, p: T -> bool): (r: seq<T>)
    ensures |r| <= |s|
    ensures forall x :: x in r <==> x in s && p(x)
    decreases |s|
  {
    if |s| == 0 then []
    else
      assert s == s[..|s| - 1] + [s[|s| - 1]];
      Filter(s[..|s| - 1], p) + (if p(s[|s| - 1]) then [s[|s| - 1]] else [])
  }

  /** The number of elements of `s` that satisfy `p`. */
  function CountOf<T>(s: seq<T>, p: T -> bool): nat
    decreases |s|
  {
    if |s| == 0 then 0 else CountOf(s[..|s| - 1], p) + (if p(s[|s| - 1]) then 1 else 0)
  }

  lemma {:induction false} SumOfConcat<T>(a: seq<T>, b: seq<T>, f: T -> real)
    ensures SumOf(a + b, f) == SumOf(a, f) + SumOf(b, f)
    decreases |b|
  {
    if |b| == 0 {
      assert a + b == a;
    } else {
      assert (a + b)[..|a + b| - 1] == a + b[..|b| - 1];
      SumOfConcat(a, b[..|b| - 1], f);
    }
  }

  lemma SumOfSingleton<T>(x: T, f: T -> real)
    ensures SumOf([x], f) == f(x)
  {
    assert [x][..0] == [];
  }

  lemma SumOfCons<T>(x: T, s: seq<T>, f: T -> real)
    ensures SumOf([x] + s, f) == f(x) + SumOf(s, f)
  {
    SumOfConcat([x], s, f);
    assert [x][..0] == [];
  }

  /** Taking one element out of a sequence takes it out of the multiset
      and takes its value out of the sum. */
  lemma {:induction false} RemoveOne<T>(b: seq<T>, i: int, f: T -> real)
    requires 0 <= i < |b|
    ensures multiset(b[..i] + b[i + 1..]) == multiset(b) - multiset{b[i]}
    ensures SumOf(b, f) == SumOf(b[..i] + b[i + 1..], f) + f(b[i])
  {
    var l, x, r := b[..i], b[i], b[i + 1..];
    assert b == l + [x] + r;
    assert multiset(b) == multiset(l) + multiset{x} + multiset(r);
    SumOfConcat(l + [x], r, f);
    SumOfConcat(l, [x], f);
    SumOfConcat(l, r, f);
    SumOfSingleton(x, f);
  }

  /** The total does not depend on the order of the input: any permutation
      sums to the same value. */
  lemma {:induction false} SumOfPermutation<T>(a: seq<T>, b: seq<T>, f: T -> real)
    requires multiset(a) == multiset(b)
    ensures SumOf(a, f) == SumOf(b, f)
    decreases |a|
  {
    if |a| > 0 {
      var x := a[0];
      assert x in multiset(b);
      var i :| 0 <= i < |b| && b[i] == x;
      RemoveOne(b, i, f);
      assert a == [x] + a[1..];
      assert multiset(a[1..]) == multiset(a) - multiset{x};
      SumOfPermutation(a[1..], b[..i] + b[i + 1..], f);
      SumOfCons(x, a[1..], f);
    }
  }

  /** Summing over the kept elements of a filter is summing the indicator
      of the predicate over everything. */
  lemma {:induction false} SumOfFilter<T(!new)>(s: seq<T>, p: T -> bool, f: T -> real)
    ensures SumOf(Filter(s, p), f) == SumOf(s, Keep(p, f))
    decreases |s|
  {
    if |s| > 0 {
      var n := |s| - 1;
      SumOfFilter(s[..n], p, f);
      var tail := if p(s[n]) then [s[n]] else [];
      SumOfConcat(Filter(s[..n], p), tail, f);
      if p(s[n]) {
        assert SumOf(tail, f) == f(s[n]) by { assert tail[..0] == []; }
      }
    }
  }

  /** The number of kept elements of a filter. */
  lemma {:induction false} CountOfFilter<T(!new)>(s: seq<T>, p: T -> bool)
    ensures |Filter(s, p)| == CountOf(s, p)
    decreases |s|
  {
    if |s| > 0 {
      CountOfFilter(s[..|s| - 1], p);
    }
  }

  /** `f` where `p` holds and zero elsewhere. */
  function Keep<T>(p: T -> bool, f: T -> real): T -> real {
    x => if p(x) then f(x) else 0.0
  }

  /** A fold of a pointwise non-negative function is non-negative. */
  lemma {:induction false} SumOfNonNegative<T>(s: seq<T>, f: T -> real)
    requires forall i :: 0 <= i < |s| ==> f(s[i]) >= 0.0
    ensures SumOf(s, f) >= 0.0
    decreases |s|
  {
    if |s| > 0 {
      SumOfNonNegative(s[..|s| - 1], f);
    }
  }

  /** Two functions that agree on every element give the same sum. */
  lemma {:induction false} SumOfCongruent<T>(s: seq<T>, f: T -> real, g: T -> real)
    requires forall i :: 0 <= i < |s| ==> f(s[i]) == g(s[i])
    ensures SumOf(s, f) == SumOf(s, g)
    decreases |s|
  {
    if |s| > 0 {
      SumOfCongruent(s[..|s| - 1], f, g);
    }
  }

  /** `x => p(x) && q(x)` */
  function Both<T>(p: T -> bool, q: T -> bool): T -> bool {
    x => p(x) && q(x)
  }

  /** Filtering keeps order: the filter of a concatenation is the
      concatenation of the filters. */
  lemma {:induction false} FilterConcat<T(!new)>(a: seq<T>, b: seq<T>, p: T -> bool)
    ensures Filter(a + b, p) == Filter(a, p) + Filter(b, p)
    decreases |b|
  {
    if |b| == 0 {
      assert a + b == a;
    } else {
      assert (a + b)[..|a + b| - 1] == a + b[..|b| - 1];
      FilterConcat(a, b[..|b| - 1], p);
    }
  }

  /** A filter that every element passes changes nothing. */
  lemma {:induction false} FilterAll<T(!new)>(s: seq<T>, p: T -> bool)
    requires forall i :: 0 <= i < |s| ==> p(s[i])
    ensures Filter(s, p) == s
    decreases |s|
  {
    if |s| > 0 {
      FilterAll(s[..|s| - 1], p);
      assert s == s[..|s| - 1] + [s[|s| - 1]];
    }
  }

  /** A filter that no element passes keeps nothing. */
  lemma {:induction false} FilterNone<T(!new)>(s: seq<T>, p: T -> bool)
    requires forall i :: 0 <= i < |s| ==> !p(s[i])
    ensures Filter(s, p) == []
    decreases |s|
  {
    if |s| > 0 {
      FilterNone(s[..|s| - 1], p);
    }
  }

  /** Counting `q` over the elements kept by `p` is counting `p && q`. */
  lemma {:induction false} CountOfFilterWhere<T(!new)>(s: seq<T>, p: T -> bool, q: T -> bool)
    ensures CountOf(Filter(s, p), q) == CountOf(s, Both(p, q))
    decreases |s|
  {
    if |s| > 0 {
      var n := |s| - 1;
      CountOfFilterWhere(s[..n], p, q);
      var f := Filter(s[..n], p);
      if p(s[n]) {
        assert (f + [s[n]])[..|f|] == f;
      } else {
        assert f + [] == f;
      }
    }
  }

  /** Summing `f` where `q` holds over the elements kept by `p` is summing
      it where `p && q` holds. */
  lemma SumOfFilterWhere<T(!new)>(s: seq<T>, p: T -> bool, q: T -> bool, f: T -> real)
    ensures SumOf(Filter(s, p), Keep(q, f)) == SumOf(s, Keep(Both(p, q), f))
  {
    SumOfFilter(s, p, Keep(q, f));
    SumOfCongruent(s, Keep(p, Keep(q, f)), Keep(Both(p, q), f));
  }

  /** 1 where `p` holds and 0 elsewhere. */
  function Indicator<T>(p: T -> bool): T -> real {
    x => if p(x) then 1.0 else 0.0
  }

  /** A count is the sum of the predicate's indicator. */
  lemma {:induction false} CountOfAsSum<T>(s: seq<T>, p: T -> bool)
    ensures CountOf(s, p) as real == SumOf(s, Indicator(p))
    decreases |s|
  {
    if |s| > 0 {
      CountOfAsSum(s[..|s| - 1], p);
    }
  }

  /** The count does not depend on the order of the input. */
  lemma CountOfPermutation<T>(a: seq<T>, b: seq<T>, p: T -> bool)
    requires multiset(a) == multiset(b)
    ensures CountOf(a, p) == CountOf(b, p)
  {
    CountOfAsSum(a, p);
    CountOfAsSum(b, p);
    SumOfPermutation(a, b, Indicator(p));
  }

  /** `x => !p(x)` */
  function Not<T>(p: T -> bool): T -> bool {
    x => !p(x)
  }

  /** A predicate splits a total into the part where it holds and the part
      where it does not. */
  lemma {:induction false} SumOfSplit<T>(s: seq<T>, p: T -> bool, f: T -> real)
    ensures SumOf(s, Keep(p, f)) + SumOf(s, Keep(Not(p), f)) == SumOf(s, f)
    decreases |s|
  {
    if |s| > 0 {
      SumOfSplit(s[..|s| - 1], p, f);
    }
  }
}

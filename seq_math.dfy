/** Folds over sequences of reals that the Swift standard library supplies to the
    statistics code: `reduce(0, +)`, `min()`, `max()` and `sorted()`.
    Doubles are modelled as exact reals. */
module SeqMath {

  /** `s.reduce(0, +)`: a left fold, so the last element is added last. */
  function Sum(s: seq<real>): real
  {
    if s == [] then 0.0 else Sum(s[..|s| - 1]) + s[|s| - 1]
  }

  lemma {:induction false} SumAppend(s: seq<real>, x: real)
    ensures Sum(s + [x]) == Sum(s) + x
  {
    assert (s + [x])[..|s + [x]| - 1] == s;
  }

  /** `s.min()` on a non-empty array. */
  function Min(s: seq<real>): (r: real)
    requires s != []
    ensures r in s
    ensures forall i :: 0 <= i < |s| ==> r <= s[i]
  {
    if |s| == 1 then s[0]
    else
      var m := Min(s[..|s| - 1]);
      if s[|s| - 1] < m then s[|s| - 1] else m
  }

  /** `s.max()` on a non-empty array. */
  function Max(s: seq<real>): (r: real)
    requires s != []
    ensures r in s
    ensures forall i :: 0 <= i < |s| ==> s[i] <= r
  {
    if |s| == 1 then s[0]
    else
      var m := Max(s[..|s| - 1]);
      if m < s[|s| - 1] then s[|s| - 1] else m
  }

  /** A lower bound of every element, times the length, bounds the sum from below. */
  lemma {:induction false} SumAtLeast(s: seq<real>, m: real)
    requires forall i :: 0 <= i < |s| ==> m <= s[i]
    ensures (|s| as real) * m <= Sum(s)
  {
    if s != [] {
      var t := s[..|s| - 1];
      SumAtLeast(t, m);
      assert (|s| as real) * m == (|t| as real) * m + m;
    }
  }

  /** An upper bound of every element, times the length, bounds the sum from above. */
  lemma {:induction false} SumAtMost(s: seq<real>, m: real)
    requires forall i :: 0 <= i < |s| ==> s[i] <= m
    ensures Sum(s) <= (|s| as real) * m
  {
    if s != [] {
      var t := s[..|s| - 1];
      SumAtMost(t, m);
      assert (|s| as real) * m == (|t| as real) * m + m;
    }
  }

  /** Every element of `t` occurs in `s`, so `t`'s extremes lie inside `s`'s. */
  lemma MinMaxOfSubset(s: seq<real>, t: seq<real>)
    requires s != [] && t != []
    requires forall x :: x in t ==> x in s
    ensures Min(s) <= Min(t) && Max(t) <= Max(s)
  {
    assert Min(t) in s && Max(t) in s;
  }

  /** Bounds on every element bound the extremes. */
  lemma MinMaxWithin(s: seq<real>, lo: real, hi: real)
    requires s != []
    requires forall i :: 0 <= i < |s| ==> lo <= s[i] <= hi
    ensures lo <= Min(s) && Max(s) <= hi
  {
    var i :| 0 <= i < |s| && s[i] == Min(s);
    var j :| 0 <= j < |s| && s[j] == Max(s);
  }

  predicate IsSorted(s: seq<real>)
  {
    forall i, j :: 0 <= i < j < |s| ==> s[i] <= s[j]
  }

  /** Inserts `x` into the ascending sequence `s`, in front of the first larger element. */
  function Insert(x: real, s: seq<real>): (r: seq<real>)
    requires IsSorted(s)
    ensures IsSorted(r)
    ensures multiset(r) == multiset(s) + multiset{x}
  {
    if s == [] || x <= s[0] then
      [x] + s
    else
      assert s == [s[0]] + s[1..];
      var t := Insert(x, s[1..]);
      InsertKeepsLowerBound(s[0], x, s[1..], t);
      PrependKeepsSorted(s[0], t);
      [s[0]] + t
  }

  /** A value at most every element of an ascending sequence can go in front of it. */
  lemma PrependKeepsSorted(m: real, t: seq<real>)
    requires IsSorted(t)
    requires forall i :: 0 <= i < |t| ==> m <= t[i]
    ensures IsSorted([m] + t)
  {
  }

  /** A value below `x` and below every element of `s` is below every element of `s` with `x` inserted. */
  lemma InsertKeepsLowerBound(m: real, x: real, s: seq<real>, t: seq<real>)
    requires m <= x
    requires forall i :: 0 <= i < |s| ==> m <= s[i]
    requires multiset(t) == multiset(s) + multiset{x}
    ensures forall i :: 0 <= i < |t| ==> m <= t[i]
  {
    forall i | 0 <= i < |t|
      ensures m <= t[i]
    {
      assert t[i] in multiset(t);
      assert t[i] == x || t[i] in s;
    }
  }

  /** `s.sorted()`: an ascending permutation of `s` (insertion sort). */
  function Sort(s: seq<real>): (r: seq<real>)
    ensures IsSorted(r)
    ensures multiset(r) == multiset(s)
    ensures |r| == |s|
  {
    if s == [] then []
    else
      assert s == [s[0]] + s[1..];
      Insert(s[0], Sort(s[1..]))
  }

  /** Two ascending arrangements of the same multiset are equal: the sorted order is unique. */
  lemma {:induction false} SortedUnique(a: seq<real>, b: seq<real>)
    requires IsSorted(a) && IsSorted(b)
    requires multiset(a) == multiset(b)
    ensures a == b
  {
    assert |a| == |b| by { assert |multiset(a)| == |a| && |multiset(b)| == |b|; }
    if a != [] {
      SortedHeadsEqual(a, b);
      SortedTails(a, b);
      SortedUnique(a[1..], b[1..]);
      assert a == [a[0]] + a[1..];
      assert b == [b[0]] + b[1..];
    }
  }

  /** Both arrangements start with the smallest value. */
  lemma SortedHeadsEqual(a: seq<real>, b: seq<real>)
    requires a != [] && b != []
    requires IsSorted(a) && IsSorted(b)
    requires multiset(a) == multiset(b)
    ensures a[0] == b[0]
  {
    assert a[0] in multiset(b) && b[0] in multiset(a);
    assert a[0] in b && b[0] in a;
  }

  /** Dropping the equal heads leaves ascending tails with equal multisets. */
  lemma SortedTails(a: seq<real>, b: seq<real>)
    requires a != [] && b != [] && a[0] == b[0]
    requires IsSorted(a) && IsSorted(b)
    requires multiset(a) == multiset(b)
    ensures IsSorted(a[1..]) && IsSorted(b[1..])
    ensures multiset(a[1..]) == multiset(b[1..])
  {
    assert a == [a[0]] + a[1..];
    assert b == [b[0]] + b[1..];
    assert multiset(a[1..]) == multiset(a) - multiset{a[0]};
    assert multiset(b[1..]) == multiset(b) - multiset{b[0]};
  }

  // Small facts of real arithmetic. Each is stated as an implication, so that a
  // proof using one adds no separate nonlinear obligation of its own.

  lemma QuotientAtLeast(s: real, n: real, lo: real)
    requires 0.0 < n && n * lo <= s
    ensures lo <= s / n
  {
  }

  lemma QuotientAtMost(s: real, n: real, hi: real)
    requires 0.0 < n && s <= n * hi
    ensures s / n <= hi
  {
  }

  lemma QuotientTimes(s: real, n: real)
    ensures 0.0 < n ==> n * (s / n) == s
  {
  }

  lemma SquarePositive(d: real)
    ensures 0.0 <= d * d
  {
  }

  lemma MultiplyStrict(a: real, b: real)
    ensures 0.0 <= a < b ==> a * a < b * b
  {
    if 0.0 <= a < b {
      var d := b - a;
      assert b * b == a * a + d * (a + b);
      assert 0.0 < d * (a + b);
    }
  }

  lemma SquareRootUnique(a: real, b: real)
    ensures 0.0 <= a && 0.0 <= b && a * a == b * b ==> a == b
  {
    MultiplyStrict(a, b);
    MultiplyStrict(b, a);
  }
}

/** Sums, means, extrema and spans of finite series of exact numbers. */
module Statistics {

  function Sum(s: seq<real>): real {
    if s == [] then 0.0 else Sum(s[..|s| - 1]) + s[|s| - 1]
  }

  function Mean(s: seq<real>): real
    requires s != []
  {
    Sum(s) / |s| as real
  }

  lemma FrontAndLast(s: seq<real>)
    requires s != []
    ensures forall x :: x in s <==> x in s[..|s| - 1] || x == s[|s| - 1]
  {
    assert s == s[..|s| - 1] + [s[|s| - 1]];
  }

  function Max(s: seq<real>): (m: real)
    requires s != []
    ensures m in s && forall x :: x in s ==> x <= m
  {
    if |s| == 1 then s[0]
    else
      var m := Max(s[..|s| - 1]);
      FrontAndLast(s);
      if s[|s| - 1] > m then s[|s| - 1] else m
  }

  function Min(s: seq<real>): (m: real)
    requires s != []
    ensures m in s && forall x :: x in s ==> m <= x
  {
    if |s| == 1 then s[0]
    else
      var m := Min(s[..|s| - 1]);
      FrontAndLast(s);
      if s[|s| - 1] < m then s[|s| - 1] else m
  }

  function Span(s: seq<real>): (d: real)
    requires s != []
    ensures d >= 0.0
  {
    Max(s) - Min(s)
  }

  lemma AtMostMax(s: seq<real>, i: nat)
    requires i < |s|
    ensures s[i] <= Max(s)
  {
    assert s[i] in s;
  }

  /** Every element lies between the bounds. */
  predicate Within(s: seq<real>, low: real, high: real) {
    forall i :: 0 <= i < |s| ==> low <= s[i] <= high
  }

  lemma DistanceIsAtMostSpan(s: seq<real>, x: real, y: real)
    requires x in s && y in s
    ensures x - y <= Span(s)
  {
  }

  lemma SpanOfSubset(small: seq<real>, large: seq<real>)
    requires small != [] && forall x :: x in small ==> x in large
    ensures large != [] && Span(small) <= Span(large)
  {
    assert Max(small) in large && Min(small) in large;
    DistanceIsAtMostSpan(large, Max(small), Min(small));
  }

  lemma SpanWithin(s: seq<real>, low: real, high: real)
    requires s != [] && Within(s, low, high)
    ensures 0.0 <= Span(s) <= high - low
  {
  }

  /** The mean, times the number of elements, is the sum. */
  lemma MeanTimesCount(s: seq<real>)
    requires s != []
    ensures Mean(s) * (|s| as real) == Sum(s)
  {
  }

  lemma CancelCount(x: real, y: real, n: real)
    requires n > 0.0 && x * n <= y * n
    ensures x <= y
  {
    var d := y - x;
    assert d * n == y * n - x * n;
  }

  lemma OneMoreTimes(x: real, n: real)
    ensures x * (n + 1.0) == x * n + x
  {
  }

  lemma WithinNext(low: real, high: real, n: real, front: real, last: real)
    requires low * n <= front <= high * n && low <= last <= high
    ensures low * (n + 1.0) <= front + last <= high * (n + 1.0)
  {
    OneMoreTimes(low, n);
    OneMoreTimes(high, n);
  }

  lemma {:induction false} SumWithin(s: seq<real>, low: real, high: real)
    requires Within(s, low, high)
    ensures low * (|s| as real) <= Sum(s) <= high * (|s| as real)
  {
    if s != [] {
      var front, last := s[..|s| - 1], s[|s| - 1];
      SumWithin(front, low, high);
      WithinNext(low, high, |front| as real, Sum(front), last);
      assert |s| as real == |front| as real + 1.0;
    }
  }

  lemma MeanWithin(s: seq<real>, low: real, high: real)
    requires s != [] && Within(s, low, high)
    ensures low <= Mean(s) <= high
  {
    SumWithin(s, low, high);
    MeanTimesCount(s);
    CancelCount(low, Mean(s), |s| as real);
    CancelCount(Mean(s), high, |s| as real);
  }

  lemma {:induction false} SumsDiffer(a: seq<real>, b: seq<real>, d: real)
    requires |a| == |b| && forall i :: 0 <= i < |a| ==> a[i] - b[i] <= d
    ensures Sum(a) - Sum(b) <= d * (|a| as real)
  {
    if a != [] {
      SumsDiffer(a[..|a| - 1], b[..|b| - 1], d);
      var n := (|a| - 1) as real;
      assert |a| as real == n + 1.0;
      assert d * (n + 1.0) == d * n + d;
    }
  }

  /** Means differ by no more than the largest difference between corresponding elements. */
  lemma MeansDiffer(a: seq<real>, b: seq<real>, d: real)
    requires |a| == |b| > 0 && forall i :: 0 <= i < |a| ==> a[i] - b[i] <= d
    ensures Mean(a) - Mean(b) <= d
  {
    SumsDiffer(a, b, d);
    MeanTimesCount(a);
    MeanTimesCount(b);
    var n := |a| as real;
    assert (Mean(a) - Mean(b)) * n == Mean(a) * n - Mean(b) * n;
    CancelCount(Mean(a) - Mean(b), d, n);
  }

  // ---------- every element counts, wherever it stands ----------

  lemma SumOfOne(x: real)
    ensures Sum([x]) == x
  {
    assert [x][..0] == [];
  }

  lemma {:induction false} SumAppend(a: seq<real>, b: seq<real>)
    ensures Sum(a + b) == Sum(a) + Sum(b)
  {
    if b == [] {
      assert a + b == a;
    } else {
      assert (a + b)[..|a + b| - 1] == a + b[..|b| - 1];
      SumAppend(a, b[..|b| - 1]);
    }
  }

  /** The sum of the readings `f` of some things. */
  function SumBy<T>(f: T -> real, s: seq<T>): real {
    if s == [] then 0.0 else SumBy(f, s[..|s| - 1]) + f(s[|s| - 1])
  }

  lemma {:induction false} SumByAppend<T>(f: T -> real, a: seq<T>, b: seq<T>)
    ensures SumBy(f, a + b) == SumBy(f, a) + SumBy(f, b)
  {
    if b == [] {
      assert a + b == a;
    } else {
      assert (a + b)[..|a + b| - 1] == a + b[..|b| - 1];
      SumByAppend(f, a, b[..|b| - 1]);
    }
  }

  function Without<T>(s: seq<T>, i: nat): seq<T>
    requires i < |s|
  {
    s[..i] + s[i + 1..]
  }

  lemma Splits<T>(s: seq<T>, i: nat)
    requires i < |s|
    ensures s == s[..i] + ([s[i]] + s[i + 1..])
    ensures multiset(Without(s, i)) == multiset(s) - multiset{s[i]}
  {
    assert s == s[..i] + ([s[i]] + s[i + 1..]);
  }

  lemma SumByWithout<T>(f: T -> real, s: seq<T>, i: nat)
    requires i < |s|
    ensures SumBy(f, s) == SumBy(f, Without(s, i)) + f(s[i])
  {
    Splits(s, i);
    SumByAppend(f, s[..i], [s[i]] + s[i + 1..]);
    SumByAppend(f, [s[i]], s[i + 1..]);
    SumByAppend(f, s[..i], s[i + 1..]);
    assert [s[i]][..0] == [];
  }

  lemma SameElement<T>(a: seq<T>, b: seq<T>) returns (i: nat)
    requires multiset(a) == multiset(b) && a != []
    ensures i < |b| && b[i] == a[|a| - 1]
  {
    assert a[|a| - 1] in multiset(b);
    i :| 0 <= i < |b| && b[i] == a[|a| - 1];
  }

  lemma {:induction false} SumByInAnyOrder<T>(f: T -> real, a: seq<T>, b: seq<T>)
    requires multiset(a) == multiset(b)
    ensures SumBy(f, a) == SumBy(f, b) && |a| == |b|
    decreases |a|
  {
    assert |multiset(a)| == |a| && |multiset(b)| == |b|;
    if a != [] {
      var i := SameElement(a, b);
      Splits(a, |a| - 1);
      Splits(b, i);
      SumByInAnyOrder(f, Without(a, |a| - 1), Without(b, i));
      SumByWithout(f, a, |a| - 1);
      SumByWithout(f, b, i);
    }
  }

  lemma {:induction false} SumIsSumBy<T>(f: T -> real, things: seq<T>, s: seq<real>)
    requires |s| == |things| && forall i :: 0 <= i < |s| ==> s[i] == f(things[i])
    ensures Sum(s) == SumBy(f, things)
  {
    if s != [] {
      SumIsSumBy(f, things[..|s| - 1], s[..|s| - 1]);
    }
  }

  function MeanBy<T>(f: T -> real, s: seq<T>): real
    requires s != []
  {
    SumBy(f, s) / |s| as real
  }

  lemma MeanIsMeanBy<T>(f: T -> real, things: seq<T>, s: seq<real>)
    requires |s| == |things| > 0 && forall i :: 0 <= i < |s| ==> s[i] == f(things[i])
    ensures Mean(s) == MeanBy(f, things)
  {
    SumIsSumBy(f, things, s);
  }

  /** A mean does not depend on the order of what is read. */
  lemma MeanInAnyOrder<T>(f: T -> real, a: seq<T>, s: seq<real>, b: seq<T>, t: seq<real>)
    requires multiset(a) == multiset(b)
    requires |s| == |a| > 0 && forall i :: 0 <= i < |s| ==> s[i] == f(a[i])
    requires |t| == |b| > 0 && forall i :: 0 <= i < |t| ==> t[i] == f(b[i])
    ensures Mean(s) == Mean(t)
  {
    SumByInAnyOrder(f, a, b);
    MeanIsMeanBy(f, a, s);
    MeanIsMeanBy(f, b, t);
  }

  /** One more element moves the mean as its own share. */
  lemma MeanNext(s: seq<real>, x: real)
    requires s != []
    ensures Mean([x]) == x
    ensures Mean(s + [x]) * (|s| + 1) as real == Mean(s) * |s| as real + x
  {
    SumOfOne(x);
    SumAppend(s, [x]);
    MeanTimesCount(s);
    MeanTimesCount(s + [x]);
    MeanTimesCount([x]);
  }

  /** The span is the largest difference between two elements. */
  lemma SpanIsReached(s: seq<real>)
    requires s != []
    ensures exists x, y :: x in s && y in s && x - y == Span(s)
    ensures forall x, y :: x in s && y in s ==> x - y <= Span(s)
  {
    assert Max(s) in s && Min(s) in s && Max(s) - Min(s) == Span(s);
  }
}

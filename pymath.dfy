/** The numeric built-ins the scripts use, on exact reals: `int()`, `min`, `max`, `abs` and `np.clip`. */
module PyMath {
  /** Python's `int(x)` on a float: truncation toward zero. */
  function Trunc(x: real): (n: int)
    ensures x >= 0.0 ==> 0 <= n && n as real <= x < n as real + 1.0
    ensures x < 0.0 ==> n <= 0 && n as real - 1.0 < x <= n as real
  {
    if x >= 0.0 then x.Floor else -((-x).Floor)
  }

  /** Truncation never reverses the order of two values. */
  lemma TruncMonotone(x: real, y: real)
    requires x <= y
    ensures Trunc(x) <= Trunc(y)
  {
  }

  function Min(a: real, b: real): (m: real)
    ensures m <= a && m <= b && (m == a || m == b)
  {
    if a <= b then a else b
  }

  function Max(a: real, b: real): (m: real)
    ensures m >= a && m >= b && (m == a || m == b)
  {
    if a >= b then a else b
  }

  function Abs(x: real): (a: real)
    ensures a >= 0.0 && (a == x || a == -x)
  {
    if x >= 0.0 then x else -x
  }

  /** `np.clip(x, lo, hi)`: `x` moved into `[lo, hi]`. */
  function Clip(x: real, lo: real, hi: real): (c: real)
    requires lo <= hi
    ensures lo <= c <= hi
    ensures lo <= x <= hi ==> c == x
    ensures x < lo ==> c == lo
    ensures x > hi ==> c == hi
  {
    Min(Max(x, lo), hi)
  }

  /** `min()` of a non-empty column. */
  function SeqMin(s: seq<real>): (m: real)
    requires |s| > 0
    ensures m in s && forall i :: 0 <= i < |s| ==> m <= s[i]
  {
    if |s| == 1 then s[0] else Min(s[0], SeqMin(s[1..]))
  }

  /** `max()` of a non-empty column. */
  function SeqMax(s: seq<real>): (m: real)
    requires |s| > 0
    ensures m in s && forall i :: 0 <= i < |s| ==> s[i] <= m
  {
    if |s| == 1 then s[0] else Max(s[0], SeqMax(s[1..]))
  }

  /** Scaling a non-negative value by a smaller factor gives a smaller product. */
  lemma ScaleLe(x: real, a: real, b: real)
    requires x >= 0.0 && a <= b
    ensures x * a <= x * b
  {
    assert x * b - x * a == x * (b - a);
  }

  lemma MulNonNegative(x: real, y: real)
    requires x >= 0.0 && y >= 0.0
    ensures x * y >= 0.0
  {
  }

  lemma MulPositive(x: real, y: real)
    requires x > 0.0 && y > 0.0
    ensures x * y > 0.0
  {
  }

  /** Dividing by the same positive number keeps the order. */
  lemma DivMonotone(a: real, b: real, d: real)
    requires d > 0.0 && a <= b
    ensures a / d <= b / d
  {
    var qa, qb := a / d, b / d;
    assert qa * d == a && qb * d == b;
    assert (qb - qa) * d == b - a;
    if qb < qa {
      MulPositive(qa - qb, d);
    }
  }

  /** A non-negative value scaled down and scaled up, then truncated, keeps its order: `int(x*a) <= int(x) <= int(x*b)`. */
  lemma ScaledTruncOrder(x: real, a: real, b: real)
    requires x >= 0.0 && 0.0 <= a <= 1.0 <= b
    ensures 0 <= Trunc(x * a) <= Trunc(x) <= Trunc(x * b)
  {
    var lo, hi := x * a, x * b;
    MulNonNegative(x, a);
    assert x - lo == x * (1.0 - a);
    MulNonNegative(x, 1.0 - a);
    assert hi - x == x * (b - 1.0);
    MulNonNegative(x, b - 1.0);
    TruncMonotone(0.0, lo);
    TruncMonotone(lo, x);
    TruncMonotone(x, hi);
  }

  /** A part of a positive whole, divided by the whole, is a fraction in `[0, 1]`. */
  lemma FractionBounds(a: real, d: real)
    requires d > 0.0 && 0.0 <= a <= d
    ensures 0.0 <= a / d <= 1.0
  {
    var q := a / d;
    assert q * d == a;
  }

  /** `sum()` of a column. */
  function Sum(s: seq<real>): real {
    if s == [] then 0.0 else s[0] + Sum(s[1..])
  }

  /** `mean()` of a non-empty column. */
  function Mean(s: seq<real>): real
    requires |s| > 0
  {
    Sum(s) / |s| as real
  }

  /** A column whose values lie in `[lo, hi]` sums to between `n·lo` and `n·hi`. */
  lemma {:induction false} SumBounds(s: seq<real>, lo: real, hi: real)
    requires forall i :: 0 <= i < |s| ==> lo <= s[i] <= hi
    ensures |s| as real * lo <= Sum(s) <= |s| as real * hi
  {
    if s != [] {
      var rest := s[1..];
      assert forall i :: 0 <= i < |rest| ==> rest[i] == s[i + 1];
      SumBounds(rest, lo, hi);
      var n, t := |rest| as real, Sum(rest);
      assert Sum(s) == s[0] + t && |s| as real == n + 1.0;
      assert lo <= s[0] <= hi;
      AddOneScaled(n, lo);
      AddOneScaled(n, hi);
    }
  }

  lemma AddOneScaled(n: real, x: real)
    ensures (n + 1.0) * x == n * x + x
  {
  }

  /** `n·m <= t` gives `m <= t / n` and `t <= n·m` gives `t / n <= m`, for positive `n`. */
  lemma DivBounds(t: real, n: real, m: real)
    requires n > 0.0
    ensures n * m <= t ==> m <= t / n
    ensures t <= n * m ==> t / n <= m
  {
    var q := t / n;
    assert q * n == t;
    if q < m {
      MulPositive(n, m - q);
      assert n * (m - q) == n * m - t;
    }
    if m < q {
      MulPositive(n, q - m);
      assert n * (q - m) == t - n * m;
    }
  }

  /** A column whose values lie in `[lo, hi]` has its mean in `[lo, hi]`. */
  lemma MeanBetween(s: seq<real>, lo: real, hi: real)
    requires |s| > 0
    requires forall i :: 0 <= i < |s| ==> lo <= s[i] <= hi
    ensures lo <= Mean(s) <= hi
  {
    var n, t := |s| as real, Sum(s);
    SumBounds(s, lo, hi);
    DivBounds(t, n, lo);
    DivBounds(t, n, hi);
  }

  /** The mean of a non-empty column lies between its minimum and its maximum. */
  lemma MeanBounds(s: seq<real>)
    requires |s| > 0
    ensures SeqMin(s) <= Mean(s) <= SeqMax(s)
  {
    MeanBetween(s, SeqMin(s), SeqMax(s));
  }

  /** Dividing by a positive number keeps a strict order in both directions. */
  lemma DivStrict(a: real, b: real, d: real)
    requires d > 0.0
    ensures a / d < b / d <==> a < b
  {
    if a < b {
      DivMonotone(a, b, d);
      assert (a / d) * d == a && (b / d) * d == b;
    } else {
      DivMonotone(b, a, d);
    }
  }
}

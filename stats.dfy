/** The two statistics the geometric detectors fit to a price window: the
    least-squares slope of a degree-one fit against the positions 0..n-1
    (the first coefficient of numpy's `polyfit(range(n), ys, 1)`), written in
    closed form, and the population variance (numpy's `std` squared). */
module Stats {
  import opened Bars

  /** Sum of the positions 0 + 1 + ... + (n-1). */
  function IndexSum(n: nat): real {
    if n == 0 then 0.0 else IndexSum(n - 1) + (n - 1) as real
  }

  /** Sum of the squared positions 0 + 1 + ... + (n-1)^2. */
  function IndexSquareSum(n: nat): real {
    if n == 0 then 0.0 else IndexSquareSum(n - 1) + ((n - 1) as real) * ((n - 1) as real)
  }

  /** Sum of i * ys[i]. */
  function WeightedSum(ys: seq<real>): real {
    if |ys| == 0 then 0.0
    else WeightedSum(ys[..|ys| - 1]) + ((|ys| - 1) as real) * ys[|ys| - 1]
  }

  /** Determinant of the normal equations, n * sum(i^2) - (sum i)^2. */
  function Spread(n: nat): real {
    (n as real) * IndexSquareSum(n) - IndexSum(n) * IndexSum(n)
  }

  /** Least-squares slope of `ys` against the positions 0..n-1. */
  function Slope(ys: seq<real>): real {
    FittedSlope(|ys| as real, IndexSum(|ys|), IndexSquareSum(|ys|), Sum(ys), WeightedSum(ys))
  }

  /** Solution of the normal equations for the slope, from the sums
      n, sum(i), sum(i^2), sum(y), sum(i*y). With fewer than two points the
      equations are singular; 0 is returned then, and no detector fits fewer
      than two points. */
  function FittedSlope(n: real, si: real, sii: real, sy: real, siy: real): real {
    var d := n * sii - si * si;
    if d == 0.0 then 0.0 else (n * siy - si * sy) / d
  }

  /** Sum of squared deviations from `m`. */
  function SquaredDeviation(ys: seq<real>, m: real): real {
    if |ys| == 0 then 0.0
    else SquaredDeviation(ys[..|ys| - 1], m) + (ys[|ys| - 1] - m) * (ys[|ys| - 1] - m)
  }

  /** Population variance (degrees of freedom 0, as numpy's `std`). */
  function Variance(ys: seq<real>): real
    requires |ys| > 0
  {
    SquaredDeviation(ys, Mean(ys)) / (|ys| as real)
  }

  /** `|t| < c * std(ys)`, compared on squares so that no square root is needed. */
  predicate BelowStdFraction(t: real, ys: seq<real>, c: real)
    requires |ys| > 0
  {
    t * t < c * c * Variance(ys)
  }

  /** `|t| > c * std(ys)`, compared on squares. */
  predicate AboveStdFraction(t: real, ys: seq<real>, c: real)
    requires |ys| > 0
  {
    t * t > c * c * Variance(ys)
  }

  // ---------------------------------------------------------------------
  // Closed forms of the position sums

  lemma {:induction false} IndexSumClosed(n: nat)
    ensures 2.0 * IndexSum(n) == (n as real) * ((n as real) - 1.0)
  {
    if n > 0 {
      IndexSumClosed(n - 1);
    }
  }

  lemma {:induction false} IndexSquareSumClosed(n: nat)
    ensures 6.0 * IndexSquareSum(n) == (n as real) * ((n as real) - 1.0) * (2.0 * (n as real) - 1.0)
  {
    if n > 0 {
      var x, m := n as real, (n - 1) as real;
      IndexSquareSumClosed(n - 1);
      SquareSumStep(IndexSquareSum(n - 1), m, x);
    }
  }

  lemma SquareSumStep(q0: real, m: real, x: real)
    requires 6.0 * q0 == m * (m - 1.0) * (2.0 * m - 1.0) && x == m + 1.0
    ensures 6.0 * (q0 + m * m) == x * (x - 1.0) * (2.0 * x - 1.0)
  {
  }

  /** The determinant is n^2 (n^2 - 1) / 12, positive from two points on. */
  lemma SpreadPositive(n: nat)
    requires n >= 2
    ensures Spread(n) > 0.0
  {
    var x, s1, s2 := n as real, IndexSum(n), IndexSquareSum(n);
    assert 2.0 * s1 == x * (x - 1.0) by {
      IndexSumClosed(n);
    }
    assert 6.0 * s2 == x * (x - 1.0) * (2.0 * x - 1.0) by {
      IndexSquareSumClosed(n);
    }
    SpreadValue(x, s1, s2);
  }

  lemma SpreadValue(x: real, s1: real, s2: real)
    requires x >= 2.0
    requires 2.0 * s1 == x * (x - 1.0)
    requires 6.0 * s2 == x * (x - 1.0) * (2.0 * x - 1.0)
    ensures x * s2 - s1 * s1 > 0.0
  {
    var p, q := x * x, (x - 1.0) * (x + 1.0);
    assert 12.0 * (x * s2 - s1 * s1) == 2.0 * x * (6.0 * s2) - 3.0 * (2.0 * s1) * (2.0 * s1);
    assert 12.0 * (x * s2 - s1 * s1) == p * q;
    assert p > 0.0 && q > 0.0;
  }

  // ---------------------------------------------------------------------
  // The slope recovers the line through points that lie on one

  /** Sum of the points `a + b * i`, i < n. */
  lemma {:induction false} LineSum(ys: seq<real>, a: real, b: real)
    requires forall i :: 0 <= i < |ys| ==> ys[i] == a + b * (i as real)
    ensures Sum(ys) == (|ys| as real) * a + b * IndexSum(|ys|)
  {
    if |ys| > 0 {
      var n := |ys|;
      var init, m, y := ys[..n - 1], (n - 1) as real, ys[n - 1];
      var s0, i1 := Sum(init), IndexSum(n - 1);
      assert s0 == m * a + b * i1 by {
        LineSum(init, a, b);
      }
      LineSumStep(Sum(ys), s0, IndexSum(n), i1, n as real, m, y, a, b);
    }
  }

  lemma LineSumStep(s: real, s0: real, j1: real, i1: real, x: real, m: real, y: real, a: real, b: real)
    requires s0 == m * a + b * i1 && y == a + b * m && x == m + 1.0
    requires s == s0 + y && j1 == i1 + m
    ensures s == x * a + b * j1
  {
  }

  /** Weighted sum of the points `a + b * i`, i < n. */
  lemma {:induction false} LineWeightedSum(ys: seq<real>, a: real, b: real)
    requires forall i :: 0 <= i < |ys| ==> ys[i] == a + b * (i as real)
    ensures WeightedSum(ys) == a * IndexSum(|ys|) + b * IndexSquareSum(|ys|)
  {
    if |ys| > 0 {
      var n := |ys|;
      var init, m, y := ys[..n - 1], (n - 1) as real, ys[n - 1];
      var w0, i1, i2 := WeightedSum(init), IndexSum(n - 1), IndexSquareSum(n - 1);
      assert w0 == a * i1 + b * i2 by {
        LineWeightedSum(init, a, b);
      }
      LineWeightedSumStep(WeightedSum(ys), w0, IndexSum(n), IndexSquareSum(n), i1, i2, m, y, a, b);
    }
  }

  lemma LineWeightedSumStep(w: real, w0: real, j1: real, j2: real, i1: real, i2: real,
                            m: real, y: real, a: real, b: real)
    requires w0 == a * i1 + b * i2 && y == a + b * m
    requires w == w0 + m * y && j1 == i1 + m && j2 == i2 + m * m
    ensures w == a * j1 + b * j2
  {
  }

  /** Least squares is exact on collinear points: the fitted slope of
      `a + b * i` is `b`. */
  lemma SlopeOfLine(ys: seq<real>, a: real, b: real)
    requires |ys| >= 2
    requires forall i :: 0 <= i < |ys| ==> ys[i] == a + b * (i as real)
    ensures Slope(ys) == b
  {
    var n, si, sii := |ys| as real, IndexSum(|ys|), IndexSquareSum(|ys|);
    var sy, siy := Sum(ys), WeightedSum(ys);
    assert 2.0 * si == n * (n - 1.0) by {
      IndexSumClosed(|ys|);
    }
    assert 6.0 * sii == n * (n - 1.0) * (2.0 * n - 1.0) by {
      IndexSquareSumClosed(|ys|);
    }
    assert sy == n * a + b * si by {
      LineSum(ys, a, b);
    }
    assert siy == a * si + b * sii by {
      LineWeightedSum(ys, a, b);
    }
    SlopeOfSums(n, si, sii, sy, siy, a, b);
  }

  lemma SlopeOfSums(n: real, si: real, sii: real, sy: real, siy: real, a: real, b: real)
    requires n >= 2.0
    requires 2.0 * si == n * (n - 1.0)
    requires 6.0 * sii == n * (n - 1.0) * (2.0 * n - 1.0)
    requires sy == n * a + b * si && siy == a * si + b * sii
    ensures FittedSlope(n, si, sii, sy, siy) == b
  {
    SpreadValue(n, si, sii);
    FittedSlopeOfLine(n, si, sii, sy, siy, a, b);
  }

  lemma FittedSlopeOfLine(n: real, si: real, sii: real, sy: real, siy: real, a: real, b: real)
    requires n * sii - si * si > 0.0
    requires sy == n * a + b * si && siy == a * si + b * sii
    ensures FittedSlope(n, si, sii, sy, siy) == b
  {
    var d := n * sii - si * si;
    var num := n * siy - si * sy;
    assert num == b * d;
  }

  /** A constant window has slope 0. */
  lemma SlopeOfConstant(ys: seq<real>, c: real)
    requires forall i :: 0 <= i < |ys| ==> ys[i] == c
    ensures Slope(ys) == 0.0
  {
    if |ys| >= 2 {
      forall i | 0 <= i < |ys| ensures ys[i] == c + 0.0 * (i as real) { }
      SlopeOfLine(ys, c, 0.0);
    } else {
      assert IndexSum(|ys|) == 0.0;
      assert IndexSquareSum(|ys|) == 0.0;
    }
  }

  // ---------------------------------------------------------------------
  // Variance

  lemma {:induction false} SquaredDeviationNonNegative(ys: seq<real>, m: real)
    ensures SquaredDeviation(ys, m) >= 0.0
  {
    if |ys| > 0 {
      SquaredDeviationNonNegative(ys[..|ys| - 1], m);
      SquareNonNegative(ys[|ys| - 1] - m);
    }
  }

  lemma VarianceNonNegative(ys: seq<real>)
    requires |ys| > 0
    ensures Variance(ys) >= 0.0
  {
    SquaredDeviationNonNegative(ys, Mean(ys));
  }

  lemma {:induction false} SumOfConstant(ys: seq<real>, c: real)
    requires forall i :: 0 <= i < |ys| ==> ys[i] == c
    ensures Sum(ys) == (|ys| as real) * c
  {
    if |ys| > 0 {
      SumOfConstant(ys[..|ys| - 1], c);
    }
  }

  lemma {:induction false} SquaredDeviationOfConstant(ys: seq<real>, c: real)
    requires forall i :: 0 <= i < |ys| ==> ys[i] == c
    ensures SquaredDeviation(ys, c) == 0.0
  {
    if |ys| > 0 {
      SquaredDeviationOfConstant(ys[..|ys| - 1], c);
    }
  }

  /** A constant window has variance 0. */
  lemma VarianceOfConstant(ys: seq<real>, c: real)
    requires |ys| > 0
    requires forall i :: 0 <= i < |ys| ==> ys[i] == c
    ensures Variance(ys) == 0.0
  {
    SumOfConstant(ys, c);
    assert Mean(ys) == c;
    SquaredDeviationOfConstant(ys, c);
  }

  /** Comparing squares is the same as comparing `|t|` with `c * sd` for any
      non-negative standard deviation `sd` whose square is the variance. */
  lemma SquaredComparison(t: real, sd: real, c: real)
    requires sd >= 0.0 && c >= 0.0
    ensures t * t < c * c * (sd * sd) <==> Abs(t) < c * sd
    ensures t * t > c * c * (sd * sd) <==> Abs(t) > c * sd
  {
    var u, v := Abs(t), c * sd;
    assert t * t == u * u;
    assert c * c * (sd * sd) == v * v;
    assert u >= 0.0 && v >= 0.0;
    SquareMonotone(u, v);
    SquareMonotone(v, u);
  }

  lemma SquareNonNegative(x: real)
    ensures x * x >= 0.0
  {
    if x < 0.0 {
      assert x * x == (-x) * (-x);
    }
  }

  lemma SquareMonotone(u: real, v: real)
    requires u >= 0.0 && v >= 0.0
    ensures u < v <==> u * u < v * v
  {
    var p, q, r := u * u, u * v, v * v;
    if u < v {
      assert p <= q;
      assert q < r;
      assert p < r;
    } else {
      assert r <= q;
      assert q <= p;
      assert !(p < r);
    }
  }
}

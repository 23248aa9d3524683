/** The pattern record shared by the head-and-shoulders and chart-pattern
    detectors, the swing-point input that stands for the peak finder, and
    the small numeric helpers both use. */
module Patterns {
  import opened Bars

  datatype Direction = Bullish | Bearish | Neutral

  datatype Kind =
    | HeadAndShoulders
    | InverseHeadAndShoulders
    | DoubleTop
    | DoubleBottom
    | SymmetricTriangle
    | DescendingTriangle
    | AscendingTriangle
    | Flag
    | Pennant
    | RisingWedge
    | FallingWedge
    | Rectangle

  /** The kind-specific fields of the result dictionary. */
  datatype Details =
    | HeadShoulders(neckline: real, headPrice: real, targetPrice: real)
    | Double(firstPrice: real, secondPrice: real, neckline: real, targetPrice: real)
    | Triangle(apexPrice: real, baseWidth: nat)
    | Pole(poleStart: real, poleEnd: real, breakout: real)
    | Wedge(apexPrice: real)
    | Box(resistance: real, support: real, currentPrice: real)

  datatype Pattern = Pattern(kind: Kind, direction: Direction, completion: real,
                             volumeConfirmation: bool, details: Details)

  /** Swing points as the peak finder reports them: strictly increasing
      indices into a series of length `n`. */
  predicate Swings(p: seq<nat>, n: nat) {
    (forall i :: 0 <= i < |p| ==> p[i] < n) &&
    (forall i, j :: 0 <= i < j < |p| ==> p[i] < p[j])
  }

  /** `max(0, min(1, x))`. */
  function Clamp01(x: real): (r: real)
    ensures 0.0 <= r <= 1.0
    ensures 0.0 <= x <= 1.0 ==> r == x
    ensures x <= 0.0 ==> r == 0.0
    ensures x >= 1.0 ==> r == 1.0
  {
    Max(0.0, Min(1.0, x))
  }

  /** `|a - b| / max(a, b) < tol` under floating-point division: a zero
      denominator gives infinity or NaN and the test fails. */
  predicate RelativelyClose(a: real, b: real, tol: real) {
    Max(a, b) != 0.0 && Abs(a - b) / Max(a, b) < tol
  }

  /** For positive prices the relative test is the multiplied-out one. */
  lemma RelativelyCloseScaled(a: real, b: real, tol: real)
    requires a > 0.0 && b > 0.0
    ensures RelativelyClose(a, b, tol) <==> Abs(a - b) < tol * Max(a, b)
  {
    var m := Max(a, b);
    var q := Abs(a - b) / m;
    assert q * m == Abs(a - b);
    if q < tol {
      assert q * m < tol * m;
    }
    if Abs(a - b) < tol * m {
      assert q * m < tol * m;
    }
  }
}

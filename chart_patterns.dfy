/** Chart patterns: double top and bottom over swing points; triangle,
    flag, pennant, wedge and rectangle classified from least-squares slopes
    and standard deviations over the most recent bars; and the collector
    that runs all seven in a fixed order. */
module ChartPatterns {
  import opened Bars
  import opened Stats
  import opened Patterns

  datatype Config = Config(minPatternLength: nat, priceTolerance: real)

  const DefaultConfig := Config(20, 0.01)

  /** Every fitted window has at least two points. */
  predicate ValidConfig(cfg: Config) {
    cfg.minPatternLength >= 4
  }

  // ---------------------------------------------------------------------
  // Shared helpers

  /** How far the last bar has moved from the pattern's extreme to the
      neckline: 1 once the last high is at or below the neckline (the last
      low at or above it, for a support neckline), else `1 - progress`
      clamped to [0, 1]. A neckline equal to the extreme divides by zero;
      the floating-point result of that is 1, modelled explicitly. */
  function Completion(s: seq<Bar>, peak: real, neckline: real, resistance: bool): (r: real)
    requires |s| > 0
    ensures 0.0 <= r <= 1.0
    ensures resistance && s[|s| - 1].high <= neckline ==> r == 1.0
    ensures !resistance && s[|s| - 1].low >= neckline ==> r == 1.0
  {
    var current := s[|s| - 1];
    if resistance then
      if current.high <= neckline then 1.0
      else if peak == neckline then 1.0
      else Clamp01(1.0 - (peak - current.high) / (peak - neckline))
    else
      if current.low >= neckline then 1.0
      else if neckline == peak then 1.0
      else Clamp01(1.0 - (current.low - peak) / (neckline - peak))
  }

  /** Mean volume of the last five bars above 0.9 times the mean of the
      five before; false below ten bars. */
  function VolumeTrend(w: seq<Bar>): bool {
    if |w| < 10 then false
    else
      var n := |w|;
      VolumeBetween(w, n - 5, n) / 5.0 > VolumeBetween(w, n - 10, n - 5) / 5.0 * 0.9
  }

  /** Total volume of the bars at positions `lo` up to, not including, `hi`. */
  function VolumeBetween(w: seq<Bar>, lo: nat, hi: nat): real
    requires lo <= hi <= |w|
    decreases hi - lo
  {
    if lo == hi then 0.0 else VolumeBetween(w, lo, hi - 1) + w[hi - 1].volume
  }

  /** The running total is the sum of the bars' volumes over the range. */
  lemma {:induction false} VolumeBetweenIsSum(w: seq<Bar>, lo: nat, hi: nat)
    requires lo <= hi <= |w|
    ensures VolumeBetween(w, lo, hi) == Sum(Volumes(w)[lo..hi])
    decreases hi - lo
  {
    if lo < hi {
      VolumeBetweenIsSum(w, lo, hi - 1);
      assert Volumes(w)[lo..hi][..hi - 1 - lo] == Volumes(w)[lo..hi - 1];
    }
  }

  /** The volume trend compares the total volume of the last five bars with
      0.9 times that of the five before them; it never holds below ten bars. */
  lemma VolumeTrendRule(w: seq<Bar>)
    ensures |w| < 10 ==> !VolumeTrend(w)
    ensures |w| >= 10 ==> (VolumeTrend(w) <==>
      Sum(Volumes(w)[|w| - 5..]) > 0.9 * Sum(Volumes(w)[|w| - 10..|w| - 5]))
  {
    if |w| >= 10 {
      VolumeBetweenIsSum(w, |w| - 5, |w|);
      VolumeBetweenIsSum(w, |w| - 10, |w| - 5);
      assert Volumes(w)[|w| - 5..|w|] == Volumes(w)[|w| - 5..];
    }
  }

  /** `num / den > c` under floating-point division, multiplied out: with a
      zero denominator a positive numerator gives infinity (which exceeds
      every bound) and a zero one NaN (which exceeds none). */
  predicate RatioExceeds(num: real, den: real, c: real) {
    if den == 0.0 then num > 0.0
    else if den > 0.0 then num > c * den
    else num < c * den
  }

  /** With a non-zero denominator the multiplied-out test is the quotient. */
  lemma RatioExceedsIsQuotient(num: real, den: real, c: real)
    requires den != 0.0
    ensures RatioExceeds(num, den, c) <==> num / den > c
  {
    var q := num / den;
    assert q * den == num;
    if den > 0.0 {
      if q > c { assert q * den > c * den; }
      if num > c * den { assert q * den > c * den; }
    } else {
      if q > c { assert q * den < c * den; }
      if num < c * den { assert q * den < c * den; }
    }
  }

  // ---------------------------------------------------------------------
  // Double top and double bottom

  predicate IsClosePair(xs: seq<real>, p: seq<nat>, i: nat, tol: real)
    requires i + 1 < |p| && Swings(p, |xs|)
  {
    RelativelyClose(xs[p[i]], xs[p[i + 1]], tol)
  }

  /** The first consecutive pair position, from `k` on, whose two values
      are within the price tolerance. */
  function FirstPair(xs: seq<real>, p: seq<nat>, k: nat, tol: real): (r: Option<nat>)
    requires Swings(p, |xs|)
    ensures r.Some? ==> k <= r.value && r.value + 1 < |p| && IsClosePair(xs, p, r.value, tol)
    ensures r.Some? ==> forall j :: k <= j < r.value ==> !IsClosePair(xs, p, j, tol)
    ensures r.None? ==> forall j :: k <= j && j + 1 < |p| ==> !IsClosePair(xs, p, j, tol)
    decreases |p| - k
  {
    if k + 1 >= |p| then None
    else if IsClosePair(xs, p, k, tol) then Some(k)
    else FirstPair(xs, p, k + 1, tol)
  }

  /** The double-top record for peaks `a < b`: the neckline is the lowest
      low from the first peak up to (not including) the second. */
  function DoubleTopAt(s: seq<Bar>, a: nat, b: nat): Pattern
    requires a < b < |s|
  {
    var first, second := s[a].high, s[b].high;
    var neckline := SeqMin(Lows(s)[a..b]);
    Pattern(DoubleTop, Bearish, Completion(s, first, neckline, true), WindowVolumeConfirms(s, a, b),
            Double(first, second, neckline, neckline - (first - neckline)))
  }

  /** The double-bottom record for troughs `a < b`: the neckline is the
      highest high from the first trough up to the second. */
  function DoubleBottomAt(s: seq<Bar>, a: nat, b: nat): Pattern
    requires a < b < |s|
  {
    var first, second := s[a].low, s[b].low;
    var neckline := SeqMax(Highs(s)[a..b]);
    Pattern(DoubleBottom, Bullish, Completion(s, first, neckline, false), WindowVolumeConfirms(s, a, b),
            Double(first, second, neckline, neckline + (neckline - first)))
  }

  function DoubleTopOf(s: seq<Bar>, peaks: seq<nat>, cfg: Config): (r: Option<Pattern>)
    requires Swings(peaks, |s|)
    ensures |s| < cfg.minPatternLength || |peaks| < 2 ==> r.None?
    ensures r.Some? ==> r.value.kind == DoubleTop && r.value.direction == Bearish
  {
    if |s| < cfg.minPatternLength || |peaks| < 2 then None
    else
      match FirstPair(Highs(s), peaks, 0, cfg.priceTolerance)
      case None => None
      case Some(i) => Some(DoubleTopAt(s, peaks[i], peaks[i + 1]))
  }

  function DoubleBottomOf(s: seq<Bar>, troughs: seq<nat>, cfg: Config): (r: Option<Pattern>)
    requires Swings(troughs, |s|)
    ensures |s| < cfg.minPatternLength || |troughs| < 2 ==> r.None?
    ensures r.Some? ==> r.value.kind == DoubleBottom && r.value.direction == Bullish
  {
    if |s| < cfg.minPatternLength || |troughs| < 2 then None
    else
      match FirstPair(Lows(s), troughs, 0, cfg.priceTolerance)
      case None => None
      case Some(i) => Some(DoubleBottomAt(s, troughs[i], troughs[i + 1]))
  }

  /** The detector's scan over peak pairs, returning at the first hit. */
  method DetectDoubleTop(s: seq<Bar>, peaks: seq<nat>, cfg: Config) returns (r: Option<Pattern>)
    requires Swings(peaks, |s|)
    ensures r == DoubleTopOf(s, peaks, cfg)
  {
    if |s| < cfg.minPatternLength || |peaks| < 2 {
      return None;
    }
    var highs := Highs(s);
    var i := 0;
    while i < |peaks| - 1
      invariant 0 <= i <= |peaks| - 1
      invariant FirstPair(highs, peaks, 0, cfg.priceTolerance) == FirstPair(highs, peaks, i, cfg.priceTolerance)
    {
      var a, b := peaks[i], peaks[i + 1];
      if RelativelyClose(highs[a], highs[b], cfg.priceTolerance) {
        assert IsClosePair(highs, peaks, i, cfg.priceTolerance);
        var neckline := SeqMin(Lows(s)[a..b]);
        var target := neckline - (highs[a] - neckline);
        var completion := Completion(s, highs[a], neckline, true);
        var volume := WindowVolumeConfirms(s, a, b);
        return Some(Pattern(DoubleTop, Bearish, completion, volume, Double(highs[a], highs[b], neckline, target)));
      }
      i := i + 1;
    }
    return None;
  }

  /** The detector's scan over trough pairs. */
  method DetectDoubleBottom(s: seq<Bar>, troughs: seq<nat>, cfg: Config) returns (r: Option<Pattern>)
    requires Swings(troughs, |s|)
    ensures r == DoubleBottomOf(s, troughs, cfg)
  {
    if |s| < cfg.minPatternLength || |troughs| < 2 {
      return None;
    }
    var lows := Lows(s);
    var i := 0;
    while i < |troughs| - 1
      invariant 0 <= i <= |troughs| - 1
      invariant FirstPair(lows, troughs, 0, cfg.priceTolerance) == FirstPair(lows, troughs, i, cfg.priceTolerance)
    {
      var a, b := troughs[i], troughs[i + 1];
      if RelativelyClose(lows[a], lows[b], cfg.priceTolerance) {
        assert IsClosePair(lows, troughs, i, cfg.priceTolerance);
        var neckline := SeqMax(Highs(s)[a..b]);
        var target := neckline + (neckline - lows[a]);
        var completion := Completion(s, lows[a], neckline, false);
        var volume := WindowVolumeConfirms(s, a, b);
        return Some(Pattern(DoubleBottom, Bullish, completion, volume, Double(lows[a], lows[b], neckline, target)));
      }
      i := i + 1;
    }
    return None;
  }

  /** On a valid series the double-top neckline is a low between the peaks,
      no higher than the first peak, and the target lies at or below it. */
  lemma DoubleTopGeometry(s: seq<Bar>, a: nat, b: nat)
    requires a < b < |s| && ValidSeries(s)
    ensures var d := DoubleTopAt(s, a, b).details;
      d.neckline <= d.firstPrice && d.targetPrice == 2.0 * d.neckline - d.firstPrice &&
      d.targetPrice <= d.neckline &&
      (exists j :: a <= j < b && d.neckline == s[j].low) &&
      (forall j :: a <= j < b ==> d.neckline <= s[j].low)
  {
    var w := Lows(s)[a..b];
    assert w[0] == s[a].low;
    assert forall j :: a <= j < b ==> w[j - a] == s[j].low;
    var m := SeqMin(w);
    SeqMinIsLeast(w);
    var k :| 0 <= k < |w| && w[k] == m;
    assert s[a + k].low == m;
  }

  /** On a valid series the double-bottom neckline is a high between the
      troughs, no lower than the first trough, and the target lies at or
      above it. */
  lemma DoubleBottomGeometry(s: seq<Bar>, a: nat, b: nat)
    requires a < b < |s| && ValidSeries(s)
    ensures var d := DoubleBottomAt(s, a, b).details;
      d.neckline >= d.firstPrice && d.targetPrice == 2.0 * d.neckline - d.firstPrice &&
      d.targetPrice >= d.neckline &&
      (exists j :: a <= j < b && d.neckline == s[j].high) &&
      (forall j :: a <= j < b ==> d.neckline >= s[j].high)
  {
    var w := Highs(s)[a..b];
    assert w[0] == s[a].high;
    assert forall j :: a <= j < b ==> w[j - a] == s[j].high;
    var m := SeqMax(w);
    SeqMaxIsGreatest(w);
    var k :| 0 <= k < |w| && w[k] == m;
    assert s[a + k].high == m;
  }

  /** Once the series is long enough, a double top is reported exactly when
      some consecutive pair of peaks is close, and it is built from the first
      such pair: its volume flag is that pair's window volume test and its
      target lies at or below the neckline, itself no higher than the first peak. */
  lemma DoubleTopResult(s: seq<Bar>, peaks: seq<nat>, cfg: Config)
    requires |s| >= cfg.minPatternLength && ValidSeries(s) && Swings(peaks, |s|)
    ensures DoubleTopOf(s, peaks, cfg).Some? <==> FirstPair(Highs(s), peaks, 0, cfg.priceTolerance).Some?
    ensures FirstPair(Highs(s), peaks, 0, cfg.priceTolerance).Some? ==>
      var i := FirstPair(Highs(s), peaks, 0, cfg.priceTolerance).value;
      var d := DoubleTopOf(s, peaks, cfg).value;
      peaks[i] < peaks[i + 1] &&
      d == DoubleTopAt(s, peaks[i], peaks[i + 1]) &&
      d.volumeConfirmation == WindowVolumeConfirms(s, peaks[i], peaks[i + 1]) &&
      d.details.targetPrice <= d.details.neckline <= d.details.firstPrice
  {
    var f := FirstPair(Highs(s), peaks, 0, cfg.priceTolerance);
    if f.Some? {
      var i := f.value;
      assert peaks[i] < peaks[i + 1];
      DoubleTopGeometry(s, peaks[i], peaks[i + 1]);
    }
  }

  /** The mirror for a double bottom: reported exactly when some consecutive
      pair of troughs is close, built from the first such pair, with its
      target at or above the neckline, itself no lower than the first trough. */
  lemma DoubleBottomResult(s: seq<Bar>, troughs: seq<nat>, cfg: Config)
    requires |s| >= cfg.minPatternLength && ValidSeries(s) && Swings(troughs, |s|)
    ensures DoubleBottomOf(s, troughs, cfg).Some? <==> FirstPair(Lows(s), troughs, 0, cfg.priceTolerance).Some?
    ensures FirstPair(Lows(s), troughs, 0, cfg.priceTolerance).Some? ==>
      var i := FirstPair(Lows(s), troughs, 0, cfg.priceTolerance).value;
      var d := DoubleBottomOf(s, troughs, cfg).value;
      troughs[i] < troughs[i + 1] &&
      d == DoubleBottomAt(s, troughs[i], troughs[i + 1]) &&
      d.volumeConfirmation == WindowVolumeConfirms(s, troughs[i], troughs[i + 1]) &&
      d.details.targetPrice >= d.details.neckline >= d.details.firstPrice
  {
    var f := FirstPair(Lows(s), troughs, 0, cfg.priceTolerance);
    if f.Some? {
      var i := f.value;
      assert troughs[i] < troughs[i + 1];
      DoubleBottomGeometry(s, troughs[i], troughs[i + 1]);
    }
  }

  // ---------------------------------------------------------------------
  // Slope-based detectors over the most recent bars

  function Window(s: seq<Bar>, cfg: Config): seq<Bar> {
    Tail(s, cfg.minPatternLength)
  }

  /** Triangle: not both sides flat (|slope| < 0.1 std); falling highs with
      rising lows is symmetric, both falling descending, both rising
      ascending. */
  function TriangleOf(s: seq<Bar>, cfg: Config): (r: Option<Pattern>)
    requires ValidConfig(cfg)
    ensures |s| < cfg.minPatternLength ==> r.None?
    ensures r.Some? ==> Rank(r.value.kind) == 2
  {
    if |s| < cfg.minPatternLength then None
    else
      var w := Window(s, cfg);
      var hs, ls := Highs(w), Lows(w);
      var ht, lt := Slope(hs), Slope(ls);
      if BelowStdFraction(ht, hs, 0.1) && BelowStdFraction(lt, ls, 0.1) then None
      else
        var kind :=
          if ht < 0.0 && lt > 0.0 then Some((SymmetricTriangle, Neutral))
          else if ht < 0.0 && lt < 0.0 then Some((DescendingTriangle, Bearish))
          else if ht > 0.0 && lt > 0.0 then Some((AscendingTriangle, Bullish))
          else None;
        match kind
        case None => None
        case Some(kd) =>
          var apex := (hs[|hs| - 1] + ls[|ls| - 1]) / 2.0;
          Some(Pattern(kd.0, kd.1, 0.5, VolumeTrend(w), Triangle(apex, |w|)))
  }

  /** The triangle classification in both directions. */
  lemma TriangleClassified(s: seq<Bar>, cfg: Config)
    requires ValidConfig(cfg) && |s| >= cfg.minPatternLength
    ensures var w := Window(s, cfg);
      var hs, ls := Highs(w), Lows(w);
      var ht, lt, r := Slope(hs), Slope(ls), TriangleOf(s, cfg);
      var flat := BelowStdFraction(ht, hs, 0.1) && BelowStdFraction(lt, ls, 0.1);
      (r.Some? && r.value.kind == SymmetricTriangle <==> !flat && ht < 0.0 && lt > 0.0) &&
      (r.Some? && r.value.kind == DescendingTriangle <==> !flat && ht < 0.0 && lt < 0.0) &&
      (r.Some? && r.value.kind == AscendingTriangle <==> !flat && ht > 0.0 && lt > 0.0) &&
      (r.Some? ==> (r.value.kind == SymmetricTriangle && r.value.direction == Neutral) ||
                   (r.value.kind == DescendingTriangle && r.value.direction == Bearish) ||
                   (r.value.kind == AscendingTriangle && r.value.direction == Bullish)) &&
      (r.Some? ==> r.value.completion == 0.5 && r.value.details == Triangle((hs[|hs| - 1] + ls[|ls| - 1]) / 2.0, cfg.minPatternLength)) &&
      (r.Some? ==> r.value.volumeConfirmation == VolumeTrend(w))
  {
  }

  /** Flag and pennant split the last `2 * (n / 2)` bars into a pole and a
      flag of `n / 2` bars each. */
  function Half(cfg: Config): nat {
    cfg.minPatternLength / 2
  }

  /** The last `2 * (n / 2)` bars, taken from the pattern window. */
  function Channel(s: seq<Bar>, cfg: Config): (r: seq<Bar>)
    requires ValidConfig(cfg) && |s| >= cfg.minPatternLength
    ensures |r| == 2 * Half(cfg)
    ensures r == s[|s| - 2 * Half(cfg)..]
  {
    var w := Window(s, cfg);
    TailIsSuffix(s, cfg.minPatternLength);
    w[|w| - 2 * Half(cfg)..]
  }

  /** The `n / 2` bars before the last `n / 2`. */
  function PoleBars(s: seq<Bar>, cfg: Config): seq<Bar>
    requires ValidConfig(cfg) && |s| >= cfg.minPatternLength
  {
    Channel(s, cfg)[..Half(cfg)]
  }

  /** The last `n / 2` bars. */
  function FlagBars(s: seq<Bar>, cfg: Config): seq<Bar>
    requires ValidConfig(cfg) && |s| >= cfg.minPatternLength
  {
    Channel(s, cfg)[Half(cfg)..]
  }

  /** Flag: a pole whose closes are not flat, followed by a channel sloping
      against it (both slopes of the opposite sign). */
  function FlagOf(s: seq<Bar>, cfg: Config): (r: Option<Pattern>)
    requires ValidConfig(cfg)
    ensures |s| < cfg.minPatternLength ==> r.None?
    ensures r.Some? ==> r.value.kind == Flag
  {
    if |s| < cfg.minPatternLength then None
    else if |s| < 2 * Half(cfg) then None
    else
      var pole, flag := PoleBars(s, cfg), FlagBars(s, cfg);
      var pc := Closes(pole);
      var pt, fh, fl := Slope(pc), Slope(Highs(flag)), Slope(Lows(flag));
      if BelowStdFraction(pt, pc, 0.1) then None
      else
        var dir :=
          if pt > 0.0 && fh < 0.0 && fl < 0.0 then Some(Bullish)
          else if pt < 0.0 && fh > 0.0 && fl > 0.0 then Some(Bearish)
          else None;
        match dir
        case None => None
        case Some(d) =>
          Some(Pattern(Flag, d, 0.7, VolumeTrend(flag),
                       Pole(pole[0].close, pole[|pole| - 1].close, flag[|flag| - 1].close)))
  }

  /** A bullish flag has a rising pole and a falling channel, a bearish one
      the mirror, and both conditions are also sufficient. */
  lemma FlagClassified(s: seq<Bar>, cfg: Config)
    requires ValidConfig(cfg) && |s| >= cfg.minPatternLength
    ensures var pole, flag := PoleBars(s, cfg), FlagBars(s, cfg);
      var pc := Closes(pole);
      var pt, fh, fl, r := Slope(pc), Slope(Highs(flag)), Slope(Lows(flag)), FlagOf(s, cfg);
      (r.Some? && r.value.direction == Bullish <==>
        !BelowStdFraction(pt, pc, 0.1) && pt > 0.0 && fh < 0.0 && fl < 0.0) &&
      (r.Some? && r.value.direction == Bearish <==>
        !BelowStdFraction(pt, pc, 0.1) && pt < 0.0 && fh > 0.0 && fl > 0.0) &&
      (r.Some? ==>
        (r.value.direction != Neutral && r.value.completion == 0.7 &&
         r.value.details == Pole(pole[0].close, pole[|pole| - 1].close, flag[|flag| - 1].close) &&
         r.value.volumeConfirmation == VolumeTrend(flag)))
  {
  }

  /** Pennant: a non-flat pole and a converging channel. Both directions
      demand a falling high slope and a rising low slope; the direction is
      the pole's. A channel with both slopes under 0.1 in absolute value is
      rejected. */
  function PennantOf(s: seq<Bar>, cfg: Config): (r: Option<Pattern>)
    requires ValidConfig(cfg)
    ensures |s| < cfg.minPatternLength ==> r.None?
    ensures r.Some? ==> r.value.kind == Pennant
  {
    if |s| < cfg.minPatternLength then None
    else if |s| < 2 * Half(cfg) then None
    else
      var pole, pen := PoleBars(s, cfg), FlagBars(s, cfg);
      var pc := Closes(pole);
      var pt, ph, pl := Slope(pc), Slope(Highs(pen)), Slope(Lows(pen));
      if BelowStdFraction(pt, pc, 0.1) then None
      else if Abs(ph) < 0.1 && Abs(pl) < 0.1 then None
      else
        var dir :=
          if pt > 0.0 && ph < 0.0 && pl > 0.0 then Some(Bullish)
          else if pt < 0.0 && ph < 0.0 && pl > 0.0 then Some(Bearish)
          else None;
        match dir
        case None => None
        case Some(d) =>
          Some(Pattern(Pennant, d, 0.7, VolumeTrend(pen),
                       Pole(pole[0].close, pole[|pole| - 1].close, pen[|pen| - 1].close)))
  }

  /** Every pennant has a falling high slope and a rising low slope, one of
      them at least 0.1 in size; its direction is the sign of the pole. */
  lemma PennantClassified(s: seq<Bar>, cfg: Config)
    requires ValidConfig(cfg) && |s| >= cfg.minPatternLength
    ensures var pole, pen := PoleBars(s, cfg), FlagBars(s, cfg);
      var pc := Closes(pole);
      var pt, ph, pl, r := Slope(pc), Slope(Highs(pen)), Slope(Lows(pen)), PennantOf(s, cfg);
      (r.Some? ==>
        (r.value.completion == 0.7 &&
         r.value.details == Pole(pole[0].close, pole[|pole| - 1].close, pen[|pen| - 1].close) &&
         r.value.volumeConfirmation == VolumeTrend(pen))) &&
      (r.Some? ==> ph < 0.0 && pl > 0.0 && !(Abs(ph) < 0.1 && Abs(pl) < 0.1) && !BelowStdFraction(pt, pc, 0.1)) &&
      (r.Some? ==> (r.value.direction == Bullish <==> pt > 0.0) && (r.value.direction == Bearish <==> pt < 0.0)) &&
      (!BelowStdFraction(pt, pc, 0.1) && !(Abs(ph) < 0.1 && Abs(pl) < 0.1) && ph < 0.0 && pl > 0.0 && pt != 0.0 ==> r.Some?)
  {
  }

  /** The relative gap between two slopes, `|ht - lt| / max(|ht|, |lt|)`,
      exceeds 0.3; multiplied out by the (non-negative) denominator. */
  predicate Converging(ht: real, lt: real) {
    Abs(ht - lt) > 0.3 * Max(Abs(ht), Abs(lt))
  }

  /** When either slope is non-zero the multiplied-out test is the quotient. */
  lemma ConvergingIsQuotient(ht: real, lt: real)
    requires ht != 0.0 || lt != 0.0
    ensures Converging(ht, lt) <==> Abs(ht - lt) / Max(Abs(ht), Abs(lt)) > 0.3
  {
    var m := Max(Abs(ht), Abs(lt));
    assert m > 0.0;
    RatioExceedsIsQuotient(Abs(ht - lt), m, 0.3);
  }

  /** Wedge: both slopes of one sign with a relative gap above 0.3; rising
      is bearish, falling bullish. */
  function WedgeOf(s: seq<Bar>, cfg: Config): (r: Option<Pattern>)
    requires ValidConfig(cfg)
    ensures |s| < cfg.minPatternLength ==> r.None?
    ensures r.Some? ==> Rank(r.value.kind) == 5
  {
    if |s| < cfg.minPatternLength then None
    else
      var w := Window(s, cfg);
      var hs, ls := Highs(w), Lows(w);
      var ht, lt := Slope(hs), Slope(ls);
      var apex := (hs[|hs| - 1] + ls[|ls| - 1]) / 2.0;
      if ht > 0.0 && lt > 0.0 && Converging(ht, lt) then
        Some(Pattern(RisingWedge, Bearish, 0.6, VolumeTrend(w), Wedge(apex)))
      else if ht < 0.0 && lt < 0.0 && Converging(ht, lt) then
        Some(Pattern(FallingWedge, Bullish, 0.6, VolumeTrend(w), Wedge(apex)))
      else None
  }

  lemma WedgeClassified(s: seq<Bar>, cfg: Config)
    requires ValidConfig(cfg) && |s| >= cfg.minPatternLength
    ensures var w := Window(s, cfg);
      var hs, ls := Highs(w), Lows(w);
      var ht, lt, r := Slope(hs), Slope(ls), WedgeOf(s, cfg);
      (r.Some? ==> r.value.completion == 0.6 && r.value.details == Wedge((hs[|hs| - 1] + ls[|ls| - 1]) / 2.0) &&
                   r.value.volumeConfirmation == VolumeTrend(w)) &&
      (r.Some? && r.value.kind == RisingWedge <==> ht > 0.0 && lt > 0.0 && Converging(ht, lt)) &&
      (r.Some? && r.value.kind == FallingWedge <==> ht < 0.0 && lt < 0.0 && Converging(ht, lt)) &&
      (r.Some? ==> (r.value.kind == RisingWedge && r.value.direction == Bearish) ||
                   (r.value.kind == FallingWedge && r.value.direction == Bullish))
  {
  }

  /** The rectangle tests on a window: the high range and the low range each
      at most 0.3 of the whole range, and neither slope above 0.2 std. */
  predicate IsBox(w: seq<Bar>)
    requires |w| > 0
  {
    var hs, ls := Highs(w), Lows(w);
    var priceRange := SeqMax(hs) - SeqMin(ls);
    !RatioExceeds(SeqMax(hs) - SeqMin(hs), priceRange, 0.3) &&
    !RatioExceeds(SeqMax(ls) - SeqMin(ls), priceRange, 0.3) &&
    !AboveStdFraction(Slope(hs), hs, 0.2) && !AboveStdFraction(Slope(ls), ls, 0.2)
  }

  /** Rectangle: reported exactly when the window passes the tests, with
      the highest high as resistance and the lowest low as support. */
  function RectangleOf(s: seq<Bar>, cfg: Config): (r: Option<Pattern>)
    requires ValidConfig(cfg)
    ensures |s| < cfg.minPatternLength ==> r.None?
    ensures r.Some? ==> r.value.kind == Rectangle
  {
    if |s| < cfg.minPatternLength then None
    else
      var w := Window(s, cfg);
      var hs, ls := Highs(w), Lows(w);
      if !IsBox(w) then None
      else Some(Pattern(Rectangle, Neutral, 0.5, VolumeTrend(w),
                        Box(SeqMax(hs), SeqMin(ls), w[|w| - 1].close)))
  }

  /** A rectangle is reported exactly when the window passes the box
      tests; it is neutral, half complete, and spans the window's highest
      high and lowest low. */
  lemma RectangleClassified(s: seq<Bar>, cfg: Config)
    requires ValidConfig(cfg) && |s| >= cfg.minPatternLength
    ensures var w, r := Window(s, cfg), RectangleOf(s, cfg);
      (r.Some? <==> IsBox(w)) &&
      (r.Some? ==>
        (r.value.direction == Neutral && r.value.completion == 0.5 &&
         r.value.details == Box(SeqMax(Highs(w)), SeqMin(Lows(w)), w[|w| - 1].close) &&
         r.value.volumeConfirmation == VolumeTrend(w)))
  {
  }

  /** On a valid series a rectangle's support (lowest low) is at most its
      resistance (highest high), and every bar of the window lies between. */
  lemma RectangleBounds(s: seq<Bar>, cfg: Config)
    requires ValidConfig(cfg) && ValidSeries(s)
    requires RectangleOf(s, cfg).Some?
    ensures var w, d := Window(s, cfg), RectangleOf(s, cfg).value.details;
      d.support <= d.resistance &&
      forall j :: 0 <= j < |w| ==> d.support <= w[j].low && w[j].high <= d.resistance
  {
    TailValid(s, cfg.minPatternLength);
    RectangleClassified(s, cfg);
    BandBounds(Window(s, cfg));
  }

  /** The lowest low of a valid window is at most its highest high, and
      every bar lies between the two. */
  lemma BandBounds(w: seq<Bar>)
    requires |w| > 0 && ValidSeries(w)
    ensures SeqMin(Lows(w)) <= SeqMax(Highs(w))
    ensures forall j :: 0 <= j < |w| ==> SeqMin(Lows(w)) <= w[j].low && w[j].high <= SeqMax(Highs(w))
  {
    var lo, hi := SeqMin(Lows(w)), SeqMax(Highs(w));
    SeqMinIsLeast(Lows(w));
    SeqMaxIsGreatest(Highs(w));
    forall j | 0 <= j < |w| ensures lo <= w[j].low && w[j].high <= hi {
      assert Lows(w)[j] == w[j].low && Highs(w)[j] == w[j].high;
    }
    assert ValidBar(w[0]);
  }

  // ---------------------------------------------------------------------
  // The collector

  /** Position of a pattern kind in the collector's fixed order. */
  function Rank(k: Kind): nat {
    match k
    case DoubleTop => 0
    case DoubleBottom => 1
    case SymmetricTriangle => 2
    case DescendingTriangle => 2
    case AscendingTriangle => 2
    case Flag => 3
    case Pennant => 4
    case RisingWedge => 5
    case FallingWedge => 5
    case Rectangle => 6
    case HeadAndShoulders => 7
    case InverseHeadAndShoulders => 7
  }

  function Present(o: Option<Pattern>): seq<Pattern> {
    if o.Some? then [o.value] else []
  }

  const DetectorCount: nat := 7

  /** The detector at position `k` of the collector's order. */
  function Detector(k: nat, s: seq<Bar>, peaks: seq<nat>, troughs: seq<nat>, cfg: Config): (r: Option<Pattern>)
    requires k < DetectorCount && ValidConfig(cfg) && Swings(peaks, |s|) && Swings(troughs, |s|)
    ensures r.Some? ==> Rank(r.value.kind) == k
    ensures |s| < cfg.minPatternLength ==> r.None?
  {
    if k == 0 then DoubleTopOf(s, peaks, cfg)
    else if k == 1 then DoubleBottomOf(s, troughs, cfg)
    else WindowDetector(k, s, cfg)
  }

  /** The detectors that read only the bars, by rank. */
  function WindowDetector(k: nat, s: seq<Bar>, cfg: Config): (r: Option<Pattern>)
    requires 2 <= k < DetectorCount && ValidConfig(cfg)
    ensures r.Some? ==> Rank(r.value.kind) == k
    ensures |s| < cfg.minPatternLength ==> r.None?
  {
    if k == 2 then TriangleOf(s, cfg)
    else if k < 5 then PoleDetector(k, s, cfg)
    else BoundaryDetector(k, s, cfg)
  }

  /** Flag and pennant, the two detectors that split off a pole. */
  function PoleDetector(k: nat, s: seq<Bar>, cfg: Config): (r: Option<Pattern>)
    requires 3 <= k < 5 && ValidConfig(cfg)
    ensures r.Some? ==> Rank(r.value.kind) == k
    ensures |s| < cfg.minPatternLength ==> r.None?
  {
    if k == 3 then FlagOf(s, cfg) else PennantOf(s, cfg)
  }

  /** Wedge and rectangle, the two detectors that read the boundary lines
      of the whole window. */
  function BoundaryDetector(k: nat, s: seq<Bar>, cfg: Config): (r: Option<Pattern>)
    requires 5 <= k < DetectorCount && ValidConfig(cfg)
    ensures r.Some? ==> Rank(r.value.kind) == k
    ensures |s| < cfg.minPatternLength ==> r.None?
  {
    if k == 5 then WedgeOf(s, cfg) else RectangleOf(s, cfg)
  }

  /** The reported results of the first `k` detectors, in order. */
  function CollectTo(k: nat, s: seq<Bar>, peaks: seq<nat>, troughs: seq<nat>, cfg: Config): seq<Pattern>
    requires k <= DetectorCount && ValidConfig(cfg) && Swings(peaks, |s|) && Swings(troughs, |s|)
  {
    if k == 0 then [] else CollectTo(k - 1, s, peaks, troughs, cfg) + Present(Detector(k - 1, s, peaks, troughs, cfg))
  }

  /** What the collector reports. */
  function DetectAllOf(s: seq<Bar>, peaks: seq<nat>, troughs: seq<nat>, cfg: Config): seq<Pattern>
    requires ValidConfig(cfg) && Swings(peaks, |s|) && Swings(troughs, |s|)
  {
    CollectTo(DetectorCount, s, peaks, troughs, cfg)
  }

  /** The detector collection loop, appending each detector's result. */
  method DetectAll(s: seq<Bar>, peaks: seq<nat>, troughs: seq<nat>, cfg: Config) returns (patterns: seq<Pattern>)
    requires ValidConfig(cfg) && Swings(peaks, |s|) && Swings(troughs, |s|)
    ensures patterns == DetectAllOf(s, peaks, troughs, cfg)
    ensures |patterns| <= 7
    ensures forall i, j :: 0 <= i < j < |patterns| ==> Rank(patterns[i].kind) < Rank(patterns[j].kind)
    ensures forall i :: 0 <= i < |patterns| ==>
      Rank(patterns[i].kind) < DetectorCount && Detector(Rank(patterns[i].kind), s, peaks, troughs, cfg) == Some(patterns[i])
    ensures forall k :: 0 <= k < DetectorCount && Detector(k, s, peaks, troughs, cfg).Some? ==>
      Detector(k, s, peaks, troughs, cfg).value in patterns
  {
    patterns := [];
    patterns := AppendDetected(0, patterns, s, peaks, troughs, cfg);
    patterns := AppendDetected(1, patterns, s, peaks, troughs, cfg);
    patterns := AppendDetected(2, patterns, s, peaks, troughs, cfg);
    patterns := AppendDetected(3, patterns, s, peaks, troughs, cfg);
    patterns := AppendDetected(4, patterns, s, peaks, troughs, cfg);
    patterns := AppendDetected(5, patterns, s, peaks, troughs, cfg);
    patterns := AppendDetected(6, patterns, s, peaks, troughs, cfg);
    DetectAllOrdered(s, peaks, troughs, cfg);
  }

  method AppendDetected(k: nat, patterns: seq<Pattern>, s: seq<Bar>, peaks: seq<nat>, troughs: seq<nat>, cfg: Config)
    returns (r: seq<Pattern>)
    requires k < DetectorCount && ValidConfig(cfg) && Swings(peaks, |s|) && Swings(troughs, |s|)
    requires patterns == CollectTo(k, s, peaks, troughs, cfg)
    ensures r == CollectTo(k + 1, s, peaks, troughs, cfg)
  {
    var found := Detector(k, s, peaks, troughs, cfg);
    r := patterns;
    if found.Some? { r := r + [found.value]; }
  }

  /** At most seven results, in the fixed detector order, so no detector
      contributes twice; every result is what its detector reported, and
      every detector that reports something contributes it; nothing at all
      on a short series. */
  lemma DetectAllOrdered(s: seq<Bar>, peaks: seq<nat>, troughs: seq<nat>, cfg: Config)
    requires ValidConfig(cfg) && Swings(peaks, |s|) && Swings(troughs, |s|)
    ensures var r := DetectAllOf(s, peaks, troughs, cfg);
      |r| <= 7 && (forall i, j :: 0 <= i < j < |r| ==> Rank(r[i].kind) < Rank(r[j].kind)) &&
      (forall i :: 0 <= i < |r| ==>
        Rank(r[i].kind) < DetectorCount && Detector(Rank(r[i].kind), s, peaks, troughs, cfg) == Some(r[i])) &&
      (forall k :: 0 <= k < DetectorCount && Detector(k, s, peaks, troughs, cfg).Some? ==>
        Detector(k, s, peaks, troughs, cfg).value in r) &&
      (|s| < cfg.minPatternLength ==> r == [])
  {
    CollectContents(DetectorCount, s, peaks, troughs, cfg);
    CollectIsGather(DetectorCount, s, peaks, troughs, cfg);
    ReportsRanked(s, peaks, troughs, cfg);
    GatherRanked(Reports(s, peaks, troughs, cfg), DetectorCount);
    if |s| < cfg.minPatternLength {
      CollectShort(DetectorCount, s, peaks, troughs, cfg);
    }
  }

  /** The reports of the seven detectors, by rank. */
  function Reports(s: seq<Bar>, peaks: seq<nat>, troughs: seq<nat>, cfg: Config): (outs: seq<Option<Pattern>>)
    requires ValidConfig(cfg) && Swings(peaks, |s|) && Swings(troughs, |s|)
    ensures |outs| == DetectorCount
    ensures forall j :: 0 <= j < DetectorCount ==> outs[j] == Detector(j, s, peaks, troughs, cfg)
  {
    seq(DetectorCount, j requires 0 <= j < DetectorCount => Detector(j, s, peaks, troughs, cfg))
  }

  /** The present entries among the first `k` of `outs`, in order. */
  function Gather(outs: seq<Option<Pattern>>, k: nat): seq<Pattern>
    requires k <= |outs|
  {
    if k == 0 then [] else Gather(outs, k - 1) + Present(outs[k - 1])
  }

  /** Each report carries the kind of its own position. */
  predicate RankedReports(outs: seq<Option<Pattern>>) {
    forall j :: 0 <= j < |outs| && outs[j].Some? ==> Rank(outs[j].value.kind) == j
  }

  /** The seven reports are ranked: detector `j` reports only kinds of rank `j`. */
  lemma ReportsRanked(s: seq<Bar>, peaks: seq<nat>, troughs: seq<nat>, cfg: Config)
    requires ValidConfig(cfg) && Swings(peaks, |s|) && Swings(troughs, |s|)
    ensures RankedReports(Reports(s, peaks, troughs, cfg))
  {
    var outs := Reports(s, peaks, troughs, cfg);
    forall j | 0 <= j < |outs| && outs[j].Some?
      ensures Rank(outs[j].value.kind) == j
    {
      assert outs[j] == Detector(j, s, peaks, troughs, cfg);
    }
  }

  /** Gathering ranked reports yields at most `k` entries in strictly
      increasing rank, all below `k`. */
  lemma {:induction false} GatherRanked(outs: seq<Option<Pattern>>, k: nat)
    requires k <= |outs| && RankedReports(outs)
    ensures RankedBelow(Gather(outs, k), k)
  {
    if k > 0 {
      GatherRanked(outs, k - 1);
      AppendRanked(Gather(outs, k - 1), outs[k - 1], k - 1);
    }
  }

  lemma {:induction false} CollectIsGather(k: nat, s: seq<Bar>, peaks: seq<nat>, troughs: seq<nat>, cfg: Config)
    requires k <= DetectorCount && ValidConfig(cfg) && Swings(peaks, |s|) && Swings(troughs, |s|)
    ensures CollectTo(k, s, peaks, troughs, cfg) == Gather(Reports(s, peaks, troughs, cfg), k)
  {
    if k > 0 {
      CollectIsGather(k - 1, s, peaks, troughs, cfg);
    }
  }

  /** Each entry gathered from the first `k` ranked reports is the report
      at its own kind's position, below `k`. */
  lemma {:induction false} GatherSound(outs: seq<Option<Pattern>>, k: nat)
    requires k <= |outs| && RankedReports(outs)
    ensures forall i :: 0 <= i < |Gather(outs, k)| ==>
      Rank(Gather(outs, k)[i].kind) < k && outs[Rank(Gather(outs, k)[i].kind)] == Some(Gather(outs, k)[i])
  {
    if k > 0 {
      GatherSound(outs, k - 1);
      var init, r := Gather(outs, k - 1), Gather(outs, k);
      assert r == init + Present(outs[k - 1]);
      forall i | 0 <= i < |r|
        ensures Rank(r[i].kind) < k && outs[Rank(r[i].kind)] == Some(r[i])
      {
        if i < |init| {
          assert r[i] == init[i];
          assert Rank(init[i].kind) < k - 1;
        } else {
          assert outs[k - 1].Some? && r[i] == outs[k - 1].value;
          assert Rank(outs[k - 1].value.kind) == k - 1;
        }
      }
    }
  }

  /** Every present report among the first `k` is gathered. */
  lemma {:induction false} GatherComplete(outs: seq<Option<Pattern>>, k: nat)
    requires k <= |outs|
    ensures forall j :: 0 <= j < k && outs[j].Some? ==> outs[j].value in Gather(outs, k)
  {
    if k > 0 {
      GatherComplete(outs, k - 1);
      var init, r := Gather(outs, k - 1), Gather(outs, k);
      assert r == init + Present(outs[k - 1]);
      forall j | 0 <= j < k && outs[j].Some?
        ensures outs[j].value in r
      {
        if j < k - 1 {
          var m :| 0 <= m < |init| && init[m] == outs[j].value;
          assert r[m] == init[m];
        } else {
          assert r[|r| - 1] == outs[j].value;
        }
      }
    }
  }

  /** The first `k` detectors' results are collected exactly: each element
      is its own detector's report, and each report below `k` is present. */
  lemma CollectContents(k: nat, s: seq<Bar>, peaks: seq<nat>, troughs: seq<nat>, cfg: Config)
    requires k <= DetectorCount && ValidConfig(cfg) && Swings(peaks, |s|) && Swings(troughs, |s|)
    ensures var r := CollectTo(k, s, peaks, troughs, cfg);
      (forall i :: 0 <= i < |r| ==> Rank(r[i].kind) < k && Detector(Rank(r[i].kind), s, peaks, troughs, cfg) == Some(r[i])) &&
      (forall j :: 0 <= j < k && Detector(j, s, peaks, troughs, cfg).Some? ==> Detector(j, s, peaks, troughs, cfg).value in r)
  {
    var outs := Reports(s, peaks, troughs, cfg);
    CollectIsGather(k, s, peaks, troughs, cfg);
    ReportsRanked(s, peaks, troughs, cfg);
    GatherSound(outs, k);
    GatherComplete(outs, k);
  }

  lemma {:induction false} CollectShort(k: nat, s: seq<Bar>, peaks: seq<nat>, troughs: seq<nat>, cfg: Config)
    requires k <= DetectorCount && ValidConfig(cfg) && Swings(peaks, |s|) && Swings(troughs, |s|)
    requires |s| < cfg.minPatternLength
    ensures CollectTo(k, s, peaks, troughs, cfg) == []
  {
    if k > 0 {
      CollectShort(k - 1, s, peaks, troughs, cfg);
    }
  }

  /** At most `k` patterns, all of rank below `k`, in strictly increasing rank. */
  predicate RankedBelow(r: seq<Pattern>, k: nat) {
    |r| <= k && (forall i :: 0 <= i < |r| ==> Rank(r[i].kind) < k) &&
    (forall i, j :: 0 <= i < j < |r| ==> Rank(r[i].kind) < Rank(r[j].kind))
  }

  /** Appending the result of the detector of rank `k` keeps the order. */
  lemma AppendRanked(r: seq<Pattern>, found: Option<Pattern>, k: nat)
    requires RankedBelow(r, k)
    requires found.Some? ==> Rank(found.value.kind) == k
    ensures RankedBelow(r + Present(found), k + 1)
  {
    var r' := r + Present(found);
    forall i, j | 0 <= i < j < |r'| ensures Rank(r'[i].kind) < Rank(r'[j].kind) {
      if j >= |r| {
        assert r'[j] == found.value && r'[i] == r[i];
      }
    }
  }
}

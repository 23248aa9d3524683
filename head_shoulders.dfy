/** Head-and-shoulders detection over swing points: the first consecutive
    triple of peaks (troughs) whose middle one stands out and whose outer
    ones are close, with neckline, measured-move target, completion and a
    volume test. The bearish form is tried before the inverse one. */
module HeadShoulders {
  import opened Bars
  import opened Patterns

  datatype Config = Config(minPatternLength: nat, symmetryTolerance: real)

  const DefaultConfig := Config(20, 0.1)

  /** Average of the two shoulders' own highs (bearish) or lows (inverse). */
  function Neckline(s: seq<Bar>, left: nat, right: nat, support: bool): (r: real)
    requires left < |s| && right < |s|
    ensures support ==> Min(s[left].low, s[right].low) <= r <= Max(s[left].low, s[right].low)
    ensures !support ==> Min(s[left].high, s[right].high) <= r <= Max(s[left].high, s[right].high)
    ensures support ==> r - s[left].low == s[right].low - r
    ensures !support ==> r - s[left].high == s[right].high - r
  {
    if support then (s[left].low + s[right].low) / 2.0
    else (s[left].high + s[right].high) / 2.0
  }

  /** How far the last bar has come towards the neckline from the head:
      1 once the last high reaches the neckline (the last low, for the
      inverse form), otherwise the clamped fraction. */
  function Completion(s: seq<Bar>, neckline: real, head: real, support: bool): (r: real)
    requires |s| > 0 && head != neckline
    ensures 0.0 <= r <= 1.0
    ensures !support && s[|s| - 1].high >= neckline ==> r == 1.0
    ensures support && s[|s| - 1].low <= neckline ==> r == 1.0
  {
    var current := s[|s| - 1];
    if support then
      if current.low <= neckline then 1.0
      else Clamp01((neckline - current.low) / (neckline - head))
    else
      if current.high >= neckline then 1.0
      else Clamp01((current.high - neckline) / (head - neckline))
  }

  /** The middle of three values stands strictly above (`top`) or below the
      other two, and the outer two are within the symmetry tolerance. */
  predicate IsHeadTriple(xs: seq<real>, p: seq<nat>, i: nat, tol: real, top: bool)
    requires i + 2 < |p| && Swings(p, |xs|)
  {
    var l, h, r := xs[p[i]], xs[p[i + 1]], xs[p[i + 2]];
    (if top then h > l && h > r else h < l && h < r) && RelativelyClose(l, r, tol)
  }

  /** The first triple position, from `k` on, that qualifies. */
  function FirstTriple(xs: seq<real>, p: seq<nat>, k: nat, tol: real, top: bool): (r: Option<nat>)
    requires Swings(p, |xs|)
    ensures r.Some? ==> k <= r.value && r.value + 2 < |p| && IsHeadTriple(xs, p, r.value, tol, top)
    ensures r.Some? ==> forall j :: k <= j < r.value ==> !IsHeadTriple(xs, p, j, tol, top)
    ensures r.None? ==> forall j :: k <= j && j + 2 < |p| ==> !IsHeadTriple(xs, p, j, tol, top)
    decreases |p| - k
  {
    if k + 2 >= |p| then None
    else if IsHeadTriple(xs, p, k, tol, top) then Some(k)
    else FirstTriple(xs, p, k + 1, tol, top)
  }

  /** The bearish record for shoulders `l`, `r` and head `h`. */
  function BearishAt(s: seq<Bar>, l: nat, h: nat, r: nat): Pattern
    requires l < h < r < |s| && s[h].high > s[l].high && s[h].high > s[r].high
  {
    var neckline := Neckline(s, l, r, false);
    var head := s[h].high;
    Pattern(HeadAndShoulders, Bearish, Completion(s, neckline, head, false),
            WindowVolumeConfirms(s, l, r),
            HeadShoulders(neckline, head, neckline - (head - neckline)))
  }

  /** The inverse record for shoulders `l`, `r` and head `h`. */
  function BullishAt(s: seq<Bar>, l: nat, h: nat, r: nat): Pattern
    requires l < h < r < |s| && s[h].low < s[l].low && s[h].low < s[r].low
  {
    var neckline := Neckline(s, l, r, true);
    var head := s[h].low;
    Pattern(InverseHeadAndShoulders, Bullish, Completion(s, neckline, head, true),
            WindowVolumeConfirms(s, l, r),
            HeadShoulders(neckline, head, neckline + (neckline - head)))
  }

  function BearishOf(s: seq<Bar>, p: seq<nat>, cfg: Config): Option<Pattern>
    requires Swings(p, |s|)
  {
    if |p| < 3 then None
    else
      match FirstTriple(Highs(s), p, 0, cfg.symmetryTolerance, true)
      case None => None
      case Some(i) => Some(BearishAt(s, p[i], p[i + 1], p[i + 2]))
  }

  function BullishOf(s: seq<Bar>, p: seq<nat>, cfg: Config): Option<Pattern>
    requires Swings(p, |s|)
  {
    if |p| < 3 then None
    else
      match FirstTriple(Lows(s), p, 0, cfg.symmetryTolerance, false)
      case None => None
      case Some(i) => Some(BullishAt(s, p[i], p[i + 1], p[i + 2]))
  }

  /** The detector's scan over peak triples, returning at the first hit. */
  method DetectBearish(s: seq<Bar>, peaks: seq<nat>, cfg: Config) returns (r: Option<Pattern>)
    requires Swings(peaks, |s|)
    ensures r == BearishOf(s, peaks, cfg)
  {
    if |peaks| < 3 {
      return None;
    }
    var highs := Highs(s);
    var i := 0;
    while i < |peaks| - 2
      invariant 0 <= i <= |peaks| - 2
      invariant FirstTriple(highs, peaks, 0, cfg.symmetryTolerance, true) ==
        FirstTriple(highs, peaks, i, cfg.symmetryTolerance, true)
    {
      var l, h, rt := peaks[i], peaks[i + 1], peaks[i + 2];
      var left, head, right := highs[l], highs[h], highs[rt];
      if head > left && head > right && RelativelyClose(left, right, cfg.symmetryTolerance) {
        assert IsHeadTriple(highs, peaks, i, cfg.symmetryTolerance, true);
        var neckline := Neckline(s, l, rt, false);
        var target := neckline - (head - neckline);
        var completion := Completion(s, neckline, head, false);
        var volume := WindowVolumeConfirms(s, l, rt);
        return Some(Pattern(HeadAndShoulders, Bearish, completion, volume,
                            HeadShoulders(neckline, head, target)));
      }
      i := i + 1;
    }
    return None;
  }

  /** The same scan over trough triples. */
  method DetectBullish(s: seq<Bar>, troughs: seq<nat>, cfg: Config) returns (r: Option<Pattern>)
    requires Swings(troughs, |s|)
    ensures r == BullishOf(s, troughs, cfg)
  {
    if |troughs| < 3 {
      return None;
    }
    var lows := Lows(s);
    var i := 0;
    while i < |troughs| - 2
      invariant 0 <= i <= |troughs| - 2
      invariant FirstTriple(lows, troughs, 0, cfg.symmetryTolerance, false) ==
        FirstTriple(lows, troughs, i, cfg.symmetryTolerance, false)
    {
      var l, h, rt := troughs[i], troughs[i + 1], troughs[i + 2];
      var left, head, right := lows[l], lows[h], lows[rt];
      if head < left && head < right && RelativelyClose(left, right, cfg.symmetryTolerance) {
        assert IsHeadTriple(lows, troughs, i, cfg.symmetryTolerance, false);
        var neckline := Neckline(s, l, rt, true);
        var target := neckline + (neckline - head);
        var completion := Completion(s, neckline, head, true);
        var volume := WindowVolumeConfirms(s, l, rt);
        return Some(Pattern(InverseHeadAndShoulders, Bullish, completion, volume,
                            HeadShoulders(neckline, head, target)));
      }
      i := i + 1;
    }
    return None;
  }

  /** The detector: nothing on a short series, else the bearish form, else
      the inverse one. */
  function DetectOf(s: seq<Bar>, peaks: seq<nat>, troughs: seq<nat>, cfg: Config): Option<Pattern>
    requires Swings(peaks, |s|) && Swings(troughs, |s|)
  {
    if |s| < cfg.minPatternLength then None
    else if BearishOf(s, peaks, cfg).Some? then BearishOf(s, peaks, cfg)
    else BullishOf(s, troughs, cfg)
  }

  method Detect(s: seq<Bar>, peaks: seq<nat>, troughs: seq<nat>, cfg: Config) returns (r: Option<Pattern>)
    requires Swings(peaks, |s|) && Swings(troughs, |s|)
    ensures r == DetectOf(s, peaks, troughs, cfg)
    ensures |s| < cfg.minPatternLength ==> r.None?
    ensures r.Some? ==> HeadShouldersShape(s, r.value)
  {
    if |s| < cfg.minPatternLength {
      return None;
    }
    r := DetectBearish(s, peaks, cfg);
    if r.None? {
      r := DetectBullish(s, troughs, cfg);
    }
    DetectedShape(s, peaks, troughs, cfg);
  }

  // ---------------------------------------------------------------------
  // What a detected pattern looks like

  /** The geometry every reported pattern has: the neckline lies strictly
      on the far side of the head, the target mirrors the head through the
      neckline, and completion is 0 or 1. */
  predicate HeadShouldersShape(s: seq<Bar>, pat: Pattern)
    requires |s| > 0
  {
    pat.details.HeadShoulders? &&
    var neck, head, target := pat.details.neckline, pat.details.headPrice, pat.details.targetPrice;
    target == 2.0 * neck - head &&
    (pat.completion == 0.0 || pat.completion == 1.0) &&
    if pat.kind == HeadAndShoulders then
      pat.direction == Bearish && head > neck && target < neck &&
      (pat.completion == 1.0 <==> s[|s| - 1].high >= neck)
    else
      pat.kind == InverseHeadAndShoulders &&
      pat.direction == Bullish && head < neck && target > neck &&
      (pat.completion == 1.0 <==> s[|s| - 1].low <= neck)
  }

  lemma ProductSign(q: real, b: real)
    requires b > 0.0
    ensures q >= 0.0 ==> q * b >= 0.0
  {
  }

  lemma QuotientNegative(a: real, b: real)
    requires a < 0.0 < b
    ensures a / b < 0.0
  {
    var q := a / b;
    assert q * b == a;
    ProductSign(q, b);
  }

  lemma BearishShape(s: seq<Bar>, l: nat, h: nat, r: nat)
    requires l < h < r < |s| && s[h].high > s[l].high && s[h].high > s[r].high
    ensures HeadShouldersShape(s, BearishAt(s, l, h, r))
    ensures BearishAt(s, l, h, r).volumeConfirmation == WindowVolumeConfirms(s, l, r)
  {
    var neck, head := Neckline(s, l, r, false), s[h].high;
    var cur := s[|s| - 1].high;
    if cur < neck {
      QuotientNegative(cur - neck, head - neck);
    }
  }

  lemma BullishShape(s: seq<Bar>, l: nat, h: nat, r: nat)
    requires l < h < r < |s| && s[h].low < s[l].low && s[h].low < s[r].low
    ensures HeadShouldersShape(s, BullishAt(s, l, h, r))
    ensures BullishAt(s, l, h, r).volumeConfirmation == WindowVolumeConfirms(s, l, r)
  {
    var neck, head := Neckline(s, l, r, true), s[h].low;
    var cur := s[|s| - 1].low;
    if cur > neck {
      QuotientNegative(neck - cur, neck - head);
    }
  }

  lemma DetectedShape(s: seq<Bar>, peaks: seq<nat>, troughs: seq<nat>, cfg: Config)
    requires Swings(peaks, |s|) && Swings(troughs, |s|)
    ensures DetectOf(s, peaks, troughs, cfg).Some? ==> HeadShouldersShape(s, DetectOf(s, peaks, troughs, cfg).value)
  {
    if |s| >= cfg.minPatternLength && |peaks| >= 3 {
      match FirstTriple(Highs(s), peaks, 0, cfg.symmetryTolerance, true)
      case Some(i) => BearishShape(s, peaks[i], peaks[i + 1], peaks[i + 2]);
      case None =>
    }
    if |s| >= cfg.minPatternLength && BearishOf(s, peaks, cfg).None? && |troughs| >= 3 {
      match FirstTriple(Lows(s), troughs, 0, cfg.symmetryTolerance, false)
      case Some(i) => BullishShape(s, troughs[i], troughs[i + 1], troughs[i + 2]);
      case None =>
    }
  }

  /** The bearish form wins: whenever some peak triple at or before
      position `i` qualifies, the result is the bearish pattern of the first
      qualifying triple, whatever the troughs. */
  lemma BearishFirst(s: seq<Bar>, peaks: seq<nat>, troughs: seq<nat>, cfg: Config, i: nat)
    requires Swings(peaks, |s|) && Swings(troughs, |s|)
    requires |s| >= cfg.minPatternLength
    requires i + 2 < |peaks| && IsHeadTriple(Highs(s), peaks, i, cfg.symmetryTolerance, true)
    ensures FirstTriple(Highs(s), peaks, 0, cfg.symmetryTolerance, true).Some?
    ensures var j := FirstTriple(Highs(s), peaks, 0, cfg.symmetryTolerance, true).value;
      j <= i && DetectOf(s, peaks, troughs, cfg) == Some(BearishAt(s, peaks[j], peaks[j + 1], peaks[j + 2]))
  {
  }

  /** An inverse pattern is reported only when no peak triple qualifies. */
  lemma InverseOnlyWithoutBearish(s: seq<Bar>, peaks: seq<nat>, troughs: seq<nat>, cfg: Config)
    requires Swings(peaks, |s|) && Swings(troughs, |s|)
    requires DetectOf(s, peaks, troughs, cfg).Some?
    requires DetectOf(s, peaks, troughs, cfg).value.kind == InverseHeadAndShoulders
    ensures forall j :: 0 <= j && j + 2 < |peaks| ==> !IsHeadTriple(Highs(s), peaks, j, cfg.symmetryTolerance, true)
  {
  }
}

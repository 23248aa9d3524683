/** The candlestick classifier: six shape tests over the last one to three
    bars, tried in a fixed order; the first that fires names the pattern. */
module Candlestick {
  import opened Bars

  datatype Label =
    | Hammer
    | BullishEngulfing
    | BearishEngulfing
    | Doji
    | ShootingStar
    | EveningStar
    | MorningStar

  /** The label text the analyzer returns. */
  function Name(l: Label): string {
    match l
    case Hammer => "Hammer"
    case BullishEngulfing => "Bullish Engulfing"
    case BearishEngulfing => "Bearish Engulfing"
    case Doji => "Doji"
    case ShootingStar => "Shooting Star"
    case EveningStar => "Evening Star"
    case MorningStar => "Morning Star"
  }

  function Body(b: Bar): real {
    Abs(b.close - b.open)
  }

  function LowerShadow(b: Bar): real {
    Min(b.open, b.close) - b.low
  }

  function UpperShadow(b: Bar): real {
    b.high - Max(b.open, b.close)
  }

  function Last(s: seq<Bar>): Bar
    requires |s| > 0
  {
    s[|s| - 1]
  }

  // ---------------------------------------------------------------------
  // The six shape tests, each with its own length guard

  /** Long lower shadow, almost no upper shadow, a real body. */
  function DetectHammer(s: seq<Bar>): (r: Option<Label>)
    ensures r.Some? ==> r.value == Hammer && |s| >= 1
    ensures r.Some? ==> var c := Last(s);
      Body(c) > 0.0 && LowerShadow(c) > 2.0 * Body(c) && UpperShadow(c) < 0.1 * Body(c)
  {
    if |s| < 1 then None
    else
      var c := Last(s);
      var body, lower, upper := Body(c), LowerShadow(c), UpperShadow(c);
      if lower > 2.0 * body && upper < 0.1 * body && body > 0.0 then Some(Hammer) else None
  }

  /** The last bar's body engulfs the previous bar's body, in the opposite
      direction, and is more than 1.1 times as long. */
  function DetectEngulfing(s: seq<Bar>): (r: Option<Label>)
    ensures r.Some? ==> |s| >= 2 && (r.value == BullishEngulfing || r.value == BearishEngulfing)
    ensures r.Some? ==> (r.value == BullishEngulfing <==> Last(s).close > Last(s).open)
    ensures r.Some? ==> Body(Last(s)) > 1.1 * Body(s[|s| - 2])
  {
    if |s| < 2 then None
    else
      var prev, curr := s[|s| - 2], s[|s| - 1];
      var prevBody, currBody := Body(prev), Body(curr);
      var prevBullish, currBullish := prev.close > prev.open, curr.close > curr.open;
      if currBody > 1.1 * prevBody &&
         ((prevBullish && !currBullish && curr.open > prev.close && curr.close < prev.open) ||
          (!prevBullish && currBullish && curr.open < prev.close && curr.close > prev.open))
      then Some(if currBullish then BullishEngulfing else BearishEngulfing)
      else None
  }

  /** Body under a tenth of a non-empty range. */
  function DetectDoji(s: seq<Bar>): (r: Option<Label>)
    ensures r.Some? ==> r.value == Doji && |s| >= 1
    ensures r.Some? ==> var c := Last(s); c.high - c.low > 0.0 && Body(c) / (c.high - c.low) < 0.1
  {
    if |s| < 1 then None
    else
      var c := Last(s);
      var body, range := Body(c), c.high - c.low;
      if range > 0.0 && body / range < 0.1 then Some(Doji) else None
  }

  /** Long upper shadow, almost no lower shadow, a bearish close. */
  function DetectShootingStar(s: seq<Bar>): (r: Option<Label>)
    ensures r.Some? ==> r.value == ShootingStar && |s| >= 1
    ensures r.Some? ==> var c := Last(s);
      c.close < c.open && UpperShadow(c) > 2.0 * Body(c) && LowerShadow(c) < 0.1 * Body(c)
  {
    if |s| < 1 then None
    else
      var c := Last(s);
      var body, upper, lower := Body(c), UpperShadow(c), LowerShadow(c);
      if upper > 2.0 * body && lower < 0.1 * body && c.close < c.open then Some(ShootingStar) else None
  }

  /** Bullish bar, small middle body, bearish bar closing below the first
      bar's body midpoint. */
  function DetectEveningStar(s: seq<Bar>): (r: Option<Label>)
    ensures r.Some? ==> r.value == EveningStar && |s| >= 3
    ensures r.Some? ==> var first, second, third := s[|s| - 3], s[|s| - 2], s[|s| - 1];
      first.close > first.open && Body(second) < Body(first) * 0.3 &&
      third.close < third.open && third.close < (first.open + first.close) / 2.0
  {
    if |s| < 3 then None
    else
      var first, second, third := s[|s| - 3], s[|s| - 2], s[|s| - 1];
      if first.close > first.open &&
         Abs(second.close - second.open) < Abs(first.close - first.open) * 0.3 &&
         third.close < third.open &&
         third.close < (first.open + first.close) / 2.0
      then Some(EveningStar) else None
  }

  /** Mirror of the evening star. */
  function DetectMorningStar(s: seq<Bar>): (r: Option<Label>)
    ensures r.Some? ==> r.value == MorningStar && |s| >= 3
    ensures r.Some? ==> var first, second, third := s[|s| - 3], s[|s| - 2], s[|s| - 1];
      first.close < first.open && Body(second) < Body(first) * 0.3 &&
      third.close > third.open && third.close > (first.open + first.close) / 2.0
  {
    if |s| < 3 then None
    else
      var first, second, third := s[|s| - 3], s[|s| - 2], s[|s| - 1];
      if first.close < first.open &&
         Abs(second.close - second.open) < Abs(first.close - first.open) * 0.3 &&
         third.close > third.open &&
         third.close > (first.open + first.close) / 2.0
      then Some(MorningStar) else None
  }

  // ---------------------------------------------------------------------
  // The cascade

  /** Number of shape tests in the cascade. */
  const Tests: nat := 6

  /** The k-th test of the cascade. */
  function Detector(k: nat, s: seq<Bar>): Option<Label>
    requires k < Tests
  {
    if k == 0 then DetectHammer(s)
    else if k == 1 then DetectEngulfing(s)
    else if k == 2 then DetectDoji(s)
    else if k == 3 then DetectShootingStar(s)
    else if k == 4 then DetectEveningStar(s)
    else DetectMorningStar(s)
  }

  /** Position in the cascade of the test that produces label `l`. */
  function Rank(l: Label): (k: nat)
    ensures k < Tests
  {
    match l
    case Hammer => 0
    case BullishEngulfing => 1
    case BearishEngulfing => 1
    case Doji => 2
    case ShootingStar => 3
    case EveningStar => 4
    case MorningStar => 5
  }

  /** Each test produces only labels of its own rank. */
  lemma DetectorOwnLabels(k: nat, s: seq<Bar>)
    requires k < Tests
    ensures Detector(k, s).Some? ==> Rank(Detector(k, s).value) == k
  {
  }

  /** The result of the tests from position `k` on: the first that fires. */
  function FirstMatch(s: seq<Bar>, k: nat): (r: Option<Label>)
    requires k <= Tests
    ensures r.Some? ==> k <= Rank(r.value) && Detector(Rank(r.value), s) == r
    ensures r.Some? ==> forall j :: k <= j < Rank(r.value) ==> Detector(j, s).None?
    ensures r.None? ==> forall j :: k <= j < Tests ==> Detector(j, s).None?
    decreases Tests - k
  {
    if k == Tests then None
    else
      DetectorOwnLabels(k, s);
      var d := Detector(k, s);
      if d.Some? then d else FirstMatch(s, k + 1)
  }

  /** The classifier: nothing on fewer than three bars, otherwise the first
      test of the cascade that fires. */
  function Analyze(s: seq<Bar>): (r: Option<Label>)
    ensures |s| < 3 ==> r.None?
    ensures r.Some? ==> Detector(Rank(r.value), s) == r
    ensures r.Some? ==> forall j :: 0 <= j < Rank(r.value) ==> Detector(j, s).None?
    ensures |s| >= 3 && r.None? ==> forall j :: 0 <= j < Tests ==> Detector(j, s).None?
  {
    if |s| < 3 then None else FirstMatch(s, 0)
  }

  // ---------------------------------------------------------------------
  // What the shapes imply

  /** Three bars and a firing single-bar test: the cascade reports a label,
      and its rank is at most that test's rank. */
  lemma AnalyzeReportsSomething(s: seq<Bar>, k: nat)
    requires |s| >= 3 && k < Tests && Detector(k, s).Some?
    ensures Analyze(s).Some? && Rank(Analyze(s).value) <= k
  {
  }

  /** A hammer's body is less than a third of the bar's range and sits
      above the middle of the range. */
  lemma HammerShape(s: seq<Bar>)
    requires DetectHammer(s).Some? && ValidBar(Last(s))
    ensures var c := Last(s);
      3.0 * Body(c) < c.high - c.low && c.open + c.close > c.high + c.low
  {
    var c := Last(s);
    var b, l, u := Body(c), LowerShadow(c), UpperShadow(c);
    assert c.high - c.low == l + b + u;
    assert c.open + c.close == 2.0 * Min(c.open, c.close) + b;
  }

  /** A shooting star's body is less than a third of the bar's range and
      sits below the middle of the range. */
  lemma ShootingStarShape(s: seq<Bar>)
    requires DetectShootingStar(s).Some? && ValidBar(Last(s))
    ensures var c := Last(s);
      3.0 * Body(c) < c.high - c.low && c.open + c.close < c.high + c.low
  {
    var c := Last(s);
    var b, l, u := Body(c), LowerShadow(c), UpperShadow(c);
    assert c.high - c.low == l + b + u;
    assert c.open + c.close == 2.0 * Max(c.open, c.close) - b;
  }

  /** No bar is both a hammer and a shooting star. */
  lemma HammerExcludesShootingStar(s: seq<Bar>)
    requires DetectHammer(s).Some?
    ensures DetectShootingStar(s).None?
  {
  }

  /** An engulfing pair: the previous body lies strictly inside the current
      one, and the two bars point in opposite directions. */
  lemma EngulfingContains(s: seq<Bar>)
    requires DetectEngulfing(s).Some?
    ensures var prev, curr := s[|s| - 2], s[|s| - 1];
      Min(curr.open, curr.close) < Min(prev.open, prev.close) &&
      Max(prev.open, prev.close) < Max(curr.open, curr.close) &&
      ((curr.close > curr.open) <==> !(prev.close > prev.open))
  {
  }

  /** An evening star ends below the first bar's close, a morning star above
      it; so no window is both. */
  lemma StarsEndPastFirstClose(s: seq<Bar>)
    ensures DetectEveningStar(s).Some? ==> s[|s| - 1].close < s[|s| - 3].close
    ensures DetectMorningStar(s).Some? ==> s[|s| - 1].close > s[|s| - 3].close
    ensures !(DetectEveningStar(s).Some? && DetectMorningStar(s).Some?)
  {
  }
}

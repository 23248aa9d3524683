/** The relative strength index: per-bar gains and losses of the close,
    their simple rolling means over `period` bars, the index
    100 - 100 / (1 + gain / loss), and a five-zone classification of one
    value. Undefined values (pandas NaN) are `None`. */
module Rsi {
  import opened Bars

  const DefaultPeriod: nat := 14

  /** Change of the close into bar `j`; bar 0 has none (pandas `diff` gives
      NaN there). */
  function Delta(c: seq<real>, j: nat): real
    requires 1 <= j < |c|
  {
    c[j] - c[j - 1]
  }

  /** The positive part of the change; `where(delta > 0, 0)` also turns the
      undefined first change into 0. */
  function Gain(c: seq<real>, j: nat): (g: real)
    requires j < |c|
    ensures g >= 0.0
  {
    if j == 0 then 0.0 else var d := Delta(c, j); if d > 0.0 then d else 0.0
  }

  /** The negated negative part of the change, 0 at bar 0. */
  function Loss(c: seq<real>, j: nat): (l: real)
    requires j < |c|
    ensures l >= 0.0
  {
    if j == 0 then 0.0 else var d := Delta(c, j); if d < 0.0 then -d else 0.0
  }

  /** Sum of gains of bars lo..hi-1. */
  function GainSum(c: seq<real>, lo: nat, hi: nat): (r: real)
    requires lo <= hi <= |c|
    ensures r >= 0.0
    decreases hi - lo
  {
    if lo == hi then 0.0 else GainSum(c, lo, hi - 1) + Gain(c, hi - 1)
  }

  /** Sum of losses of bars lo..hi-1. */
  function LossSum(c: seq<real>, lo: nat, hi: nat): (r: real)
    requires lo <= hi <= |c|
    ensures r >= 0.0
    decreases hi - lo
  {
    if lo == hi then 0.0 else LossSum(c, lo, hi - 1) + Loss(c, hi - 1)
  }

  /** The index from a mean gain and a mean loss, over the reals:
      100 * g / (g + l), undefined when both are 0 (pandas computes 0 / 0).
      A zero loss with a positive gain saturates at 100 (1 / inf is 0).  */
  function Index(g: real, l: real): (r: Option<real>)
    requires g >= 0.0 && l >= 0.0
    ensures r.None? <==> g == 0.0 && l == 0.0
    ensures r.Some? ==> 0.0 <= r.value <= 100.0
  {
    if g + l == 0.0 then None else Some(100.0 * g / (g + l))
  }

  /** The value at bar `k`: undefined until a full window of `period` bars
      is available, otherwise the index of the window means. */
  function RsiAt(c: seq<real>, period: nat, k: nat): (r: Option<real>)
    requires k < |c|
    ensures r.Some? ==> 0.0 <= r.value <= 100.0
    ensures r.Some? ==> period >= 1 && k + 1 >= period
  {
    if period == 0 || k + 1 < period then None
    else
      var p := period as real;
      Index(GainSum(c, k + 1 - period, k + 1) / p, LossSum(c, k + 1 - period, k + 1) / p)
  }

  /** The whole series: all undefined when there are fewer than
      `period + 1` bars. */
  function Calculate(s: seq<Bar>, period: nat): (r: seq<Option<real>>)
    ensures |r| == |s|
    ensures |s| < period + 1 ==> forall k :: 0 <= k < |r| ==> r[k].None?
    ensures |s| >= period + 1 ==> forall k :: 0 <= k < |r| ==> r[k] == RsiAt(Closes(s), period, k)
  {
    if |s| < period + 1 then seq(|s|, k => None)
    else seq(|s|, k requires 0 <= k < |s| => RsiAt(Closes(s), period, k))
  }

  datatype Signal = Buy | Sell | Neutral
  datatype Zone = Oversold | Overbought | NearOversold | NearOverbought | NeutralZone | Unknown

  /** `rsiValue` is absent exactly when the input was undefined. */
  datatype SignalInfo = SignalInfo(signal: Signal, strength: real, zone: Zone, rsiValue: Option<real>)

  /** The zone classification of one value, tried in the order < 30, > 70,
      < 40, > 60. */
  function GetSignal(v: Option<real>): (r: SignalInfo)
    ensures r.rsiValue == v
    ensures 0.0 <= r.strength <= 1.0
    ensures v.None? ==> r == SignalInfo(Neutral, 0.0, Unknown, None)
  {
    match v
    case None => SignalInfo(Neutral, 0.0, Unknown, None)
    case Some(x) =>
      if x < 30.0 then SignalInfo(Buy, Min(1.0, (30.0 - x) / 20.0), Oversold, v)
      else if x > 70.0 then SignalInfo(Sell, Min(1.0, (x - 70.0) / 20.0), Overbought, v)
      else if x < 40.0 then SignalInfo(Buy, (40.0 - x) / 20.0 * 0.5, NearOversold, v)
      else if x > 60.0 then SignalInfo(Sell, (x - 60.0) / 20.0 * 0.5, NearOverbought, v)
      else SignalInfo(Neutral, 0.0, NeutralZone, v)
  }

  datatype Report = Report(rsi: Option<real>, signal: Signal, zone: Zone, strength: real, period: nat)

  /** Classifies the last value of the series (undefined for an empty
      series) and echoes the period. */
  function Analyze(s: seq<Bar>, period: nat): (r: Report)
    ensures r.period == period
    ensures |s| == 0 ==> r.rsi.None?
    ensures |s| >= period + 1 ==> r.rsi == RsiAt(Closes(s), period, |s| - 1)
    ensures r.rsi.Some? ==> 0.0 <= r.rsi.value <= 100.0
    ensures |s| < period + 1 ==> r == Report(None, Neutral, Unknown, 0.0, period)
  {
    var series := Calculate(s, period);
    var current := if |series| == 0 then None else series[|series| - 1];
    var info := GetSignal(current);
    Report(current, info.signal, info.zone, info.strength, period)
  }

  // ---------------------------------------------------------------------
  // Gains and losses

  /** A change counts either as gain or as loss, never both, and gain minus
      loss is the change itself. */
  lemma GainLossSplit(c: seq<real>, j: nat)
    requires 1 <= j < |c|
    ensures Gain(c, j) - Loss(c, j) == Delta(c, j)
    ensures Gain(c, j) == 0.0 || Loss(c, j) == 0.0
  {
  }

  /** Over a window of rising closes all losses are 0 and the gains add up
      to something positive. */
  lemma {:induction false} RisingWindow(c: seq<real>, lo: nat, hi: nat)
    requires 1 <= lo < hi <= |c|
    requires forall j :: lo <= j < hi ==> c[j - 1] < c[j]
    ensures LossSum(c, lo, hi) == 0.0 && GainSum(c, lo, hi) > 0.0
  {
    assert Delta(c, hi - 1) > 0.0;
    if lo < hi - 1 {
      RisingWindow(c, lo, hi - 1);
    }
  }

  /** Over a window of falling closes all gains are 0 and the losses add up
      to something positive. */
  lemma {:induction false} FallingWindow(c: seq<real>, lo: nat, hi: nat)
    requires 1 <= lo < hi <= |c|
    requires forall j :: lo <= j < hi ==> c[j - 1] > c[j]
    ensures GainSum(c, lo, hi) == 0.0 && LossSum(c, lo, hi) > 0.0
  {
    assert Delta(c, hi - 1) < 0.0;
    if lo < hi - 1 {
      FallingWindow(c, lo, hi - 1);
    }
  }

  /** Over a window of unchanged closes both sums are 0. */
  lemma {:induction false} FlatWindow(c: seq<real>, lo: nat, hi: nat)
    requires lo <= hi <= |c|
    requires forall j :: lo <= j < hi && j >= 1 ==> c[j - 1] == c[j]
    ensures GainSum(c, lo, hi) == 0.0 && LossSum(c, lo, hi) == 0.0
  {
    if lo < hi {
      FlatWindow(c, lo, hi - 1);
    }
  }

  // ---------------------------------------------------------------------
  // The index

  /** With a positive mean loss the index is the textbook
      100 - 100 / (1 + RS), RS = gain / loss. */
  lemma IndexIsClassicForm(g: real, l: real)
    requires g >= 0.0 && l > 0.0
    ensures Index(g, l) == Some(100.0 - 100.0 / (1.0 + g / l))
  {
    var rs := g / l;
    assert g == rs * l;
    assert g + l == (1.0 + rs) * l;
    assert 100.0 * g / (g + l) == 100.0 * rs / (1.0 + rs);
    assert 100.0 * rs / (1.0 + rs) == 100.0 - 100.0 / (1.0 + rs);
  }

  /** The saturation cases of pandas' division: 100 without losses, 0
      without gains. */
  lemma IndexSaturation(g: real, l: real)
    requires g >= 0.0 && l >= 0.0
    ensures l == 0.0 && g > 0.0 ==> Index(g, l) == Some(100.0)
    ensures g == 0.0 && l > 0.0 ==> Index(g, l) == Some(0.0)
  {
    if l == 0.0 && g > 0.0 {
      assert g + l == g;
      assert 100.0 * g / g == 100.0;
    }
  }

  lemma QuotientPositive(a: real, b: real)
    requires a > 0.0 && b > 0.0
    ensures a / b > 0.0
  {
    var q := a / b;
    assert q * b == a;
  }

  /** A full window of rising closes gives 100. */
  lemma RisingWindowSaturates(c: seq<real>, period: nat, k: nat)
    requires 1 <= period <= k < |c|
    requires forall j :: k + 1 - period <= j <= k ==> c[j - 1] < c[j]
    ensures RsiAt(c, period, k) == Some(100.0)
  {
    var lo, p := k + 1 - period, period as real;
    RisingWindow(c, lo, k + 1);
    QuotientPositive(GainSum(c, lo, k + 1), p);
    IndexSaturation(GainSum(c, lo, k + 1) / p, LossSum(c, lo, k + 1) / p);
  }

  /** A full window of falling closes gives 0. */
  lemma FallingWindowSaturates(c: seq<real>, period: nat, k: nat)
    requires 1 <= period <= k < |c|
    requires forall j :: k + 1 - period <= j <= k ==> c[j - 1] > c[j]
    ensures RsiAt(c, period, k) == Some(0.0)
  {
    var lo, p := k + 1 - period, period as real;
    FallingWindow(c, lo, k + 1);
    QuotientPositive(LossSum(c, lo, k + 1), p);
    IndexSaturation(GainSum(c, lo, k + 1) / p, LossSum(c, lo, k + 1) / p);
  }

  /** A full window of unchanged closes leaves the index undefined. */
  lemma FlatWindowUndefined(c: seq<real>, period: nat, k: nat)
    requires k < |c|
    requires forall j :: 1 <= j <= k ==> c[j - 1] == c[j]
    ensures RsiAt(c, period, k).None?
  {
    if period >= 1 && k + 1 >= period {
      FlatWindow(c, k + 1 - period, k + 1);
    }
  }

  // ---------------------------------------------------------------------
  // The classification

  /** BUY exactly below 40, SELL exactly above 60, NEUTRAL otherwise. */
  lemma SignalByValue(x: real)
    ensures GetSignal(Some(x)).signal == Buy <==> x < 40.0
    ensures GetSignal(Some(x)).signal == Sell <==> x > 60.0
    ensures GetSignal(Some(x)).signal == Neutral <==> 40.0 <= x <= 60.0
  {
  }

  /** The zones partition the line at 30, 40, 60 and 70. */
  lemma ZoneByValue(x: real)
    ensures GetSignal(Some(x)).zone == Oversold <==> x < 30.0
    ensures GetSignal(Some(x)).zone == NearOversold <==> 30.0 <= x < 40.0
    ensures GetSignal(Some(x)).zone == NeutralZone <==> 40.0 <= x <= 60.0
    ensures GetSignal(Some(x)).zone == NearOverbought <==> 60.0 < x <= 70.0
    ensures GetSignal(Some(x)).zone == Overbought <==> x > 70.0
    ensures GetSignal(Some(x)).zone != Unknown
  {
  }

  /** Strength saturates at 1 at 10 and below and at 90 and above; the
      near zones give a positive strength of at most 0.25; the neutral zone
      gives 0. */
  lemma StrengthByZone(x: real)
    ensures x <= 10.0 || x >= 90.0 ==> GetSignal(Some(x)).strength == 1.0
    ensures GetSignal(Some(x)).zone in {NearOversold, NearOverbought} ==>
      0.0 < GetSignal(Some(x)).strength <= 0.25
    ensures GetSignal(Some(x)).zone == NeutralZone ==> GetSignal(Some(x)).strength == 0.0
    ensures GetSignal(Some(x)).zone in {Oversold, Overbought} ==> 0.0 < GetSignal(Some(x)).strength
  {
  }

  /** Short input: no value anywhere, and the report says so. */
  lemma ShortSeriesUndefined(s: seq<Bar>, period: nat)
    requires |s| < period + 1
    ensures forall k :: 0 <= k < |s| ==> Calculate(s, period)[k].None?
    ensures Analyze(s, period).rsi.None? && Analyze(s, period).zone == Unknown
    ensures Analyze(s, period).signal == Neutral && Analyze(s, period).strength == 0.0
  {
  }

  /** On a long enough series the report classifies the last value. */
  lemma AnalyzeClassifiesLast(s: seq<Bar>, period: nat)
    requires |s| >= period + 1
    ensures var v := RsiAt(Closes(s), period, |s| - 1);
      Analyze(s, period) == Report(v, GetSignal(v).signal, GetSignal(v).zone, GetSignal(v).strength, period)
  {
  }
}

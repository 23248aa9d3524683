/** The signal generator: buy and sell scores weighted from the candlestick
    label, the nearest support and resistance levels, the head-and-shoulders
    detector and a volume test; a signal for the side that wins clearly,
    with a stop-loss, take-profit targets and a strength bucket. */
module Signals {
  import opened Bars
  import opened Patterns
  import CS = Candlestick
  import SR = Levels
  import HS = HeadShoulders

  /** Shorter series are not analysed. */
  const MinBars: nat := 100

  /** The generator's default confidence threshold. */
  const DefaultMinConfidence: real := 0.6

  datatype SignalType = Buy | Sell

  datatype Strength = Strong | Medium | Weak

  /** The evidence behind a score, in the order it was found. The generator
      keeps these as display strings; only their content is kept here. */
  datatype Factor =
    | CandleFactor(candle: CS.Label)
    | NearSupport(price: real)
    | NearResistance(price: real)
    | InverseHeadShouldersFactor
    | HeadShouldersFactor

  datatype Target = Target(level: real, probability: real)

  datatype Indicators = Indicators(firstFactor: Option<Factor>, supportLevel: Option<real>,
                                   resistanceLevel: Option<real>, volumeConfirmation: bool,
                                   headShoulders: bool)

  datatype Signal = Signal(kind: SignalType, strength: Strength, entry: real, stopLoss: real,
                           takeProfit: seq<Target>, indicators: Indicators, confidence: real)

  /** The record handed back to the caller: the signal with the asset, the
      timeframe and the price it was computed at (the timestamp is left out). */
  datatype Report = Report(signal: Signal, asset: string, timeframe: string, currentPrice: real)

  // ---------------------------------------------------------------------
  // The candlestick keywords

  /** `t` occurs in `s` starting at position `i`. */
  predicate OccursAt(s: string, t: string, i: nat) {
    i + |t| <= |s| && s[i..i + |t|] == t
  }

  /** Python's `t in s` on strings. */
  predicate Contains(s: string, t: string) {
    exists i: nat :: i <= |s| && OccursAt(s, t, i)
  }

  /** `any(x in s for x in words)`. */
  predicate MentionsAny(s: string, words: seq<string>) {
    exists k :: 0 <= k < |words| && Contains(s, words[k])
  }

  const BuyWords: seq<string> := ["Hammer", "Bullish Engulfing", "Morning Star"]

  const SellWords: seq<string> := ["Shooting Star", "Bearish Engulfing", "Evening Star"]

  /** The side a candlestick label votes for: the buy keywords are tried
      first, the sell keywords only when none of them occurs. */
  function CandleSide(candle: Option<CS.Label>): Option<SignalType> {
    match candle
    case None => None
    case Some(l) =>
      if MentionsAny(CS.Name(l), BuyWords) then Some(Buy)
      else if MentionsAny(CS.Name(l), SellWords) then Some(Sell)
      else None
  }

  /** `t` cannot occur in `s` when its `k`-th character is missing from
      every position of `s` where it would have to stand. */
  lemma Absent(s: string, t: string, k: nat)
    requires k < |t|
    requires forall j :: k <= j < |s| && j + |t| <= |s| + k ==> s[j] != t[k]
    ensures !Contains(s, t)
  {
    if i: nat :| i <= |s| && OccursAt(s, t, i) {
      assert s[i..i + |t|][k] == s[i + k];
    }
  }

  lemma Present(t: string)
    ensures Contains(t, t)
  {
    assert OccursAt(t, t, 0);
  }

  /** Each buy keyword occurs in exactly its own label's name. */
  lemma BuyWordsOf(l: CS.Label)
    ensures MentionsAny(CS.Name(l), BuyWords) <==> l.Hammer? || l.BullishEngulfing? || l.MorningStar?
  {
    var n := CS.Name(l);
    match l
    case Hammer => Present(n); assert Contains(n, BuyWords[0]);
    case BullishEngulfing => Present(n); assert Contains(n, BuyWords[1]);
    case MorningStar => Present(n); assert Contains(n, BuyWords[2]);
    case BearishEngulfing =>
      Absent(n, BuyWords[0], 0); Absent(n, BuyWords[1], 1); Absent(n, BuyWords[2], 0);
    case ShootingStar =>
      Absent(n, BuyWords[0], 0); Absent(n, BuyWords[1], 0); Absent(n, BuyWords[2], 0);
    case EveningStar =>
      Absent(n, BuyWords[0], 0); Absent(n, BuyWords[1], 0); Absent(n, BuyWords[2], 0);
    case Doji =>
      Absent(n, BuyWords[0], 0); Absent(n, BuyWords[1], 0); Absent(n, BuyWords[2], 0);
  }

  /** Each sell keyword occurs in exactly its own label's name. */
  lemma SellWordsOf(l: CS.Label)
    ensures MentionsAny(CS.Name(l), SellWords) <==> l.ShootingStar? || l.BearishEngulfing? || l.EveningStar?
  {
    var n := CS.Name(l);
    match l
    case ShootingStar => Present(n); assert Contains(n, SellWords[0]);
    case BearishEngulfing => Present(n); assert Contains(n, SellWords[1]);
    case EveningStar => Present(n); assert Contains(n, SellWords[2]);
    case BullishEngulfing =>
      Absent(n, SellWords[0], 0); Absent(n, SellWords[1], 1); Absent(n, SellWords[2], 0);
    case Hammer =>
      Absent(n, SellWords[0], 0); Absent(n, SellWords[1], 0); Absent(n, SellWords[2], 0);
    case MorningStar =>
      Absent(n, SellWords[0], 0); Absent(n, SellWords[1], 0); Absent(n, SellWords[2], 0);
    case Doji =>
      Absent(n, SellWords[0], 0); Absent(n, SellWords[1], 0); Absent(n, SellWords[2], 0);
  }

  /** Hammer, bullish engulfing and morning star vote buy; shooting star,
      bearish engulfing and evening star vote sell; a doji votes for
      neither side. */
  lemma CandleSideOf(l: CS.Label)
    ensures CandleSide(Some(l)) ==
      if l.Hammer? || l.BullishEngulfing? || l.MorningStar? then Some(Buy)
      else if l.ShootingStar? || l.BearishEngulfing? || l.EveningStar? then Some(Sell)
      else None
  {
    BuyWordsOf(l);
    SellWordsOf(l);
  }

  // ---------------------------------------------------------------------
  // Extremes over the level lists (Python's `max`/`min` with a key)

  /** `max(ls[..n], key=price)`: the first level of the highest price. */
  function HighestAt(ls: seq<SR.Level>, n: nat): (r: nat)
    requires 0 < n <= |ls|
    ensures r < n
    ensures forall i :: 0 <= i < n ==> ls[i].price <= ls[r].price
    ensures forall i :: 0 <= i < r ==> ls[i].price < ls[r].price
  {
    if n == 1 then 0
    else
      var j := HighestAt(ls, n - 1);
      if ls[n - 1].price > ls[j].price then n - 1 else j
  }

  /** `min(ls[..n], key=price)`: the first level of the lowest price. */
  function LowestAt(ls: seq<SR.Level>, n: nat): (r: nat)
    requires 0 < n <= |ls|
    ensures r < n
    ensures forall i :: 0 <= i < n ==> ls[r].price <= ls[i].price
    ensures forall i :: 0 <= i < r ==> ls[r].price < ls[i].price
  {
    if n == 1 then 0
    else
      var j := LowestAt(ls, n - 1);
      if ls[n - 1].price < ls[j].price then n - 1 else j
  }

  /** `max([l for l in ls[..n] if l.price < cur], key=price, default=None)`. */
  function HighestBelow(ls: seq<SR.Level>, cur: real, n: nat): (r: Option<nat>)
    requires n <= |ls|
    ensures r.Some? ==> r.value < n && ls[r.value].price < cur
    ensures r.Some? ==> forall i :: 0 <= i < n && ls[i].price < cur ==> ls[i].price <= ls[r.value].price
    ensures r.Some? ==> forall i :: 0 <= i < r.value && ls[i].price < cur ==> ls[i].price < ls[r.value].price
    ensures r.None? ==> forall i :: 0 <= i < n ==> ls[i].price >= cur
  {
    if n == 0 then None
    else
      var j := HighestBelow(ls, cur, n - 1);
      if ls[n - 1].price >= cur then j
      else match j
        case None => Some(n - 1)
        case Some(k) => if ls[n - 1].price > ls[k].price then Some(n - 1) else j
  }

  /** `min([l for l in ls[..n] if l.price > cur], key=price, default=None)`. */
  function LowestAbove(ls: seq<SR.Level>, cur: real, n: nat): (r: Option<nat>)
    requires n <= |ls|
    ensures r.Some? ==> r.value < n && ls[r.value].price > cur
    ensures r.Some? ==> forall i :: 0 <= i < n && ls[i].price > cur ==> ls[r.value].price <= ls[i].price
    ensures r.Some? ==> forall i :: 0 <= i < r.value && ls[i].price > cur ==> ls[r.value].price < ls[i].price
    ensures r.None? ==> forall i :: 0 <= i < n ==> ls[i].price <= cur
  {
    if n == 0 then None
    else
      var j := LowestAbove(ls, cur, n - 1);
      if ls[n - 1].price <= cur then j
      else match j
        case None => Some(n - 1)
        case Some(k) => if ls[n - 1].price < ls[k].price then Some(n - 1) else j
  }

  // ---------------------------------------------------------------------
  // The scores

  /** `|cur - price| / cur < 0.02` under floating-point division: a zero
      price gives infinity or NaN and the test fails. */
  predicate Within(cur: real, price: real) {
    cur != 0.0 && Abs(cur - price) / cur < 0.02
  }

  /** The highest-priced support, when it lies within 2 % of the price. */
  function SupportEvidence(ls: seq<SR.Level>, cur: real): (r: Option<SR.Level>)
    ensures r.Some? ==> r.value in ls && Within(cur, r.value.price)
    ensures r.Some? ==> forall i :: 0 <= i < |ls| ==> ls[i].price <= r.value.price
    ensures r.None? ==> |ls| == 0 || !Within(cur, ls[HighestAt(ls, |ls|)].price)
  {
    if |ls| == 0 then None
    else
      var nearest := ls[HighestAt(ls, |ls|)];
      if Within(cur, nearest.price) then Some(nearest) else None
  }

  /** The lowest-priced resistance, when it lies within 2 % of the price. */
  function ResistanceEvidence(ls: seq<SR.Level>, cur: real): (r: Option<SR.Level>)
    ensures r.Some? ==> r.value in ls && Within(cur, r.value.price)
    ensures r.Some? ==> forall i :: 0 <= i < |ls| ==> r.value.price <= ls[i].price
    ensures r.None? ==> |ls| == 0 || !Within(cur, ls[LowestAt(ls, |ls|)].price)
  {
    if |ls| == 0 then None
    else
      var nearest := ls[LowestAt(ls, |ls|)];
      if Within(cur, nearest.price) then Some(nearest) else None
  }

  /** The direction of the head-and-shoulders result, neutral when none. */
  function PatternDirection(hs: Option<Pattern>): Direction {
    if hs.Some? then hs.value.direction else Neutral
  }

  /** Scores and factors before the volume bonus. */
  datatype Tally = Tally(buy: real, sell: real, buyFactors: seq<Factor>, sellFactors: seq<Factor>)

  const NoEvidence := Tally(0.0, 0.0, [], [])

  /** Two pieces of evidence together: scores add, factor lists concatenate. */
  function Plus(a: Tally, b: Tally): Tally {
    Tally(a.buy + b.buy, a.sell + b.sell, a.buyFactors + b.buyFactors, a.sellFactors + b.sellFactors)
  }

  /** 0.3 for the side the label votes for. */
  function CandleTerm(candle: Option<CS.Label>): Tally {
    match candle
    case None => NoEvidence
    case Some(l) =>
      match CandleSide(candle)
      case Some(Buy) => Tally(0.3, 0.0, [CandleFactor(l)], [])
      case Some(Sell) => Tally(0.0, 0.3, [], [CandleFactor(l)])
      case None => NoEvidence
  }

  /** 0.2 times the strength of the highest support, when it is near. */
  function SupportTerm(ls: seq<SR.Level>, cur: real): Tally {
    match SupportEvidence(ls, cur)
    case None => NoEvidence
    case Some(l) => Tally(0.2 * l.strength, 0.0, [NearSupport(l.price)], [])
  }

  /** 0.2 times the strength of the lowest resistance, when it is near. */
  function ResistanceTerm(ls: seq<SR.Level>, cur: real): Tally {
    match ResistanceEvidence(ls, cur)
    case None => NoEvidence
    case Some(l) => Tally(0.0, 0.2 * l.strength, [], [NearResistance(l.price)])
  }

  /** 0.4 for the side of the head-and-shoulders pattern. */
  function PatternTerm(hs: Option<Pattern>): Tally {
    match PatternDirection(hs)
    case Bullish => Tally(0.4, 0.0, [InverseHeadShouldersFactor], [])
    case Bearish => Tally(0.0, 0.4, [], [HeadShouldersFactor])
    case Neutral => NoEvidence
  }

  /** The evidence: the four independent terms, in the order the generator
      examines them. */
  function Evidence(cur: real, candle: Option<CS.Label>, levels: SR.LevelSet, hs: Option<Pattern>): Tally {
    Plus(Plus(Plus(CandleTerm(candle), SupportTerm(levels.support, cur)),
              ResistanceTerm(levels.resistance, cur)),
         PatternTerm(hs))
  }

  /** The last volume above 1.1 times the mean of the last twenty; false
      below twenty bars. */
  function VolumeConfirms(s: seq<Bar>): bool {
    if |s| < 20 then false
    else s[|s| - 1].volume > Mean(Tail(Volumes(s), 20)) * 1.1
  }

  /** The volume test multiplied out: twenty times the last volume exceeds
      1.1 times the total volume of the last twenty bars. */
  lemma VolumeConfirmsRule(s: seq<Bar>)
    ensures |s| < 20 ==> !VolumeConfirms(s)
    ensures |s| >= 20 ==> (VolumeConfirms(s) <==>
      20.0 * s[|s| - 1].volume > 1.1 * Sum(Volumes(s)[|s| - 20..]))
  {
    if |s| >= 20 {
      TailIsSuffix(Volumes(s), 20);
      assert Tail(Volumes(s), 20) == Volumes(s)[|s| - 20..];
    }
  }

  /** The final scores: the volume bonus of 0.1 goes to buy when buy leads
      and to sell otherwise, ties included. */
  function FinalScores(t: Tally, vol: bool): (r: (real, real))
    ensures !vol ==> r == (t.buy, t.sell)
    ensures vol && t.buy > t.sell ==> r == (t.buy + 0.1, t.sell)
    ensures vol && t.buy <= t.sell ==> r == (t.buy, t.sell + 0.1)
  {
    if !vol then (t.buy, t.sell)
    else if t.buy > t.sell then (t.buy + 0.1, t.sell)
    else (t.buy, t.sell + 0.1)
  }

  // ---------------------------------------------------------------------
  // Stop-loss, take-profit and strength

  function StrengthOf(confidence: real): (r: Strength)
    ensures r == Strong <==> confidence > 0.8
    ensures r == Medium <==> 0.65 < confidence <= 0.8
    ensures r == Weak <==> confidence <= 0.65
  {
    if confidence > 0.8 then Strong
    else if confidence > 0.65 then Medium
    else Weak
  }

  /** 3 % beyond the entry, or 0.5 % beyond the nearest level on the
      protected side: the highest support below the entry for a buy, the
      lowest resistance above it for a sell. */
  function StopLoss(side: SignalType, levels: SR.LevelSet, cur: real): real {
    if side == Buy then
      match HighestBelow(levels.support, cur, |levels.support|)
      case None => cur * 0.97
      case Some(j) => levels.support[j].price * 0.995
    else
      match LowestAbove(levels.resistance, cur, |levels.resistance|)
      case None => cur * 1.03
      case Some(j) => levels.resistance[j].price * 1.005
  }

  /** The levels the targets are taken from: resistance for a buy, support
      for a sell. */
  function TargetLevels(side: SignalType, levels: SR.LevelSet): seq<SR.Level> {
    if side == Buy then levels.resistance else levels.support
  }

  /** A target price lies beyond the entry in the direction of the trade. */
  predicate Favourable(side: SignalType, price: real, cur: real) {
    if side == Buy then price > cur else price < cur
  }

  /** The target of the fallback: 5 % beyond the entry. */
  function Fallback(side: SignalType, cur: real): real {
    if side == Buy then cur * 1.05 else cur * 0.95
  }

  /** The pattern target, when there is a pattern and its target is not 0
      (a zero target is falsy in the generator). */
  function PatternTarget(hs: Option<Pattern>): Option<real> {
    if hs.Some? && hs.value.details.HeadShoulders? && hs.value.details.targetPrice != 0.0 then
      Some(hs.value.details.targetPrice)
    else None
  }

  /** The targets from the first `n` levels, in list order: a favourable
      level at position `i` gives probability 0.7 - 0.2 i. */
  function LevelTargets(ls: seq<SR.Level>, cur: real, n: nat, side: SignalType): seq<Target>
    requires n <= |ls|
  {
    if n == 0 then []
    else
      LevelTargets(ls, cur, n - 1, side) +
      if Favourable(side, ls[n - 1].price, cur) then [LevelTarget(ls, n - 1)] else []
  }

  function Front(ls: seq<SR.Level>): (n: nat)
    ensures n <= 2 && n <= |ls|
  {
    if |ls| < 2 then |ls| else 2
  }

  function TakeProfitOf(side: SignalType, levels: SR.LevelSet, cur: real, target: Option<real>): seq<Target> {
    var ls := TargetLevels(side, levels);
    var tp := LevelTargets(ls, cur, Front(ls), side) +
              if target.Some? then [Target(target.value, 0.6)] else [];
    if |tp| == 0 then [Target(Fallback(side, cur), 0.7)] else tp
  }

  /** One of the first two levels, favourable, at its list probability. */
  predicate IsLevelTarget(t: Target, ls: seq<SR.Level>, cur: real, side: SignalType) {
    exists i :: 0 <= i < |ls| && i < 2 && Favourable(side, ls[i].price, cur) && t == LevelTarget(ls, i)
  }

  function IndicatorsOf(factors: seq<Factor>, levels: SR.LevelSet, hs: Option<Pattern>, vol: bool): Indicators {
    Indicators(if |factors| > 0 then Some(factors[0]) else None,
               if |levels.support| > 0 then Some(levels.support[0].price) else None,
               if |levels.resistance| > 0 then Some(levels.resistance[0].price) else None,
               vol, hs.Some?)
  }

  function SignalOf(side: SignalType, cur: real, confidence: real, factors: seq<Factor>,
                    levels: SR.LevelSet, hs: Option<Pattern>, vol: bool): Signal {
    Signal(side, StrengthOf(confidence), cur, StopLoss(side, levels, cur),
           TakeProfitOf(side, levels, cur, PatternTarget(hs)),
           IndicatorsOf(factors, levels, hs, vol), confidence)
  }

  // ---------------------------------------------------------------------
  // The decision

  /** A signal for the side whose final score is strictly higher and above
      0.5; none otherwise. */
  function DecisionOf(t: Tally, vol: bool, cur: real, levels: SR.LevelSet, hs: Option<Pattern>): Option<Signal> {
    var scores := FinalScores(t, vol);
    var buy, sell := scores.0, scores.1;
    if buy > sell && buy > 0.5 then Some(SignalOf(Buy, cur, buy, t.buyFactors, levels, hs, vol))
    else if sell > buy && sell > 0.5 then Some(SignalOf(Sell, cur, sell, t.sellFactors, levels, hs, vol))
    else None
  }

  /** The decision on the evidence of the four analyzers and the volume. */
  function EvaluateOf(s: seq<Bar>, cur: real, candle: Option<CS.Label>, levels: SR.LevelSet,
                      hs: Option<Pattern>): Option<Signal> {
    DecisionOf(Evidence(cur, candle, levels, hs), VolumeConfirms(s), cur, levels, hs)
  }

  /** The generator with its own default-configured analyzers: nothing
      below a hundred bars, and nothing whose confidence is under the
      threshold. */
  function GenerateSignalOf(s: seq<Bar>, peaks: seq<nat>, troughs: seq<nat>, minConfidence: real,
                            asset: string, timeframe: string): Option<Report>
    requires Swings(peaks, |s|) && Swings(troughs, |s|)
  {
    if |s| < MinBars then None
    else
      var cur := s[|s| - 1].close;
      var candle := CS.Analyze(s);
      var levels := SR.FindLevels(s, SR.DefaultConfig);
      var hs := HS.DetectOf(s, peaks, troughs, HS.DefaultConfig);
      match EvaluateOf(s, cur, candle, levels, hs)
      case None => None
      case Some(sig) =>
        if sig.confidence < minConfidence then None
        else Some(Report(sig, asset, timeframe, cur))
  }

  // ---------------------------------------------------------------------
  // The generator, step by step

  /** The take-profit list, built by appending while scanning the first
      two levels. */
  method TakeProfit(side: SignalType, levels: SR.LevelSet, cur: real, target: Option<real>)
    returns (tp: seq<Target>)
    ensures tp == TakeProfitOf(side, levels, cur, target)
  {
    var ls := TargetLevels(side, levels);
    tp := [];
    for i := 0 to Front(ls)
      invariant tp == LevelTargets(ls, cur, i, side)
    {
      if Favourable(side, ls[i].price, cur) {
        tp := tp + [Target(ls[i].price, 0.7 - (i as real) * 0.2)];
      }
    }
    if target.Some? {
      tp := tp + [Target(target.value, 0.6)];
    }
    if |tp| == 0 {
      tp := [Target(Fallback(side, cur), 0.7)];
    }
  }

  /** The buy and sell signal builders, which differ only in the side. */
  method CreateSignal(side: SignalType, cur: real, confidence: real, factors: seq<Factor>,
                      levels: SR.LevelSet, hs: Option<Pattern>, vol: bool) returns (sig: Signal)
    ensures sig == SignalOf(side, cur, confidence, factors, levels, hs, vol)
  {
    var stop := StopLoss(side, levels, cur);
    var tp := TakeProfit(side, levels, cur, PatternTarget(hs));
    sig := Signal(side, StrengthOf(confidence), cur, stop, tp,
                  IndicatorsOf(factors, levels, hs, vol), confidence);
  }

  /** The candle's vote, the first step of the scoring. */
  method ScoreCandle(candle: Option<CS.Label>) returns (t: Tally)
    ensures t == CandleTerm(candle)
  {
    t := NoEvidence;
    if candle.Some? {
      var name := CS.Name(candle.value);
      if MentionsAny(name, BuyWords) {
        t := t.(buy := t.buy + 0.3, buyFactors := t.buyFactors + [CandleFactor(candle.value)]);
      } else if MentionsAny(name, SellWords) {
        t := t.(sell := t.sell + 0.3, sellFactors := t.sellFactors + [CandleFactor(candle.value)]);
      }
    }
  }

  /** The highest support, added to the buy side when it is near. */
  method ScoreSupport(t0: Tally, ls: seq<SR.Level>, cur: real) returns (t: Tally)
    ensures t == Plus(t0, SupportTerm(ls, cur))
  {
    t := t0;
    if |ls| > 0 {
      var nearest := ls[HighestAt(ls, |ls|)];
      if Within(cur, nearest.price) {
        t := t.(buy := t.buy + 0.2 * nearest.strength, buyFactors := t.buyFactors + [NearSupport(nearest.price)]);
      }
    }
    assert t.sellFactors == t0.sellFactors + [];
  }

  /** The lowest resistance, added to the sell side when it is near. */
  method ScoreResistance(t0: Tally, ls: seq<SR.Level>, cur: real) returns (t: Tally)
    ensures t == Plus(t0, ResistanceTerm(ls, cur))
  {
    t := t0;
    if |ls| > 0 {
      var nearest := ls[LowestAt(ls, |ls|)];
      if Within(cur, nearest.price) {
        t := t.(sell := t.sell + 0.2 * nearest.strength, sellFactors := t.sellFactors + [NearResistance(nearest.price)]);
      }
    }
    assert t.buyFactors == t0.buyFactors + [];
  }

  /** The head-and-shoulders vote. */
  method ScorePattern(t0: Tally, hs: Option<Pattern>) returns (t: Tally)
    ensures t == Plus(t0, PatternTerm(hs))
  {
    t := t0;
    if hs.Some? {
      if hs.value.direction == Bullish {
        t := t.(buy := t.buy + 0.4, buyFactors := t.buyFactors + [InverseHeadShouldersFactor]);
      } else if hs.value.direction == Bearish {
        t := t.(sell := t.sell + 0.4, sellFactors := t.sellFactors + [HeadShouldersFactor]);
      }
    }
    assert t.buyFactors == t0.buyFactors + [] || t.sellFactors == t0.sellFactors + [];
  }

  /** The volume bonus and the decision on the accumulated evidence. */
  method Decide(t: Tally, vol: bool, cur: real, levels: SR.LevelSet, hs: Option<Pattern>)
    returns (r: Option<Signal>)
    ensures r == DecisionOf(t, vol, cur, levels, hs)
  {
    var buy, sell := t.buy, t.sell;
    if vol {
      if buy > sell {
        buy := buy + 0.1;
      } else {
        sell := sell + 0.1;
      }
    }
    if buy > sell && buy > 0.5 {
      var sig := CreateSignal(Buy, cur, buy, t.buyFactors, levels, hs, vol);
      return Some(sig);
    } else if sell > buy && sell > 0.5 {
      var sig := CreateSignal(Sell, cur, sell, t.sellFactors, levels, hs, vol);
      return Some(sig);
    }
    return None;
  }

  /** The scores accumulated step by step, then the decision. */
  method EvaluateSignals(s: seq<Bar>, cur: real, candle: Option<CS.Label>, levels: SR.LevelSet,
                         hs: Option<Pattern>) returns (r: Option<Signal>)
    ensures r == EvaluateOf(s, cur, candle, levels, hs)
  {
    var t := ScoreCandle(candle);
    t := ScoreSupport(t, levels.support, cur);
    t := ScoreResistance(t, levels.resistance, cur);
    t := ScorePattern(t, hs);
    var vol := VolumeConfirms(s);
    r := Decide(t, vol, cur, levels, hs);
  }

  method GenerateSignal(s: seq<Bar>, peaks: seq<nat>, troughs: seq<nat>, minConfidence: real,
                        asset: string, timeframe: string) returns (r: Option<Report>)
    requires Swings(peaks, |s|) && Swings(troughs, |s|)
    ensures r == GenerateSignalOf(s, peaks, troughs, minConfidence, asset, timeframe)
  {
    if |s| < MinBars {
      return None;
    }
    var cur := s[|s| - 1].close;
    var candle := CS.Analyze(s);
    var levels := SR.FindLevels(s, SR.DefaultConfig);
    var hs := HS.Detect(s, peaks, troughs, HS.DefaultConfig);
    var data := EvaluateSignals(s, cur, candle, levels, hs);
    if data.None? || data.value.confidence < minConfidence {
      return None;
    }
    r := Some(Report(data.value, asset, timeframe, cur));
  }

  // ---------------------------------------------------------------------
  // What a signal guarantees

  /** A signal is emitted exactly when one final score is strictly higher
      than the other and above 0.5; its side is that score's and its
      confidence is that score. Equal scores never give a signal. */
  lemma DecisionRule(s: seq<Bar>, cur: real, candle: Option<CS.Label>, levels: SR.LevelSet, hs: Option<Pattern>)
    ensures var scores := FinalScores(Evidence(cur, candle, levels, hs), VolumeConfirms(s));
      var buy, sell, r := scores.0, scores.1, EvaluateOf(s, cur, candle, levels, hs);
      (r.Some? && r.value.kind == Buy <==> buy > sell && buy > 0.5) &&
      (r.Some? && r.value.kind == Sell <==> sell > buy && sell > 0.5) &&
      (r.Some? ==> r.value.confidence == Max(buy, sell) && r.value.confidence > 0.5) &&
      (buy == sell ==> r.None?)
  {
  }

  /** The candle adds 0.3 to the side it votes for and nothing to the
      other, so to at most one side; a doji (or no candle) adds nothing.
      Its factor is the only one it contributes and comes first in its
      side's list. */
  lemma CandleEvidence(cur: real, candle: Option<CS.Label>, levels: SR.LevelSet, hs: Option<Pattern>)
    ensures var t, side, c := Evidence(cur, candle, levels, hs), CandleSide(candle), CandleTerm(candle);
      c.buy == (if side == Some(Buy) then 0.3 else 0.0) &&
      c.sell == (if side == Some(Sell) then 0.3 else 0.0) &&
      (c.buy == 0.0 || c.sell == 0.0) &&
      (side == Some(Buy) ==> c.buyFactors == [CandleFactor(candle.value)] && c.sellFactors == []) &&
      (side == Some(Sell) ==> c.sellFactors == [CandleFactor(candle.value)] && c.buyFactors == []) &&
      (side.None? ==> c == NoEvidence) &&
      (candle.None? || candle.value.Doji? ==> side.None?) &&
      (side == Some(Buy) ==> CandleFactor(candle.value) == t.buyFactors[0]) &&
      (side == Some(Sell) ==> CandleFactor(candle.value) == t.sellFactors[0])
  {
    if candle.Some? {
      CandleSideOf(candle.value);
      var c := CandleTerm(candle);
      var t1 := Plus(c, SupportTerm(levels.support, cur));
      var t2 := Plus(t1, ResistanceTerm(levels.resistance, cur));
      var side := CandleSide(candle);
      if side == Some(Buy) {
        assert c.buyFactors == [CandleFactor(candle.value)];
        assert t1.buyFactors[0] == c.buyFactors[0];
        assert t2.buyFactors[0] == t1.buyFactors[0];
      } else if side == Some(Sell) {
        assert c.sellFactors == [CandleFactor(candle.value)];
        assert t1.sellFactors[0] == c.sellFactors[0];
        assert t2.sellFactors[0] == t1.sellFactors[0];
      }
    }
  }

  /** With level strengths at most 1 the scores are at most 1.0 each:
      0.3 + 0.2 + 0.4 of evidence and 0.1 of volume bonus; a signal's
      confidence therefore lies in (0.5, 1]. */
  lemma ConfidenceBounded(s: seq<Bar>, cur: real, candle: Option<CS.Label>, levels: SR.LevelSet, hs: Option<Pattern>)
    requires forall l :: l in levels.support ==> l.strength <= 1.0
    requires forall l :: l in levels.resistance ==> l.strength <= 1.0
    ensures var r := EvaluateOf(s, cur, candle, levels, hs);
      r.Some? ==> 0.5 < r.value.confidence <= 1.0
  {
    var c, sup, res, pat := CandleTerm(candle), SupportTerm(levels.support, cur),
                            ResistanceTerm(levels.resistance, cur), PatternTerm(hs);
    assert c.buy <= 0.3 && c.sell <= 0.3;
    assert sup.buy <= 0.2 && sup.sell == 0.0;
    assert res.buy == 0.0 && res.sell <= 0.2;
    assert pat.buy <= 0.4 && pat.sell <= 0.4;
    DecisionBounded(Evidence(cur, candle, levels, hs), VolumeConfirms(s), cur, levels, hs);
  }

  /** Evidence of at most 0.9 a side gives a confidence of at most 1. */
  lemma DecisionBounded(t: Tally, vol: bool, cur: real, levels: SR.LevelSet, hs: Option<Pattern>)
    requires t.buy <= 0.9 && t.sell <= 0.9
    ensures var r := DecisionOf(t, vol, cur, levels, hs);
      r.Some? ==> 0.5 < r.value.confidence <= 1.0
  {
  }

  /** When the evidence is level, a confirming volume always breaks the
      tie towards sell: the result is a sell signal or nothing. */
  lemma TieGoesToSell(s: seq<Bar>, cur: real, candle: Option<CS.Label>, levels: SR.LevelSet, hs: Option<Pattern>)
    requires Evidence(cur, candle, levels, hs).buy == Evidence(cur, candle, levels, hs).sell
    requires VolumeConfirms(s)
    ensures var r := EvaluateOf(s, cur, candle, levels, hs);
      (r.Some? <==> Evidence(cur, candle, levels, hs).sell + 0.1 > 0.5) &&
      (r.Some? ==> r.value.kind == Sell)
  {
  }

  /** For a positive entry the stop-loss is on the protecting side: below
      the entry for a buy, above it for a sell. It sits 3 % away when no
      level is on that side, and otherwise 0.5 % beyond the nearest such
      level. */
  lemma StopLossPlacement(side: SignalType, levels: SR.LevelSet, cur: real)
    requires cur > 0.0
    ensures var stop, sup, res := StopLoss(side, levels, cur), levels.support, levels.resistance;
      (side == Buy ==> stop < cur) && (side == Sell ==> stop > cur) &&
      (side == Buy && (forall i :: 0 <= i < |sup| ==> sup[i].price >= cur) ==> stop == cur * 0.97) &&
      (side == Sell && (forall i :: 0 <= i < |res| ==> res[i].price <= cur) ==> stop == cur * 1.03) &&
      (side == Buy && (exists i :: 0 <= i < |sup| && sup[i].price < cur) ==>
        exists j :: 0 <= j < |sup| && sup[j].price < cur && stop == sup[j].price * 0.995 &&
          forall i :: 0 <= i < |sup| && sup[i].price < cur ==> sup[i].price <= sup[j].price) &&
      (side == Sell && (exists i :: 0 <= i < |res| && res[i].price > cur) ==>
        exists j :: 0 <= j < |res| && res[j].price > cur && stop == res[j].price * 1.005 &&
          forall i :: 0 <= i < |res| && res[i].price > cur ==> res[j].price <= res[i].price)
  {
    var sup, res := levels.support, levels.resistance;
    if side == Buy {
      match HighestBelow(sup, cur, |sup|)
      case None =>
      case Some(j) =>
        var p := sup[j].price;
        if p > 0.0 {
          assert p * 0.995 < p;
        }
    } else {
      match LowestAbove(res, cur, |res|)
      case None =>
      case Some(j) =>
        assert res[j].price * 1.005 > res[j].price;
    }
  }

  /** The target a level at position `i` gives. */
  function LevelTarget(ls: seq<SR.Level>, i: nat): Target
    requires i < |ls|
  {
    Target(ls[i].price, 0.7 - (i as real) * 0.2)
  }

  /** The level targets of the first `n` levels: at most `n` of them, each
      a favourable level among the first `n` at its list probability, with
      probabilities strictly falling along the list (list order). */
  lemma {:induction false} LevelTargetsSound(ls: seq<SR.Level>, cur: real, n: nat, side: SignalType)
    requires n <= |ls| && n <= 2
    ensures var tp := LevelTargets(ls, cur, n, side);
      |tp| <= n &&
      (forall k :: 0 <= k < |tp| ==> IsLevelTarget(tp[k], ls, cur, side)) &&
      (forall k :: 0 <= k < |tp| ==> tp[k].probability > 0.7 - (n as real) * 0.2) &&
      (forall j, k :: 0 <= j < k < |tp| ==> tp[j].probability > tp[k].probability)
  {
    if n > 0 {
      LevelTargetsSound(ls, cur, n - 1, side);
      var tp := LevelTargets(ls, cur, n, side);
      var init := LevelTargets(ls, cur, n - 1, side);
      if Favourable(side, ls[n - 1].price, cur) {
        var last := LevelTarget(ls, n - 1);
        assert tp == init + [last];
        assert last.probability == 0.7 - ((n - 1) as real) * 0.2;
        assert IsLevelTarget(last, ls, cur, side);
        assert forall k :: 0 <= k < |init| ==> tp[k] == init[k];
      } else {
        assert tp == init;
      }
    }
  }

  /** Every favourable level among the first `n` gives its target, so there
      is none exactly when no such level is favourable. */
  lemma {:induction false} LevelTargetsComplete(ls: seq<SR.Level>, cur: real, n: nat, side: SignalType)
    requires n <= |ls|
    ensures var tp := LevelTargets(ls, cur, n, side);
      (forall i :: 0 <= i < n && Favourable(side, ls[i].price, cur) ==> LevelTarget(ls, i) in tp) &&
      (|tp| == 0 <==> forall i :: 0 <= i < n ==> !Favourable(side, ls[i].price, cur))
  {
    if n > 0 {
      LevelTargetsComplete(ls, cur, n - 1, side);
      var tp := LevelTargets(ls, cur, n, side);
      var init := LevelTargets(ls, cur, n - 1, side);
      if Favourable(side, ls[n - 1].price, cur) {
        assert tp == init + [LevelTarget(ls, n - 1)];
        assert tp[|tp| - 1] == LevelTarget(ls, n - 1);
        forall i | 0 <= i < n - 1 && Favourable(side, ls[i].price, cur)
          ensures LevelTarget(ls, i) in tp
        {
          var m :| 0 <= m < |init| && init[m] == LevelTarget(ls, i);
          assert tp[m] == init[m];
        }
      } else {
        assert tp == init;
      }
    }
  }

  /** The level targets of the first `n` levels: at most `n` of them, each
      a favourable level among the first `n` at its list probability; every
      favourable level among them is present, once and in list order
      (probabilities strictly fall along the list); none exactly when no
      such level is favourable. */
  lemma LevelTargetsShape(ls: seq<SR.Level>, cur: real, n: nat, side: SignalType)
    requires n <= |ls| && n <= 2
    ensures var tp := LevelTargets(ls, cur, n, side);
      |tp| <= n &&
      (forall k :: 0 <= k < |tp| ==> IsLevelTarget(tp[k], ls, cur, side)) &&
      (forall i :: 0 <= i < n && Favourable(side, ls[i].price, cur) ==> LevelTarget(ls, i) in tp) &&
      (forall j, k :: 0 <= j < k < |tp| ==> tp[j].probability > tp[k].probability) &&
      (|tp| == 0 <==> forall i :: 0 <= i < n ==> !Favourable(side, ls[i].price, cur))
  {
    LevelTargetsSound(ls, cur, n, side);
    LevelTargetsComplete(ls, cur, n, side);
  }

  /** The take-profit list has one to three entries: favourable levels
      among the first two at their list probabilities, then the pattern
      target at 0.6 and only last; and the 5 % fallback at 0.7 when there
      is neither. */
  lemma TakeProfitShape(side: SignalType, levels: SR.LevelSet, cur: real, target: Option<real>)
    ensures var tp, ls := TakeProfitOf(side, levels, cur, target), TargetLevels(side, levels);
      var none := target.None? && forall i :: 0 <= i < |ls| && i < 2 ==> !Favourable(side, ls[i].price, cur);
      1 <= |tp| <= 3 &&
      (none ==> tp == [Target(Fallback(side, cur), 0.7)]) &&
      (!none ==> forall k :: 0 <= k < |tp| - (if target.Some? then 1 else 0) ==>
        IsLevelTarget(tp[k], ls, cur, side)) &&
      (forall i :: 0 <= i < |ls| && i < 2 && Favourable(side, ls[i].price, cur) ==> LevelTarget(ls, i) in tp) &&
      (!none ==> forall j, k :: 0 <= j < k < |tp| - (if target.Some? then 1 else 0) ==>
        tp[j].probability > tp[k].probability) &&
      (target.Some? ==> tp[|tp| - 1] == Target(target.value, 0.6))
  {
    var ls := TargetLevels(side, levels);
    var n := Front(ls);
    LevelTargetsShape(ls, cur, n, side);
    var lt := LevelTargets(ls, cur, n, side);
    var tp := TakeProfitOf(side, levels, cur, target);
    if |lt| > 0 || target.Some? {
      assert tp == lt + if target.Some? then [Target(target.value, 0.6)] else [];
      assert forall k :: 0 <= k < |lt| ==> tp[k] == lt[k];
      forall i | 0 <= i < |ls| && i < 2 && Favourable(side, ls[i].price, cur)
        ensures LevelTarget(ls, i) in tp
      {
        assert LevelTarget(ls, i) in lt;
      }
    }
  }

  /** A reported signal: none below a hundred bars; otherwise its
      confidence is at least the threshold, above 0.5 and at most 1 (the
      levels come from the analyzer, whose strengths are at most 1), it was
      computed at the last close, which is also its entry. */
  lemma GeneratedSignal(s: seq<Bar>, peaks: seq<nat>, troughs: seq<nat>, minConfidence: real,
                        asset: string, timeframe: string)
    requires Swings(peaks, |s|) && Swings(troughs, |s|)
    ensures var r := GenerateSignalOf(s, peaks, troughs, minConfidence, asset, timeframe);
      (|s| < MinBars ==> r.None?) &&
      (r.Some? ==> minConfidence <= r.value.signal.confidence && 0.5 < r.value.signal.confidence <= 1.0) &&
      (r.Some? ==> r.value.currentPrice == s[|s| - 1].close == r.value.signal.entry) &&
      (r.Some? ==> r.value.asset == asset && r.value.timeframe == timeframe)
  {
    if |s| >= MinBars {
      var cur := s[|s| - 1].close;
      var candle := CS.Analyze(s);
      var levels := SR.FindLevels(s, SR.DefaultConfig);
      var hs := HS.DetectOf(s, peaks, troughs, HS.DefaultConfig);
      SR.FindLevelsProperties(s, SR.DefaultConfig);
      ConfidenceBounded(s, cur, candle, levels, hs);
      DecisionRule(s, cur, candle, levels, hs);
      var e := EvaluateOf(s, cur, candle, levels, hs);
      var r := GenerateSignalOf(s, peaks, troughs, minConfidence, asset, timeframe);
      assert r.Some? ==> e.Some? && r.value == Report(e.value, asset, timeframe, cur);
    }
  }

  /** For a positive entry a decided buy has its stop below the entry and
      a decided sell above it, whatever the evidence. */
  lemma DecisionStopSide(t: Tally, vol: bool, cur: real, levels: SR.LevelSet, hs: Option<Pattern>)
    requires cur > 0.0
    ensures var r := DecisionOf(t, vol, cur, levels, hs);
      r.Some? ==> (r.value.kind == Buy ==> r.value.stopLoss < cur) &&
                  (r.value.kind == Sell ==> r.value.stopLoss > cur) &&
                  r.value.entry == cur
  {
    StopLossPlacement(Buy, levels, cur);
    StopLossPlacement(Sell, levels, cur);
  }

  /** When the last close is positive (as on any valid series) a reported
      buy has its stop below the entry and a reported sell above it. */
  lemma GeneratedStopSide(s: seq<Bar>, peaks: seq<nat>, troughs: seq<nat>, minConfidence: real,
                          asset: string, timeframe: string)
    requires Swings(peaks, |s|) && Swings(troughs, |s|)
    requires |s| == 0 || s[|s| - 1].close > 0.0
    ensures var r := GenerateSignalOf(s, peaks, troughs, minConfidence, asset, timeframe);
      r.Some? ==> (r.value.signal.kind == Buy ==> r.value.signal.stopLoss < r.value.signal.entry) &&
                  (r.value.signal.kind == Sell ==> r.value.signal.stopLoss > r.value.signal.entry)
  {
    if |s| >= MinBars {
      var cur := s[|s| - 1].close;
      var candle := CS.Analyze(s);
      var levels := SR.FindLevels(s, SR.DefaultConfig);
      var hs := HS.DetectOf(s, peaks, troughs, HS.DefaultConfig);
      var e := EvaluateOf(s, cur, candle, levels, hs);
      assert e == DecisionOf(Evidence(cur, candle, levels, hs), VolumeConfirms(s), cur, levels, hs);
      DecisionStopSide(Evidence(cur, candle, levels, hs), VolumeConfirms(s), cur, levels, hs);
      var r := GenerateSignalOf(s, peaks, troughs, minConfidence, asset, timeframe);
      assert r.Some? ==> e.Some? && r.value.signal == e.value && r.value.signal.entry == cur;
    }
  }
}

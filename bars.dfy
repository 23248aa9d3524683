/** The bar series shared by every detector: one OHLCV record per interval,
    its column projections, and the window statistics (sums, means, extrema,
    volume checks) the detectors compute over it. */
module Bars {

  datatype Option<T> = None | Some(value: T)

  /** One OHLCV observation. Timestamps order the series but no detector
      reads them, so only the position in the sequence is kept. */
  datatype Bar = Bar(open: real, high: real, low: real, close: real, volume: real)

  /** The bar invariants of the data source, with strictly positive prices
      (several detectors divide by a price). */
  predicate ValidBar(b: Bar) {
    0.0 < b.low && b.low <= b.open && b.low <= b.close &&
    b.open <= b.high && b.close <= b.high && 0.0 <= b.volume
  }

  predicate ValidSeries(s: seq<Bar>) {
    forall i :: 0 <= i < |s| ==> ValidBar(s[i])
  }

  function Abs(x: real): real {
    if x < 0.0 then -x else x
  }

  function Min(a: real, b: real): real {
    if b < a then b else a
  }

  function Max(a: real, b: real): real {
    if b > a then b else a
  }

  function Highs(s: seq<Bar>): (r: seq<real>)
    ensures |r| == |s| && forall i {:trigger r[i]} :: 0 <= i < |s| ==> r[i] == s[i].high
  {
    if |s| == 0 then [] else Highs(s[..|s| - 1]) + [s[|s| - 1].high]
  }

  function Lows(s: seq<Bar>): (r: seq<real>)
    ensures |r| == |s| && forall i {:trigger r[i]} :: 0 <= i < |s| ==> r[i] == s[i].low
  {
    if |s| == 0 then [] else Lows(s[..|s| - 1]) + [s[|s| - 1].low]
  }

  function Closes(s: seq<Bar>): (r: seq<real>)
    ensures |r| == |s| && forall i {:trigger r[i]} :: 0 <= i < |s| ==> r[i] == s[i].close
  {
    if |s| == 0 then [] else Closes(s[..|s| - 1]) + [s[|s| - 1].close]
  }

  function Volumes(s: seq<Bar>): (r: seq<real>)
    ensures |r| == |s| && forall i {:trigger r[i]} :: 0 <= i < |s| ==> r[i] == s[i].volume
  {
    if |s| == 0 then [] else Volumes(s[..|s| - 1]) + [s[|s| - 1].volume]
  }

  /** The last `k` elements, or all of them when there are fewer (pandas `tail`). */
  function Tail<T>(s: seq<T>, k: nat): (r: seq<T>)
    ensures |r| == if k < |s| then k else |s|
  {
    if k < |s| then s[|s| - k..] else s
  }

  lemma TailIsSuffix<T>(s: seq<T>, k: nat)
    ensures Tail(s, k) == s[|s| - |Tail(s, k)|..]
  {
  }

  /** The most recent bars of a well-formed series are well formed. */
  lemma TailValid(s: seq<Bar>, k: nat)
    requires ValidSeries(s)
    ensures ValidSeries(Tail(s, k))
  {
    TailIsSuffix(s, k);
  }

  function Sum(xs: seq<real>): real {
    if |xs| == 0 then 0.0 else Sum(xs[..|xs| - 1]) + xs[|xs| - 1]
  }

  function Mean(xs: seq<real>): real
    requires |xs| > 0
  {
    Sum(xs) / (|xs| as real)
  }

  /** Smallest element (numpy `min`, pandas `idxmin` followed by a lookup). */
  function SeqMin(xs: seq<real>): real
    requires |xs| > 0
  {
    if |xs| == 1 then xs[0] else Min(SeqMin(xs[..|xs| - 1]), xs[|xs| - 1])
  }

  /** Largest element (numpy `max`, pandas `idxmax` followed by a lookup). */
  function SeqMax(xs: seq<real>): real
    requires |xs| > 0
  {
    if |xs| == 1 then xs[0] else Max(SeqMax(xs[..|xs| - 1]), xs[|xs| - 1])
  }

  /** The minimum is one of the elements and no element is smaller. */
  lemma {:induction false} SeqMinIsLeast(xs: seq<real>)
    requires |xs| > 0
    ensures SeqMin(xs) in xs
    ensures forall i :: 0 <= i < |xs| ==> SeqMin(xs) <= xs[i]
  {
    if |xs| > 1 {
      var init := xs[..|xs| - 1];
      SeqMinIsLeast(init);
      assert forall i :: 0 <= i < |init| ==> init[i] == xs[i];
    }
  }

  /** The maximum is one of the elements and no element is larger. */
  lemma {:induction false} SeqMaxIsGreatest(xs: seq<real>)
    requires |xs| > 0
    ensures SeqMax(xs) in xs
    ensures forall i :: 0 <= i < |xs| ==> xs[i] <= SeqMax(xs)
  {
    if |xs| > 1 {
      var init := xs[..|xs| - 1];
      SeqMaxIsGreatest(init);
      assert forall i :: 0 <= i < |init| ==> init[i] == xs[i];
    }
  }

  /** The pattern-window volume test shared by the head-and-shoulders and
      double top/bottom detectors: the mean volume of bars `lo..hi`
      (both included) exceeds 0.8 times the mean volume of the whole series. */
  function WindowVolumeConfirms(s: seq<Bar>, lo: nat, hi: nat): bool
    requires lo <= hi < |s|
  {
    Mean(Volumes(s)[lo..hi + 1]) > Mean(Volumes(s)) * 0.8
  }

  /** Over the whole series the window volume test holds exactly when the
      mean volume is positive. */
  lemma WholeWindowVolume(s: seq<Bar>)
    requires |s| > 0
    ensures WindowVolumeConfirms(s, 0, |s| - 1) <==> Mean(Volumes(s)) > 0.0
  {
    assert Volumes(s)[0..|s|] == Volumes(s);
  }

  /** Volumes of a valid series are never negative, so neither are their sums. */
  lemma {:induction false} SumNonNegative(xs: seq<real>)
    requires forall i :: 0 <= i < |xs| ==> 0.0 <= xs[i]
    ensures 0.0 <= Sum(xs)
  {
    if |xs| > 0 {
      SumNonNegative(xs[..|xs| - 1]);
    }
  }
}

/** Support and resistance levels: a greedy bucketing of the series' lows
    (highs), one level per bucket touched often enough, ranked by strength
    with a stable sort and cut to five; and the two-bar breakout test. */
module Levels {
  import opened Bars

  const MinSeries: nat := 20
  const MaxLevels: nat := 5

  /** Configuration of the analyzer; the defaults are 2 touches and 0.5 %. */
  datatype Config = Config(minTouches: nat, tolerance: real)

  const DefaultConfig := Config(2, 0.005)

  /** One entry of the insertion-ordered price dictionary: a key price and
      the bar indices appended to it. */
  datatype Bucket = Bucket(key: real, indices: seq<nat>)

  /** `|x - key| / key <= tolerance` under floating-point division: with a
      zero key the quotient is infinite or NaN and the test fails. */
  predicate Near(x: real, key: real, tol: real) {
    key != 0.0 && Abs(x - key) / key <= tol
  }

  // ---------------------------------------------------------------------
  // Greedy bucketing, as a specification

  /** The first bucket, in creation order, whose key is near `x`. */
  function FirstNear(bs: seq<Bucket>, x: real, tol: real): (r: Option<nat>)
    ensures r.Some? ==> r.value < |bs| && Near(x, bs[r.value].key, tol)
    ensures r.Some? ==> forall k {:trigger Near(x, bs[k].key, tol)} :: 0 <= k < r.value ==> !Near(x, bs[k].key, tol)
    ensures r.None? ==> forall k {:trigger Near(x, bs[k].key, tol)} :: 0 <= k < |bs| ==> !Near(x, bs[k].key, tol)
  {
    if |bs| == 0 then None
    else if Near(x, bs[0].key, tol) then Some(0)
    else match FirstNear(bs[1..], x, tol)
      case None => None
      case Some(k) => Some(k + 1)
  }

  /** The bucket whose key is exactly `x` (dictionary lookup). */
  function KeyIndex(bs: seq<Bucket>, x: real): (r: Option<nat>)
    ensures r.Some? ==> r.value < |bs| && bs[r.value].key == x
    ensures r.None? ==> forall k :: 0 <= k < |bs| ==> bs[k].key != x
  {
    if |bs| == 0 then None
    else if bs[0].key == x then Some(0)
    else match KeyIndex(bs[1..], x)
      case None => None
      case Some(k) => Some(k + 1)
  }

  function AppendAt(bs: seq<Bucket>, k: nat, i: nat): (r: seq<Bucket>)
    requires k < |bs|
    ensures |r| == |bs|
  {
    bs[k := Bucket(bs[k].key, bs[k].indices + [i])]
  }

  /** Bar `i` with price `x`: appended to the first near key; otherwise to
      the key equal to `x`, created if there is none. */
  function Place(bs: seq<Bucket>, x: real, i: nat, tol: real): seq<Bucket> {
    match FirstNear(bs, x, tol)
    case Some(k) => AppendAt(bs, k, i)
    case None =>
      match KeyIndex(bs, x)
      case Some(k) => AppendAt(bs, k, i)
      case None => bs + [Bucket(x, [i])]
  }

  /** The buckets after the first `n` prices. */
  function GroupPrefix(xs: seq<real>, n: nat, tol: real): seq<Bucket>
    requires n <= |xs|
  {
    if n == 0 then [] else Place(GroupPrefix(xs, n - 1, tol), xs[n - 1], n - 1, tol)
  }

  function Group(xs: seq<real>, tol: real): seq<Bucket> {
    GroupPrefix(xs, |xs|, tol)
  }

  // ---------------------------------------------------------------------
  // Greedy bucketing, as the analyzer runs it

  /** The outer loop of the analyzer: each price is placed in turn. */
  method GroupPrices(xs: seq<real>, tol: real) returns (groups: seq<Bucket>)
    ensures groups == Group(xs, tol)
  {
    groups := [];
    var i := 0;
    while i < |xs|
      invariant 0 <= i <= |xs|
      invariant groups == GroupPrefix(xs, i, tol)
    {
      var x := xs[i];
      var found, j := ScanKeys(groups, x, tol);
      if found {
        groups := AppendAt(groups, j, i);
      } else {
        match KeyIndex(groups, x)
        case Some(k) => groups := AppendAt(groups, k, i);
        case None => groups := groups + [Bucket(x, [i])];
      }
      i := i + 1;
    }
  }

  /** The inner loop of the analyzer: a scan of the keys in creation order
      that stops at the first one near `x`. */
  method ScanKeys(groups: seq<Bucket>, x: real, tol: real) returns (found: bool, j: nat)
    ensures found <==> FirstNear(groups, x, tol).Some?
    ensures found ==> FirstNear(groups, x, tol) == Some(j)
  {
    j := 0;
    found := false;
    while j < |groups| && !found
      invariant 0 <= j <= |groups|
      invariant found ==> j < |groups| && Near(x, groups[j].key, tol)
      invariant forall k :: 0 <= k < j ==> !Near(x, groups[k].key, tol)
      decreases |groups| - j, !found
    {
      if Near(x, groups[j].key, tol) {
        found := true;
      } else {
        j := j + 1;
      }
    }
  }

  // ---------------------------------------------------------------------
  // What the bucketing guarantees

  /** How often bar index `j` occurs among the first `m` entries of `s`. */
  function Occurrences(s: seq<nat>, m: nat, j: nat): nat
    requires m <= |s|
  {
    if m == 0 then 0 else Occurrences(s, m - 1, j) + if s[m - 1] == j then 1 else 0
  }

  /** How often bar index `j` is held by the first `k` buckets. */
  function HeldBelow(bs: seq<Bucket>, k: nat, j: nat): nat
    requires k <= |bs|
  {
    if k == 0 then 0 else HeldBelow(bs, k - 1, j) + Occurrences(bs[k - 1].indices, |bs[k - 1].indices|, j)
  }

  /** How often bar index `j` is held by the buckets. */
  function Held(bs: seq<Bucket>, j: nat): nat {
    HeldBelow(bs, |bs|, j)
  }

  /** Number of indices held by the first `k` buckets. */
  function SizeBelow(bs: seq<Bucket>, k: nat): nat
    requires k <= |bs|
  {
    if k == 0 then 0 else SizeBelow(bs, k - 1) + |bs[k - 1].indices|
  }

  /** Number of indices held by the buckets. */
  function TotalSize(bs: seq<Bucket>): nat {
    SizeBelow(bs, |bs|)
  }

  /** A bar price belongs to a bucket when it is near its key, or is the key. */
  predicate Member(x: real, key: real, tol: real) {
    Near(x, key, tol) || x == key
  }

  /** After `n` prices: every bucket is non-empty, its key is the price of
      its first bar, every bar of it is near (or equal to) the key, and no
      two buckets share a key. */
  predicate WellFormed(bs: seq<Bucket>, xs: seq<real>, n: nat, tol: real)
    requires n <= |xs|
  {
    (forall k :: 0 <= k < |bs| ==>
      |bs[k].indices| > 0 && bs[k].indices[0] < n && bs[k].key == xs[bs[k].indices[0]]) &&
    (forall k, p :: 0 <= k < |bs| && 0 <= p < |bs[k].indices| ==>
      bs[k].indices[p] < n && Member(xs[bs[k].indices[p]], bs[k].key, tol)) &&
    (forall k1, k2 :: 0 <= k1 < k2 < |bs| ==> bs[k1].key != bs[k2].key)
  }

  lemma {:induction false} OccurrencesSnoc(s: seq<nat>, i: nat, m: nat, j: nat)
    requires m <= |s|
    ensures Occurrences(s + [i], m, j) == Occurrences(s, m, j)
  {
    if m > 0 {
      OccurrencesSnoc(s, i, m - 1, j);
    }
  }

  lemma {:induction false} HeldBelowAppendAt(bs: seq<Bucket>, p: nat, i: nat, k: nat, j: nat)
    requires p < |bs| && k <= |bs|
    ensures HeldBelow(AppendAt(bs, p, i), k, j) == HeldBelow(bs, k, j) + if p < k && i == j then 1 else 0
  {
    if k > 0 {
      HeldBelowAppendAt(bs, p, i, k - 1, j);
      if k - 1 == p {
        OccurrencesSnoc(bs[p].indices, i, |bs[p].indices|, j);
      }
    }
  }

  lemma {:induction false} SizeBelowAppendAt(bs: seq<Bucket>, p: nat, i: nat, k: nat)
    requires p < |bs| && k <= |bs|
    ensures SizeBelow(AppendAt(bs, p, i), k) == SizeBelow(bs, k) + if p < k then 1 else 0
  {
    if k > 0 {
      SizeBelowAppendAt(bs, p, i, k - 1);
    }
  }

  lemma {:induction false} BelowSnoc(bs: seq<Bucket>, b: Bucket, k: nat, j: nat)
    requires k <= |bs|
    ensures HeldBelow(bs + [b], k, j) == HeldBelow(bs, k, j) && SizeBelow(bs + [b], k) == SizeBelow(bs, k)
  {
    if k > 0 {
      BelowSnoc(bs, b, k - 1, j);
    }
  }

  lemma HeldAppendAt(bs: seq<Bucket>, k: nat, i: nat, j: nat)
    requires k < |bs|
    ensures Held(AppendAt(bs, k, i), j) == Held(bs, j) + if i == j then 1 else 0
  {
    HeldBelowAppendAt(bs, k, i, |bs|, j);
  }

  lemma TotalSizeAppendAt(bs: seq<Bucket>, k: nat, i: nat)
    requires k < |bs|
    ensures TotalSize(AppendAt(bs, k, i)) == TotalSize(bs) + 1
  {
    SizeBelowAppendAt(bs, k, i, |bs|);
  }

  lemma HeldSnoc(bs: seq<Bucket>, i: nat, x: real, j: nat)
    ensures Held(bs + [Bucket(x, [i])], j) == Held(bs, j) + if i == j then 1 else 0
    ensures TotalSize(bs + [Bucket(x, [i])]) == TotalSize(bs) + 1
  {
    BelowSnoc(bs, Bucket(x, [i]), |bs|, j);
    assert Occurrences([i], 1, j) == if i == j then 1 else 0;
  }

  /** Placing bar `i` adds one occurrence of `i` and of nothing else. */
  lemma PlaceHolds(bs: seq<Bucket>, x: real, i: nat, tol: real, j: nat)
    ensures Held(Place(bs, x, i, tol), j) == Held(bs, j) + if j == i then 1 else 0
  {
    match FirstNear(bs, x, tol)
    case Some(k) => HeldAppendAt(bs, k, i, j);
    case None =>
      match KeyIndex(bs, x)
      case Some(k) => HeldAppendAt(bs, k, i, j);
      case None => HeldSnoc(bs, i, x, j);
  }

  /** Placing one price adds one to the total size. */
  lemma PlaceSize(bs: seq<Bucket>, x: real, i: nat, tol: real)
    ensures TotalSize(Place(bs, x, i, tol)) == TotalSize(bs) + 1
  {
    match FirstNear(bs, x, tol)
    case Some(k) => TotalSizeAppendAt(bs, k, i);
    case None =>
      match KeyIndex(bs, x)
      case Some(k) => TotalSizeAppendAt(bs, k, i);
      case None => HeldSnoc(bs, i, x, 0);
  }

  /** Placing one price keeps every key where it was and adds at most one. */
  lemma PlaceKeepsKeys(bs: seq<Bucket>, x: real, i: nat, tol: real)
    ensures var r := Place(bs, x, i, tol);
      |bs| <= |r| <= |bs| + 1 && forall k :: 0 <= k < |bs| ==> r[k].key == bs[k].key
  {
  }

  lemma AppendWellFormed(bs: seq<Bucket>, xs: seq<real>, n: nat, k: nat, tol: real)
    requires n < |xs| && k < |bs| && WellFormed(bs, xs, n, tol)
    requires Member(xs[n], bs[k].key, tol)
    ensures WellFormed(AppendAt(bs, k, n), xs, n + 1, tol)
  {
    var r := AppendAt(bs, k, n);
    forall j | 0 <= j < |r|
      ensures |r[j].indices| > 0 && r[j].indices[0] < n + 1 && r[j].key == xs[r[j].indices[0]]
    {
      if j == k {
        assert r[j].indices[0] == bs[k].indices[0];
      }
    }
    forall j, p | 0 <= j < |r| && 0 <= p < |r[j].indices|
      ensures r[j].indices[p] < n + 1 && Member(xs[r[j].indices[p]], r[j].key, tol)
    {
      if j == k && p == |bs[k].indices| {
        assert r[j].indices[p] == n;
      } else if j == k {
        assert r[j].indices[p] == bs[k].indices[p];
      }
    }
  }

  lemma NewBucketWellFormed(bs: seq<Bucket>, xs: seq<real>, n: nat, tol: real)
    requires n < |xs| && WellFormed(bs, xs, n, tol)
    requires forall k :: 0 <= k < |bs| ==> bs[k].key != xs[n]
    ensures WellFormed(bs + [Bucket(xs[n], [n])], xs, n + 1, tol)
  {
  }

  lemma PlaceWellFormed(bs: seq<Bucket>, xs: seq<real>, n: nat, tol: real)
    requires n < |xs| && WellFormed(bs, xs, n, tol)
    ensures WellFormed(Place(bs, xs[n], n, tol), xs, n + 1, tol)
  {
    var x := xs[n];
    match FirstNear(bs, x, tol)
    case Some(k) => AppendWellFormed(bs, xs, n, k, tol);
    case None =>
      match KeyIndex(bs, x)
      case Some(k) => AppendWellFormed(bs, xs, n, k, tol);
      case None => NewBucketWellFormed(bs, xs, n, tol);
  }

  lemma {:induction false} GroupPrefixWellFormed(xs: seq<real>, n: nat, tol: real, r: seq<Bucket>)
    requires n <= |xs| && r == GroupPrefix(xs, n, tol)
    ensures WellFormed(r, xs, n, tol)
  {
    if n > 0 {
      var g := GroupPrefix(xs, n - 1, tol);
      GroupPrefixWellFormed(xs, n - 1, tol, g);
      PlaceWellFormed(g, xs, n - 1, tol);
    }
  }

  /** Bar index `j` is held exactly once after the first `n` prices when
      `j < n`, and not at all otherwise. */
  lemma {:induction false} GroupPrefixHolds(xs: seq<real>, n: nat, tol: real, r: seq<Bucket>, j: nat)
    requires n <= |xs| && r == GroupPrefix(xs, n, tol)
    ensures Held(r, j) == if j < n then 1 else 0
  {
    if n > 0 {
      var g := GroupPrefix(xs, n - 1, tol);
      GroupPrefixHolds(xs, n - 1, tol, g, j);
      PlaceHolds(g, xs[n - 1], n - 1, tol, j);
    }
  }

  lemma {:induction false} GroupPrefixSize(xs: seq<real>, n: nat, tol: real, r: seq<Bucket>)
    requires n <= |xs| && r == GroupPrefix(xs, n, tol)
    ensures TotalSize(r) == n
  {
    if n > 0 {
      var g := GroupPrefix(xs, n - 1, tol);
      GroupPrefixSize(xs, n - 1, tol, g);
      PlaceSize(g, xs[n - 1], n - 1, tol);
    }
  }

  /** Every bar index lands in exactly one bucket, so the bucket sizes add
      up to the number of bars; every bucket is keyed by the price of its
      first bar, holds only prices near that key, and keys are distinct. */
  lemma GroupPartitions(xs: seq<real>, tol: real)
    ensures forall j: nat :: Held(Group(xs, tol), j) == if j < |xs| then 1 else 0
    ensures TotalSize(Group(xs, tol)) == |xs|
    ensures WellFormed(Group(xs, tol), xs, |xs|, tol)
  {
    var r := Group(xs, tol);
    GroupPrefixWellFormed(xs, |xs|, tol, r);
    forall j: nat
      ensures Held(r, j) == if j < |xs| then 1 else 0
    {
      GroupPrefixHolds(xs, |xs|, tol, r, j);
    }
    GroupPrefixSize(xs, |xs|, tol, r);
  }

  /** Keys are never re-centred: the buckets of a shorter prefix keep their
      keys, in the same order, in every longer prefix. */
  lemma {:induction false} KeysNeverChange(xs: seq<real>, m: nat, n: nat, tol: real)
    requires m <= n <= |xs|
    ensures |GroupPrefix(xs, m, tol)| <= |GroupPrefix(xs, n, tol)|
    ensures forall k :: 0 <= k < |GroupPrefix(xs, m, tol)| ==>
      GroupPrefix(xs, n, tol)[k].key == GroupPrefix(xs, m, tol)[k].key
  {
    if m < n {
      var g := GroupPrefix(xs, n - 1, tol);
      assert GroupPrefix(xs, n, tol) == Place(g, xs[n - 1], n - 1, tol);
      KeysNeverChange(xs, m, n - 1, tol);
      PlaceKeepsKeys(g, xs[n - 1], n - 1, tol);
    }
  }

  // ---------------------------------------------------------------------
  // Levels

  datatype Level = Level(price: real, strength: real, touches: nat)

  function Strength(touches: nat): real {
    Min(touches as real / 5.0, 1.0)
  }

  /** One level per bucket with at least `minTouches` bars, in creation order. */
  function Candidates(bs: seq<Bucket>, minTouches: nat): seq<Level> {
    if |bs| == 0 then []
    else
      var rest := Candidates(bs[..|bs| - 1], minTouches);
      var b := bs[|bs| - 1];
      if |b.indices| >= minTouches then rest + [Level(b.key, Strength(|b.indices|), |b.indices|)]
      else rest
  }

  /** The loop that turns buckets into levels. */
  method CollectLevels(bs: seq<Bucket>, minTouches: nat) returns (levels: seq<Level>)
    ensures levels == Candidates(bs, minTouches)
  {
    levels := [];
    var k := 0;
    while k < |bs|
      invariant 0 <= k <= |bs|
      invariant levels == Candidates(bs[..k], minTouches)
    {
      assert bs[..k + 1][..k] == bs[..k];
      var touches := |bs[k].indices|;
      if touches >= minTouches {
        levels := levels + [Level(bs[k].key, Strength(touches), touches)];
      }
      k := k + 1;
    }
    assert bs[..|bs|] == bs;
  }

  /** A candidate level is a well-formed bucket seen often enough: its
      price is the key, hence a price of the series, and its strength is
      min(touches / 5, 1) with at least one touch. */
  predicate LevelOf(l: Level, xs: seq<real>, minTouches: nat) {
    l.touches >= minTouches && l.touches >= 1 && l.strength == Strength(l.touches) &&
    0.0 < l.strength <= 1.0 && exists i :: 0 <= i < |xs| && xs[i] == l.price
  }

  /** Every bucket seen at least `minTouches` times gives its level. */
  lemma {:induction false} CandidatesComplete(bs: seq<Bucket>, minTouches: nat)
    ensures forall j :: 0 <= j < |bs| && |bs[j].indices| >= minTouches ==>
      Level(bs[j].key, Strength(|bs[j].indices|), |bs[j].indices|) in Candidates(bs, minTouches)
  {
    if |bs| > 0 {
      var init := bs[..|bs| - 1];
      CandidatesComplete(init, minTouches);
      forall j | 0 <= j < |bs| - 1
        ensures bs[j] == init[j]
      {
      }
    }
  }

  lemma {:induction false} CandidatesAreLevels(bs: seq<Bucket>, xs: seq<real>, minTouches: nat, tol: real)
    requires WellFormed(bs, xs, |xs|, tol)
    ensures forall l :: l in Candidates(bs, minTouches) ==> LevelOf(l, xs, minTouches)
  {
    if |bs| > 0 {
      var init := bs[..|bs| - 1];
      assert WellFormed(init, xs, |xs|, tol);
      CandidatesAreLevels(init, xs, minTouches, tol);
      var b := bs[|bs| - 1];
      assert xs[b.indices[0]] == b.key;
    }
  }

  // ---------------------------------------------------------------------
  // Ranking: the library's stable sort by descending strength

  /** Inserts `x` before the first element it is at least as strong as,
      that is after every strictly stronger one. */
  function InsertByStrength(x: Level, ys: seq<Level>): (r: seq<Level>)
    ensures |r| == |ys| + 1
  {
    if |ys| == 0 || x.strength >= ys[0].strength then [x] + ys
    else [ys[0]] + InsertByStrength(x, ys[1..])
  }

  /** `sort(key=strength, reverse=True)`: a stable insertion sort, earlier
      elements inserted in front of equal ones. */
  function SortByStrength(ls: seq<Level>): (r: seq<Level>)
    ensures |r| == |ls|
  {
    if |ls| == 0 then [] else InsertByStrength(ls[0], SortByStrength(ls[1..]))
  }

  /** Insertion adds exactly the inserted level. */
  lemma {:induction false} InsertPermutes(x: Level, ys: seq<Level>)
    ensures multiset(InsertByStrength(x, ys)) == multiset(ys) + multiset{x}
  {
    if |ys| > 0 && x.strength < ys[0].strength {
      InsertPermutes(x, ys[1..]);
      assert ys == [ys[0]] + ys[1..];
    }
  }

  /** The ranked list is a permutation of the candidates. */
  lemma {:induction false} SortPermutes(ls: seq<Level>)
    ensures multiset(SortByStrength(ls)) == multiset(ls)
  {
    if |ls| > 0 {
      SortPermutes(ls[1..]);
      InsertPermutes(ls[0], SortByStrength(ls[1..]));
      assert ls == [ls[0]] + ls[1..];
    }
  }

  predicate NonIncreasing(ls: seq<Level>) {
    forall i, j :: 0 <= i < j < |ls| ==> ls[i].strength >= ls[j].strength
  }

  /** The levels of strength `v`, in order. */
  function WithStrength(ls: seq<Level>, v: real): seq<Level> {
    if |ls| == 0 then []
    else (if ls[0].strength == v then [ls[0]] else []) + WithStrength(ls[1..], v)
  }

  /** Insertion keeps the order, and the inserted level or the old first
      one comes first. */
  lemma {:induction false} InsertKeepsOrder(x: Level, ys: seq<Level>)
    requires NonIncreasing(ys)
    ensures NonIncreasing(InsertByStrength(x, ys))
    ensures InsertByStrength(x, ys)[0] == x || (|ys| > 0 && InsertByStrength(x, ys)[0] == ys[0])
  {
    if |ys| > 0 && x.strength < ys[0].strength {
      var tail := ys[1..];
      assert NonIncreasing(tail) by {
        forall i, j | 0 <= i < j < |tail| ensures tail[i].strength >= tail[j].strength {
          assert tail[i] == ys[i + 1] && tail[j] == ys[j + 1];
        }
      }
      InsertKeepsOrder(x, tail);
      var t := InsertByStrength(x, tail);
      var r := [ys[0]] + t;
      assert t[0].strength <= ys[0].strength by {
        if t[0] != x {
          assert t[0] == ys[1];
        }
      }
      forall i, j | 0 <= i < j < |r| ensures r[i].strength >= r[j].strength {
        if i == 0 && j > 1 {
          assert r[j] == t[j - 1];
        } else if i > 0 {
          assert r[i] == t[i - 1] && r[j] == t[j - 1];
        }
      }
    }
  }

  /** The ranked list is ordered by non-increasing strength. */
  lemma {:induction false} SortIsOrdered(ls: seq<Level>)
    ensures NonIncreasing(SortByStrength(ls))
  {
    if |ls| > 0 {
      SortIsOrdered(ls[1..]);
      InsertKeepsOrder(ls[0], SortByStrength(ls[1..]));
    }
  }

  lemma WithStrengthCons(y: Level, ys: seq<Level>, v: real)
    ensures WithStrength([y] + ys, v) == (if y.strength == v then [y] else []) + WithStrength(ys, v)
  {
    assert ([y] + ys)[1..] == ys;
  }

  /** Insertion adds the inserted level to its strength class and leaves
      the other classes alone. */
  lemma {:induction false} InsertStable(x: Level, ys: seq<Level>, v: real)
    ensures WithStrength(InsertByStrength(x, ys), v) ==
      (if x.strength == v then [x] else []) + WithStrength(ys, v)
  {
    if |ys| == 0 || x.strength >= ys[0].strength {
      WithStrengthCons(x, ys, v);
    } else {
      var y, rest := ys[0], ys[1..];
      var ex: seq<Level> := if x.strength == v then [x] else [];
      var ey: seq<Level> := if y.strength == v then [y] else [];
      var ws := WithStrength(rest, v);
      assert ys == [y] + rest;
      InsertStable(x, rest, v);
      WithStrengthCons(y, InsertByStrength(x, rest), v);
      WithStrengthCons(y, rest, v);
      assert WithStrength(InsertByStrength(x, ys), v) == ey + (ex + ws);
      assert WithStrength(ys, v) == ey + ws;
      assert ex == [] || ey == [];
    }
  }

  /** Stability: among levels of equal strength the ranked list keeps the
      creation order. */
  lemma {:induction false} SortIsStable(ls: seq<Level>, v: real)
    ensures WithStrength(SortByStrength(ls), v) == WithStrength(ls, v)
  {
    if |ls| > 0 {
      SortIsStable(ls[1..], v);
      InsertStable(ls[0], SortByStrength(ls[1..]), v);
    }
  }

  function Take(ls: seq<Level>, k: nat): (r: seq<Level>)
    ensures |r| <= k && |r| <= |ls|
    ensures |r| == if |ls| <= k then |ls| else k
    ensures forall i :: 0 <= i < |r| ==> r[i] == ls[i]
  {
    if |ls| <= k then ls else ls[..k]
  }

  /** The reported levels of one side. */
  function TopLevels(xs: seq<real>, cfg: Config): seq<Level> {
    Take(SortByStrength(Candidates(Group(xs, cfg.tolerance), cfg.minTouches)), MaxLevels)
  }

  /** `top` is a choice of the five strongest of `cands`: drawn from them,
      min(5, |cands|) of them, and every candidate left out is no stronger
      than any chosen one. */
  predicate StrongestOf(top: seq<Level>, cands: seq<Level>) {
    multiset(top) <= multiset(cands) &&
    |top| == (if |cands| <= MaxLevels then |cands| else MaxLevels) &&
    forall i, j :: 0 <= i < |cands| && cands[i] !in top && 0 <= j < |top| ==> cands[i].strength <= top[j].strength
  }

  /** Cutting a ranked permutation of the candidates after five keeps the
      five strongest. */
  lemma TakeStrongest(sorted: seq<Level>, cands: seq<Level>)
    requires NonIncreasing(sorted) && multiset(sorted) == multiset(cands)
    ensures StrongestOf(Take(sorted, MaxLevels), cands)
  {
    var top := Take(sorted, MaxLevels);
    assert sorted == top + sorted[|top|..];
    assert multiset(sorted) == multiset(top) + multiset(sorted[|top|..]);
    forall i, j | 0 <= i < |cands| && cands[i] !in top && 0 <= j < |top|
      ensures cands[i].strength <= top[j].strength
    {
      assert cands[i] in multiset(sorted);
      var p :| 0 <= p < |sorted| && sorted[p] == cands[i];
      assert sorted[j] == top[j];
    }
  }

  /** The reported levels of one side are the five strongest candidates
      (all of them when there are at most five), strongest first, each a
      bucket of the series touched at least `minTouches` times with
      strength min(touches / 5, 1). */
  lemma TopLevelsProperties(xs: seq<real>, cfg: Config)
    ensures |TopLevels(xs, cfg)| <= MaxLevels
    ensures NonIncreasing(TopLevels(xs, cfg))
    ensures forall l :: l in TopLevels(xs, cfg) ==> LevelOf(l, xs, cfg.minTouches)
    ensures StrongestOf(TopLevels(xs, cfg), Candidates(Group(xs, cfg.tolerance), cfg.minTouches))
  {
    var cands := Candidates(Group(xs, cfg.tolerance), cfg.minTouches);
    var sorted := SortByStrength(cands);
    GroupPartitions(xs, cfg.tolerance);
    CandidatesAreLevels(Group(xs, cfg.tolerance), xs, cfg.minTouches, cfg.tolerance);
    SortIsOrdered(cands);
    SortPermutes(cands);
    TakeStrongest(sorted, cands);
    forall l | l in TopLevels(xs, cfg) ensures LevelOf(l, xs, cfg.minTouches) {
      assert l in sorted;
      assert l in multiset(cands);
    }
  }

  /** With at most five candidates every one is reported. */
  lemma StrongestOfAll(top: seq<Level>, cands: seq<Level>)
    requires StrongestOf(top, cands) && |cands| <= MaxLevels
    ensures multiset(top) == multiset(cands)
  {
    var extra := multiset(cands) - multiset(top);
    assert multiset(cands) == multiset(top) + extra;
    assert |multiset(cands)| == |multiset(top)| + |extra|;
  }

  /** One side of the analysis, as the analyzer runs it. */
  method FindSideLevels(xs: seq<real>, cfg: Config) returns (levels: seq<Level>)
    ensures levels == TopLevels(xs, cfg)
    ensures |levels| <= MaxLevels && NonIncreasing(levels)
    ensures forall l :: l in levels ==> LevelOf(l, xs, cfg.minTouches)
    ensures StrongestOf(levels, Candidates(Group(xs, cfg.tolerance), cfg.minTouches))
  {
    var groups := GroupPrices(xs, cfg.tolerance);
    levels := CollectLevels(groups, cfg.minTouches);
    levels := SortByStrength(levels);
    levels := Take(levels, MaxLevels);
    TopLevelsProperties(xs, cfg);
  }

  datatype LevelSet = LevelSet(support: seq<Level>, resistance: seq<Level>)

  /** Both sides: empty below twenty bars, otherwise support from the lows
      and resistance from the highs. */
  function FindLevels(s: seq<Bar>, cfg: Config): (r: LevelSet)
    ensures |s| < MinSeries ==> r == LevelSet([], [])
    ensures |s| >= MinSeries ==> r.support == TopLevels(Lows(s), cfg)
    ensures |s| >= MinSeries ==> r.resistance == TopLevels(Highs(s), cfg)
  {
    if |s| < MinSeries then LevelSet([], [])
    else LevelSet(TopLevels(Lows(s), cfg), TopLevels(Highs(s), cfg))
  }

  /** Reported support prices are lows of the series, resistance prices
      highs, at most five each, strongest first; from twenty bars on each
      side is the five strongest of its candidates. */
  lemma FindLevelsProperties(s: seq<Bar>, cfg: Config)
    ensures var r := FindLevels(s, cfg);
      |r.support| <= MaxLevels && |r.resistance| <= MaxLevels &&
      NonIncreasing(r.support) && NonIncreasing(r.resistance) &&
      (forall l :: l in r.support ==> LevelOf(l, Lows(s), cfg.minTouches)) &&
      (forall l :: l in r.resistance ==> LevelOf(l, Highs(s), cfg.minTouches)) &&
      (|s| >= MinSeries ==>
        StrongestOf(r.support, Candidates(Group(Lows(s), cfg.tolerance), cfg.minTouches)) &&
        StrongestOf(r.resistance, Candidates(Group(Highs(s), cfg.tolerance), cfg.minTouches)))
  {
    if |s| >= MinSeries {
      TopLevelsProperties(Lows(s), cfg);
      TopLevelsProperties(Highs(s), cfg);
    }
  }

  // ---------------------------------------------------------------------
  // Breakouts

  datatype Side = Support | Resistance

  datatype Breakout =
    | TooShort
    | NoBreakout
    | Broke(side: Side, price: real, strength: real)

  /** The first level in list order strictly between `lo` and `hi`, when
      the volume condition `ok` holds. */
  function FirstCrossing(ls: seq<Level>, lo: real, hi: real, ok: bool): (r: Option<nat>)
    ensures r.Some? ==> ok && r.value < |ls| && lo < ls[r.value].price < hi
    ensures r.Some? ==> forall k :: 0 <= k < r.value ==> !(lo < ls[k].price < hi)
    ensures r.None? ==> !ok || forall k :: 0 <= k < |ls| ==> !(lo < ls[k].price < hi)
  {
    if |ls| == 0 then None
    else if lo < ls[0].price < hi && ok then Some(0)
    else match FirstCrossing(ls[1..], lo, hi, ok)
      case None => None
      case Some(k) => Some(k + 1)
  }

  /** The volume condition: unconfirmed, or the last volume above 1.2 times
      the mean of the last twenty volumes (the last bar included). */
  function VolumeAllows(s: seq<Bar>, confirm: bool): bool
    requires |s| > 0
  {
    !confirm || s[|s| - 1].volume > Mean(Tail(Volumes(s), 20)) * 1.2
  }

  function BreakoutOf(s: seq<Bar>, levels: LevelSet, confirm: bool): Breakout {
    if |s| < 2 then TooShort
    else
      var cur, prev := s[|s| - 1], s[|s| - 2];
      var ok := VolumeAllows(s, confirm);
      match FirstCrossing(levels.resistance, prev.high, cur.high, ok)
      case Some(k) => Broke(Resistance, levels.resistance[k].price, levels.resistance[k].strength)
      case None =>
        match FirstCrossing(levels.support, cur.low, prev.low, ok)
        case Some(k) => Broke(Support, levels.support[k].price, levels.support[k].strength)
        case None => NoBreakout
  }

  /** The two loops of the analyzer, each stopped by `break`. */
  method CheckBreakout(s: seq<Bar>, levels: LevelSet, confirm: bool) returns (r: Breakout)
    ensures r == BreakoutOf(s, levels, confirm)
  {
    if |s| < 2 {
      return TooShort;
    }
    var cur, prev := s[|s| - 1], s[|s| - 2];
    var ok := VolumeAllows(s, confirm);
    r := NoBreakout;
    var i := 0;
    while i < |levels.resistance|
      invariant 0 <= i <= |levels.resistance|
      invariant forall k :: 0 <= k < i ==> !(prev.high < levels.resistance[k].price < cur.high && ok)
    {
      var l := levels.resistance[i];
      if prev.high < l.price && cur.high > l.price {
        if ok {
          r := Broke(Resistance, l.price, l.strength);
          assert FirstCrossing(levels.resistance, prev.high, cur.high, ok) == Some(i);
          return;
        }
      }
      i := i + 1;
    }
    assert FirstCrossing(levels.resistance, prev.high, cur.high, ok).None?;
    i := 0;
    while i < |levels.support|
      invariant 0 <= i <= |levels.support|
      invariant forall k :: 0 <= k < i ==> !(cur.low < levels.support[k].price < prev.low && ok)
    {
      var l := levels.support[i];
      if prev.low > l.price && cur.low < l.price {
        if ok {
          r := Broke(Support, l.price, l.strength);
          assert FirstCrossing(levels.support, cur.low, prev.low, ok) == Some(i);
          return;
        }
      }
      i := i + 1;
    }
    assert FirstCrossing(levels.support, cur.low, prev.low, ok).None?;
  }

  /** A resistance breakout is the first resistance level the last bar's
      high crossed; a support breakout is reported only when no resistance
      level was crossed, and is the first support level the low crossed. */
  lemma BreakoutCharacterised(s: seq<Bar>, levels: LevelSet, confirm: bool)
    requires |s| >= 2
    ensures var r, cur, prev := BreakoutOf(s, levels, confirm), s[|s| - 1], s[|s| - 2];
      (r.Broke? && r.side == Resistance ==>
        (VolumeAllows(s, confirm) &&
         exists k :: 0 <= k < |levels.resistance| && levels.resistance[k].price == r.price &&
           prev.high < r.price < cur.high &&
           forall j :: 0 <= j < k ==> !(prev.high < levels.resistance[j].price < cur.high))) &&
      (r.Broke? && r.side == Support ==>
        (VolumeAllows(s, confirm) &&
         (forall j :: 0 <= j < |levels.resistance| ==> !(prev.high < levels.resistance[j].price < cur.high)) &&
         exists k :: 0 <= k < |levels.support| && levels.support[k].price == r.price &&
           cur.low < r.price < prev.low &&
           forall j :: 0 <= j < k ==> !(cur.low < levels.support[j].price < prev.low))) &&
      (r == NoBreakout <==>
        (!VolumeAllows(s, confirm) ||
         ((forall j :: 0 <= j < |levels.resistance| ==> !(prev.high < levels.resistance[j].price < cur.high)) &&
          (forall j :: 0 <= j < |levels.support| ==> !(cur.low < levels.support[j].price < prev.low))))) &&
      r != TooShort
  {
  }
}

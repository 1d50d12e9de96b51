/** Size-aware latency: a bounded history of calls, its regression and its percentiles. Times are seconds. */
module Latency {
  import opened Basics
  import opened Ranking
  import opened Regression

  const MAX_SAMPLES: nat := 128
  const MAX_AGE: int := 604_800

  datatype Sample = Sample(at: int, input: nat, output: nat, elapsed: nat)

  predicate Fresh(s: Sample, now: int) { now - s.at <= MAX_AGE }

  function Recent(ss: seq<Sample>, now: int): seq<Sample> {
    if ss == [] then []
    else (if Fresh(ss[0], now) then [ss[0]] else []) + Recent(ss[1..], now)
  }

  method RetainRecent(ss: seq<Sample>, now: int) returns (kept: seq<Sample>)
    ensures kept == Recent(ss, now)
  {
    kept := [];
    for i := 0 to |ss|
      invariant kept + Recent(ss[i..], now) == Recent(ss, now)
    {
      if Fresh(ss[i], now) {
        kept := kept + [ss[i]];
      }
    }
  }

  // ---- prediction ----

  /** The sample-order decay. */
  function Power(n: nat): (p: real)
    ensures p > 0.0
  {
    if n == 0 then 1.0 else 0.8 * Power(n - 1)
  }

  /** The decay of a sample with its age in seconds; all that matters here is that it is positive. */
  ghost predicate Decay(decay: nat -> real) { forall age: nat :: decay(age) > 0.0 }

  function RowOf(s: Sample, later: nat, now: int, decay: nat -> real): Row {
    Row(decay(if now < s.at then 0 else now - s.at) * Power(later),
        Vec(1.0, s.input as real / 1000.0, s.output as real / 100.0), s.elapsed as real)
  }

  /** The weighted rows of the recent samples, oldest first. */
  function Rows(ss: seq<Sample>, now: int, decay: nat -> real): (rows: seq<Row>)
    ensures |rows| == |ss|
  {
    seq(|ss|, i requires 0 <= i < |ss| => RowOf(ss[i], |ss| - 1 - i, now, decay))
  }

  lemma RowsAreWeighted(ss: seq<Sample>, now: int, decay: nat -> real)
    requires Decay(decay)
    ensures Weighted(Rows(ss, now, decay))
  {
    forall r | r in Rows(ss, now, decay)
      ensures r.w > 0.0
    {
      var i :| 0 <= i < |ss| && r == RowOf(ss[i], |ss| - 1 - i, now, decay);
      var age := if now < ss[i].at then 0 else now - ss[i].at;
      ProductSign(decay(age), Power(|ss| - 1 - i));
    }
  }

  lemma ProductSign(a: real, b: real)
    requires a > 0.0 && b > 0.0
    ensures a * b > 0.0
  {
  }

  function TotalOutput(ss: seq<Sample>): nat {
    if ss == [] then 0 else ss[0].output + TotalOutput(ss[1..])
  }

  /** The time of a call of the given size, at least one millisecond. */
  function Estimate(beta: Vec, input: real, output: real): real {
    var ms := beta.x0 + Times(beta.x1, input) / 1000.0 + Times(beta.x2, output) / 100.0;
    if ms < 1.0 then 1.0 else ms
  }

  /** What the history predicts; an omitted output budget uses the observed mean. */
  ghost function Prediction(ss: seq<Sample>, input: nat, output: Option<nat>, now: int,
                            decay: nat -> real): Option<real>
    requires Decay(decay)
  {
    var recent := Recent(ss, now);
    RowsAreWeighted(recent, now, decay);
    if recent == [] then None
    else
      var size := if output.Some? then output.value as real else TotalOutput(recent) as real / |recent| as real;
      Some(Estimate(Fit(Rows(recent, now, decay)), input as real, size))
  }

  method SumOutput(ss: seq<Sample>) returns (n: nat)
    ensures n == TotalOutput(ss)
  {
    n := 0;
    for i := 0 to |ss|
      invariant n + TotalOutput(ss[i..]) == TotalOutput(ss)
    {
      n := n + ss[i].output;
    }
  }

  /** The normal equations, accumulated sample by sample. */
  method Accumulate(ss: seq<Sample>, now: int, decay: nat -> real) returns (a: array2<real>, b: array<real>)
    ensures a.Length0 == 3 && a.Length1 == 3 && b.Length == 3
    ensures forall i, j :: 0 <= i < 3 && 0 <= j < 3 ==> a[i, j] == Gram(Rows(ss, now, decay), |ss|, i, j)
    ensures forall i :: 0 <= i < 3 ==> b[i] == Moment(Rows(ss, now, decay), |ss|, i)
  {
    a, b := new real[3, 3]((i, j) => 0.0), new real[3](i => 0.0);
    ghost var rows := Rows(ss, now, decay);
    for n := 0 to |ss|
      invariant forall i, j :: 0 <= i < 3 && 0 <= j < 3 ==> a[i, j] == Gram(rows, n, i, j)
      invariant forall i :: 0 <= i < 3 ==> b[i] == Moment(rows, n, i)
    {
      var r := RowOf(ss[n], |ss| - 1 - n, now, decay);
      assert r == rows[n];
      hide GramRow, MomentRow, RowOf;
      for i := 0 to 3
        invariant forall p, q :: 0 <= p < 3 && 0 <= q < 3 ==> a[p, q] == Gram(rows, if p < i then n + 1 else n, p, q)
        invariant forall p :: 0 <= p < 3 ==> b[p] == Moment(rows, if p < i then n + 1 else n, p)
      {
        b[i] := b[i] + MomentRow(r, i);
        for j := 0 to 3
          invariant forall p, q :: 0 <= p < 3 && 0 <= q < 3 ==>
                      a[p, q] == Gram(rows, if p < i || (p == i && q < j) then n + 1 else n, p, q)
          invariant forall p :: 0 <= p < 3 ==> b[p] == Moment(rows, if p <= i then n + 1 else n, p)
        {
          a[i, j] := a[i, j] + GramRow(r, i, j);
        }
      }
    }
  }

  function ToVec(beta: array<real>): Vec
    requires beta.Length == 3
    reads beta
  {
    Vec(beta[0], beta[1], beta[2])
  }

  /** The three hundred sweeps. */
  method Descend(ghost rows: seq<Row>, a: array2<real>, b: array<real>) returns (beta: Vec)
    requires Weighted(rows)
    requires a.Length0 == 3 && a.Length1 == 3 && b.Length == 3
    requires forall i, j :: 0 <= i < 3 && 0 <= j < 3 ==> a[i, j] == Gram(rows, |rows|, i, j)
    requires forall i :: 0 <= i < 3 ==> b[i] == Moment(rows, |rows|, i)
    ensures beta == Fit(rows)
  {
    hide Gram, Moment, Best;
    var x := new real[3](i => 0.0);
    for sweep := 0 to SWEEPS
      invariant ToVec(x) == Descended(rows, sweep)
    {
      ghost var start := ToVec(x);
      for i := 0 to 3
        invariant ToVec(x) == Swept(rows, start, i)
      {
        DiagonalNonNegative(rows, |rows|, i);
        ghost var now := ToVec(x);
        var others := 0.0;
        for j := 0 to 3
          invariant ToVec(x) == now && others == Others(rows, |rows|, now, i, j)
        {
          if j != i {
            others := others + Times(a[i, j], x[j]);
          }
        }
        x[i] := Best(b[i] - others, a[i, i] + RIDGE);
        assert ToVec(x) == Step(rows, now, i);
      }
    }
    beta := ToVec(x);
  }

  method Predict(ss: seq<Sample>, input: nat, output: Option<nat>, now: int, decay: nat -> real)
    returns (ms: Option<real>)
    requires Decay(decay)
    ensures ms == Prediction(ss, input, output, now, decay)
  {
    var recent := RetainRecent(ss, now);
    if recent == [] {
      return None;
    }
    var total := SumOutput(recent);
    var size := if output.Some? then output.value as real else total as real / |recent| as real;
    RowsAreWeighted(recent, now, decay);
    var a, b := Accumulate(recent, now, decay);
    var beta := Descend(Rows(recent, now, decay), a, b);
    ms := Some(Estimate(beta, input as real, size));
  }

  /** A prediction is at least one millisecond and never falls when the call gets longer on either side. */
  lemma PredictionIsMonotone(ss: seq<Sample>, in1: nat, in2: nat, out1: nat, out2: nat, now: int, decay: nat -> real)
    requires Decay(decay) && in1 <= in2 && out1 <= out2
    ensures var p, q := Prediction(ss, in1, Some(out1), now, decay), Prediction(ss, in2, Some(out2), now, decay);
            p.Some? == q.Some? && (p.Some? ==> 1.0 <= p.value <= q.value)
  {
    var recent := Recent(ss, now);
    RowsAreWeighted(recent, now, decay);
    if recent != [] {
      var beta := Fit(Rows(recent, now, decay));
      FitBeatsZero(Rows(recent, now, decay));
      hide Fit, Rows, Estimate;
      EstimateIsMonotone(beta, in1 as real, in2 as real, out1 as real, out2 as real);
    }
  }

  lemma EstimateIsMonotone(beta: Vec, in1: real, in2: real, out1: real, out2: real)
    requires beta.NonNegative() && in1 <= in2 && out1 <= out2
    ensures 1.0 <= Estimate(beta, in1, out1) <= Estimate(beta, in2, out2)
  {
    ScaledMonotone(beta.x1, in1, in2);
    ScaledMonotone(beta.x2, out1, out2);
    assert Times(beta.x1, in1) <= Times(beta.x1, in2) && Times(beta.x2, out1) <= Times(beta.x2, out2);
    hide Times;
  }

  lemma ScaledMonotone(k: real, a: real, b: real)
    requires k >= 0.0 && a <= b
    ensures k * a <= k * b
  {
  }

  // ---- what the predictions are fitted to ----

  /** Overhead, prefill time per thousand input tokens and decode time per hundred output tokens. */
  function Linear(beta: Vec, input: real, output: real): real {
    beta.x0 + beta.x1 * (input / 1000.0) + beta.x2 * (output / 100.0)
  }

  function AtLeastOne(ms: real): real { if ms < 1.0 then 1.0 else ms }

  /** The weight of a sample: its age, and a factor of 0.8 for every sample after it. */
  function WeightOf(s: Sample, later: nat, now: int, decay: nat -> real): real {
    decay(if s.at > now then 0 else now - s.at) * Power(later)
  }

  /** The latest sample weighs what its age leaves; each one after a sample takes another fifth of its weight. */
  lemma OlderWeighsLess(s: Sample, later: nat, now: int, decay: nat -> real)
    ensures WeightOf(s, 0, now, decay) == decay(if s.at > now then 0 else now - s.at)
    ensures 5.0 * WeightOf(s, later + 1, now, decay) == 4.0 * WeightOf(s, later, now, decay)
  {
    var d, p := decay(if s.at > now then 0 else now - s.at), Power(later);
    assert Power(later + 1) == 0.8 * p;
    assert d * (0.8 * p) == 0.8 * (d * p);
  }

  /** The weighted squared error over the first `n` samples of the times that `beta` gives them. */
  function SampleError(ss: seq<Sample>, n: nat, now: int, decay: nat -> real, beta: Vec): real
    requires n <= |ss|
  {
    if n == 0 then 0.0
    else
      var s := ss[n - 1];
      SampleError(ss, n - 1, now, decay, beta) +
      WeightedSquare(WeightOf(s, |ss| - n, now, decay),
                     s.elapsed as real - Linear(beta, s.input as real, s.output as real))
  }

  lemma LinearIsEstimate(beta: Vec, input: real, output: real)
    ensures Estimate(beta, input, output) == AtLeastOne(Linear(beta, input, output))
  {
    ScaledQuotient(beta.x1, input, 1000.0);
    ScaledQuotient(beta.x2, output, 100.0);
    var prefill, decoding := Times(beta.x1, input) / 1000.0, Times(beta.x2, output) / 100.0;
    hide Times;
    assert Linear(beta, input, output) == beta.x0 + prefill + decoding;
  }

  lemma ScaledQuotient(k: real, x: real, d: real)
    requires d > 0.0
    ensures Times(k, x) / d == k * (x / d)
  {
    var q := x / d;
    assert x == q * d;
    assert Times(k, x) == (k * q) * d;
  }

  lemma RowErrorIsSampleError(s: Sample, later: nat, now: int, decay: nat -> real, beta: Vec)
    ensures RowError(RowOf(s, later, now, decay), beta) ==
            WeightedSquare(WeightOf(s, later, now, decay),
                           s.elapsed as real - Linear(beta, s.input as real, s.output as real))
  {
    var prefill, decoding := s.input as real / 1000.0, s.output as real / 100.0;
    DotOfFeatures(beta, prefill, decoding);
    hide Power, WeightedSquare, Vec.Dot;
    assert RowOf(s, later, now, decay).x == Vec(1.0, prefill, decoding);
    assert RowOf(s, later, now, decay).w == WeightOf(s, later, now, decay);
    assert beta.Dot(Vec(1.0, prefill, decoding)) == Linear(beta, s.input as real, s.output as real);
  }

  lemma DotOfFeatures(beta: Vec, a: real, b: real)
    ensures beta.Dot(Vec(1.0, a, b)) == beta.x0 + beta.x1 * a + beta.x2 * b
  {
  }

  lemma {:induction false} ErrorIsSampleError(ss: seq<Sample>, n: nat, now: int, decay: nat -> real, beta: Vec)
    requires n <= |ss|
    ensures SquaredError(Rows(ss, now, decay), n, beta) == SampleError(ss, n, now, decay, beta)
  {
    if n > 0 {
      ErrorIsSampleError(ss, n - 1, now, decay, beta);
      RowErrorIsSampleError(ss[n - 1], |ss| - n, now, decay, beta);
      assert Rows(ss, now, decay)[n - 1] == RowOf(ss[n - 1], |ss| - n, now, decay);
      hide RowError, RowOf, WeightedSquare, WeightOf, Linear;
    }
  }

  lemma {:induction false} OutputsAddUp(ss: seq<Sample>, s: Sample)
    ensures TotalOutput([]) == 0 && TotalOutput(ss + [s]) == TotalOutput(ss) + s.output
  {
    if ss == [] {
      assert [s][1..] == [] && [] + [s] == [s];
    } else {
      assert (ss + [s])[1..] == ss[1..] + [s];
      OutputsAddUp(ss[1..], s);
    }
  }

  /** The mean output of the recent samples. */
  function MeanOutput(recent: seq<Sample>): real
    requires recent != []
  {
    TotalOutput(recent) as real / |recent| as real
  }

  /**
   Every prediction of a history is the time that one nonnegative triple gives the size asked for, or one
   millisecond; an omitted output stands for the mean. On the recent samples themselves that triple, with a ridge
   of a thousandth on it, explains the weighted times no worse than nothing does.
   */
  lemma PredictionIsFitted(ss: seq<Sample>, now: int, decay: nat -> real) returns (beta: Vec)
    requires Decay(decay) && Recent(ss, now) != []
    ensures Weighted(Rows(Recent(ss, now), now, decay)) && beta == Descended(Rows(Recent(ss, now), now, decay), 300)
    ensures beta.NonNegative()
    ensures forall input: nat, output: nat ::
              Prediction(ss, input, Some(output), now, decay) ==
              Some(AtLeastOne(Linear(beta, input as real, output as real)))
    ensures forall input: nat ::
              Prediction(ss, input, None, now, decay) ==
              Some(AtLeastOne(Linear(beta, input as real, MeanOutput(Recent(ss, now)))))
    ensures var recent := Recent(ss, now);
            SampleError(recent, |recent|, now, decay, beta) + Ridge(beta.Dot(beta)) <=
            SampleError(recent, |recent|, now, decay, ZERO)
  {
    var recent := Recent(ss, now);
    var rows := Rows(recent, now, decay);
    RowsAreWeighted(recent, now, decay);
    beta := Fit(rows);
    assert beta == Descended(rows, 300);
    FitBeatsZero(rows);
    ErrorIsSampleError(recent, |recent|, now, decay, beta);
    ErrorIsSampleError(recent, |recent|, now, decay, ZERO);
    hide Fit, Descended, Rows, Estimate, Linear, AtLeastOne, SampleError, SquaredError, Vec.Dot;
    forall input: nat, output: nat
      ensures Prediction(ss, input, Some(output), now, decay) ==
              Some(AtLeastOne(Linear(beta, input as real, output as real)))
    {
      LinearIsEstimate(beta, input as real, output as real);
    }
    forall input: nat
      ensures Prediction(ss, input, None, now, decay) ==
              Some(AtLeastOne(Linear(beta, input as real, MeanOutput(recent))))
    {
      LinearIsEstimate(beta, input as real, MeanOutput(recent));
    }
  }

  /** The weighted squared error of a history's own predictions at the sizes of its recent samples. */
  ghost function PredictedError(ss: seq<Sample>, n: nat, now: int, decay: nat -> real): real
    requires Decay(decay) && n <= |Recent(ss, now)|
  {
    if n == 0 then 0.0
    else
      var recent := Recent(ss, now);
      var s := recent[n - 1];
      PredictedError(ss, n - 1, now, decay) +
      WeightedSquare(WeightOf(s, |recent| - n, now, decay),
                     s.elapsed as real - Prediction(ss, s.input, Some(s.output), now, decay).GetOr(0.0))
  }

  /** The predictions at the recent samples explain their times no worse than zero does, if all took a millisecond. */
  lemma PredictionsExplainSamples(ss: seq<Sample>, now: int, decay: nat -> real)
    requires Decay(decay) && forall s :: s in Recent(ss, now) ==> s.elapsed >= 1
    ensures var recent := Recent(ss, now);
            PredictedError(ss, |recent|, now, decay) <= SampleError(recent, |recent|, now, decay, ZERO)
  {
    var recent := Recent(ss, now);
    if recent != [] {
      var beta := PredictionIsFitted(ss, now, decay);
      hide Recent, Prediction, SampleError, PredictedError;
      TruncationHelps(ss, |recent|, now, decay, beta);
      RidgeSign(beta);
    }
  }

  lemma RidgeSign(beta: Vec)
    ensures Ridge(beta.Dot(beta)) >= 0.0
  {
    DotSign(beta);
  }

  lemma {:induction false} TruncationHelps(ss: seq<Sample>, n: nat, now: int, decay: nat -> real, beta: Vec)
    requires Decay(decay) && n <= |Recent(ss, now)| && forall s :: s in Recent(ss, now) ==> s.elapsed >= 1
    requires forall input: nat, output: nat ::
               Prediction(ss, input, Some(output), now, decay) ==
               Some(AtLeastOne(Linear(beta, input as real, output as real)))
    ensures PredictedError(ss, n, now, decay) <= SampleError(Recent(ss, now), n, now, decay, beta)
  {
    if n > 0 {
      var s := Recent(ss, now)[n - 1];
      TruncationHelps(ss, n - 1, now, decay, beta);
      ProductSign(decay(if s.at > now then 0 else now - s.at), Power(|Recent(ss, now)| - n));
      CloserIsBetter(WeightOf(s, |Recent(ss, now)| - n, now, decay), s.elapsed as real,
                     Linear(beta, s.input as real, s.output as real));
      hide Prediction, Recent, WeightedSquare, Linear, AtLeastOne;
    }
  }

  lemma CloserIsBetter(w: real, y: real, ms: real)
    requires w > 0.0 && y >= 1.0
    ensures WeightedSquare(w, y - AtLeastOne(ms)) <= WeightedSquare(w, y - ms)
  {
    var near, far := y - AtLeastOne(ms), y - ms;
    assert near * near <= far * far;
  }

  // ---- percentiles ----

  function Ceil(x: real): int { -((-x).Floor) }

  /** A float as an unsigned integer: negatives become zero. */
  function NonNegative(x: int): nat { if x < 0 then 0 else x }

  /** The nearest-rank position in `n` sorted values. */
  function Rank(n: nat, fraction: real): (k: nat)
    requires n > 0
    ensures k < n
  {
    Min(SatSub(NonNegative(Ceil(Times(n as real, fraction))), 1), n - 1)
  }

  function Elapsed(ss: seq<Sample>): seq<nat> { seq(|ss|, i requires 0 <= i < |ss| => ss[i].elapsed) }

  function Ascending(): (nat, nat) -> bool { (a, b) => a <= b }

  function Percentile(ss: seq<Sample>, fraction: real, now: int): Option<nat> {
    var values := StableSort(Elapsed(Recent(ss, now)), Ascending());
    if values == [] then None else Some(values[Rank(|values|, fraction)])
  }

  method PercentileOf(ss: seq<Sample>, fraction: real, now: int) returns (p: Option<nat>)
    ensures p == Percentile(ss, fraction, now)
  {
    var recent := RetainRecent(ss, now);
    var values := [];
    for i := 0 to |recent|
      invariant values == Elapsed(recent[..i])
    {
      values := values + [recent[i].elapsed];
    }
    assert recent[..|recent|] == recent;
    values := StableSort(values, Ascending());
    p := if values == [] then None else Some(values[Rank(|values|, fraction)]);
  }

  ghost predicate Increasing(s: seq<nat>) { forall i, j :: 0 <= i < j < |s| ==> s[i] <= s[j] }

  lemma SortIncreases(s: seq<nat>)
    ensures Increasing(StableSort(s, Ascending())) && multiset(StableSort(s, Ascending())) == multiset(s)
    ensures |StableSort(s, Ascending())| == |s|
  {
    assert Preorder(Ascending());
    SortSorts(s, Ascending());
    var t := StableSort(s, Ascending());
    forall i, j | 0 <= i < j < |t|
      ensures t[i] <= t[j]
    {
      assert Ascending()(t[i], t[j]);
    }
  }

  /** How many values are at most `v`. */
  function AtMost(values: seq<nat>, v: nat): nat {
    if values == [] then 0 else (if values[0] <= v then 1 else 0) + AtMost(values[1..], v)
  }

  lemma {:induction false} InsertCounts(x: nat, s: seq<nat>, v: nat)
    ensures AtMost(Insert(x, s, Ascending()), v) == AtMost([x] + s, v)
  {
    assert ([x] + s)[1..] == s;
    if s != [] && !(x <= s[0]) {
      InsertCounts(x, s[1..], v);
      assert ([x] + s[1..])[1..] == s[1..];
      assert ([s[0]] + Insert(x, s[1..], Ascending()))[1..] == Insert(x, s[1..], Ascending());
    }
  }

  lemma {:induction false} SortCounts(s: seq<nat>, v: nat)
    ensures AtMost(StableSort(s, Ascending()), v) == AtMost(s, v)
  {
    if s != [] {
      SortCounts(s[1..], v);
      InsertCounts(s[0], StableSort(s[1..], Ascending()), v);
      assert ([s[0]] + StableSort(s[1..], Ascending()))[1..] == StableSort(s[1..], Ascending());
    }
  }

  /** In a sorted sequence the values at most `v` are counted by the position of the last of them. */
  lemma {:induction false} CountInSorted(s: seq<nat>, k: nat, v: nat)
    requires Increasing(s) && k < |s|
    ensures s[k] <= v ==> AtMost(s, v) >= k + 1
    ensures v < s[k] ==> AtMost(s, v) <= k
  {
    if k > 0 {
      CountInSorted(s[1..], k - 1, v);
    } else if v < s[0] {
      NoneAtMost(s, v);
    }
  }

  lemma {:induction false} NoneAtMost(s: seq<nat>, v: nat)
    requires forall i :: 0 <= i < |s| ==> v < s[i]
    ensures AtMost(s, v) == 0
  {
    if s != [] {
      NoneAtMost(s[1..], v);
    }
  }

  lemma ShareBounds(n: nat, fraction: real)
    requires n > 0 && 0.0 < fraction <= 1.0
    ensures 0.0 < Times(n as real, fraction) <= n as real
  {
    ScaledMonotone(n as real, fraction, 1.0);
    ProductSign(n as real, fraction);
  }

  /** The value at the nearest rank covers the fraction, and nothing below it does. */
  lemma RankCovers(s: seq<nat>, fraction: real)
    requires Increasing(s) && s != [] && 0.0 < fraction <= 1.0
    ensures var p, target := s[Rank(|s|, fraction)], Times(|s| as real, fraction);
            AtMost(s, p) as real >= target && forall v: nat :: v < p ==> (AtMost(s, v) as real) < target
  {
    var k, target := Rank(|s|, fraction), Times(|s| as real, fraction);
    ShareBounds(|s|, fraction);
    hide Times;
    CeilBounds(target, |s|);
    assert k == Ceil(target) - 1;
    hide Rank, Ceil, Increasing;
    CountInSorted(s, k, s[k]);
    forall v: nat | v < s[k]
      ensures (AtMost(s, v) as real) < target
    {
      CountInSorted(s, k, v);
    }
  }

  /**
   The percentile is the nearest-rank sample: the least observed time that covers the fraction of the recent
   samples; every smaller time covers less.
   */
  lemma PercentileIsNearestRank(ss: seq<Sample>, fraction: real, now: int)
    requires 0.0 < fraction <= 1.0
    ensures var values := Elapsed(Recent(ss, now));
            var p := Percentile(ss, fraction, now);
            (p.None? <==> values == []) &&
            (p.Some? ==>
               p.value in values && AtMost(values, p.value) as real >= Times(|values| as real, fraction) &&
               forall v: nat :: v < p.value ==> (AtMost(values, v) as real) < Times(|values| as real, fraction))
  {
    var values := Elapsed(Recent(ss, now));
    var s := StableSort(values, Ascending());
    hide Elapsed, Recent, StableSort, Increasing, Rank, AtMost, Times;
    SortIncreases(values);
    if values != [] {
      var p := s[Rank(|s|, fraction)];
      RankCovers(s, fraction);
      forall v: nat
        ensures AtMost(s, v) == AtMost(values, v)
      {
        SortCounts(values, v);
      }
      assert p in multiset(s);
      assert p in multiset(values);
    }
  }

  lemma CeilBounds(x: real, n: nat)
    requires 0.0 < x <= n as real
    ensures 1 <= Ceil(x) <= n && (Ceil(x) - 1) as real < x <= Ceil(x) as real
  {
  }

  lemma CeilIsMonotone(x: real, y: real)
    requires x <= y
    ensures Ceil(x) <= Ceil(y)
  {
    assert -y <= -x;
    assert ((-y).Floor as real) <= -y;
    assert -x < ((-x).Floor + 1) as real;
  }

  lemma RankIsMonotone(n: nat, f: real, g: real)
    requires n > 0 && f <= g
    ensures Rank(n, f) <= Rank(n, g)
  {
    ScaledMonotone(n as real, f, g);
    assert Times(n as real, f) <= Times(n as real, g);
    hide Times;
    CeilIsMonotone(Times(n as real, f), Times(n as real, g));
    hide Ceil;
  }

  /** A larger fraction never gives a smaller percentile. */
  lemma PercentileIsMonotone(ss: seq<Sample>, f: real, g: real, now: int)
    requires f <= g
    ensures var p, q := Percentile(ss, f, now), Percentile(ss, g, now);
            p.Some? == q.Some? && (p.Some? ==> p.value <= q.value)
  {
    var values := Elapsed(Recent(ss, now));
    var s := StableSort(values, Ascending());
    hide Elapsed, Recent, StableSort, Ceil;
    SortIncreases(values);
    if s != [] {
      RankIsMonotone(|s|, f, g);
    }
  }

  // ---- recording ----

  /** The last `n` elements. */
  function Last<T>(s: seq<T>, n: nat): seq<T> { if |s| <= n then s else s[|s| - n..] }

  /** The history after one more sample; a call without a measured time is not recorded. */
  function Recorded(ss: seq<Sample>, s: Sample): seq<Sample> {
    if s.elapsed == 0 then ss else Last(Recent(ss, s.at) + [s], MAX_SAMPLES)
  }

  function AllRecorded(log: seq<Sample>): seq<Sample> {
    if log == [] then [] else Recorded(AllRecorded(log[..|log| - 1]), log[|log| - 1])
  }

  /** Every measured call ever reported. */
  function Measured(log: seq<Sample>): seq<Sample> {
    if log == [] then []
    else Measured(log[..|log| - 1]) + (if log[|log| - 1].elapsed == 0 then [] else [log[|log| - 1]])
  }

  ghost predicate InOrder(log: seq<Sample>) { forall i, j :: 0 <= i < j < |log| ==> log[i].at <= log[j].at }

  /** When everything stale comes first, retaining is dropping a prefix. */
  lemma {:induction false} RecentDrops(ss: seq<Sample>, now: int, c: nat)
    requires c <= |ss| && forall i :: 0 <= i < |ss| ==> (c <= i <==> Fresh(ss[i], now))
    ensures Recent(ss, now) == ss[c..]
  {
    if ss != [] {
      assert forall i :: 0 <= i < |ss| - 1 ==> ss[1..][i] == ss[i + 1];
      RecentDrops(ss[1..], now, if c == 0 then 0 else c - 1);
    }
  }

  /** Where the recent samples of an ordered log start. */
  lemma {:induction false} FindCut(ss: seq<Sample>, now: int) returns (c: nat)
    requires InOrder(ss)
    ensures c <= |ss| && forall i :: 0 <= i < |ss| ==> (c <= i <==> Fresh(ss[i], now))
  {
    c := 0;
    while c < |ss| && !Fresh(ss[c], now)
      invariant c <= |ss| && forall i :: 0 <= i < c ==> !Fresh(ss[i], now)
    {
      c := c + 1;
    }
    if c < |ss| {
      assert forall i :: c < i < |ss| ==> ss[c].at <= ss[i].at;
    }
  }

  lemma {:induction false} MeasuredIsOrdered(log: seq<Sample>)
    requires InOrder(log)
    ensures InOrder(Measured(log)) && (forall s :: s in Measured(log) ==> s in log && s.elapsed > 0)
  {
    if log != [] {
      MeasuredIsOrdered(log[..|log| - 1]);
    }
  }

  /** One record step on the bounded history of a log in time order. */
  lemma RecordStep(full: seq<Sample>, early: int, s: Sample)
    requires InOrder(full + [s]) && early <= s.at
    ensures Last(Recent(Last(Recent(full, early), MAX_SAMPLES), s.at) + [s], MAX_SAMPLES) ==
            Last(Recent(full + [s], s.at), MAX_SAMPLES)
  {
    assert InOrder(full) by {
      assert forall i :: 0 <= i < |full| ==> (full + [s])[i] == full[i];
    }
    var k := FindCut(full, early);
    var c := FindCut(full, s.at);
    assert k > 0 ==> !Fresh(full[k - 1], s.at);
    RecentDrops(full, early, k);
    var m := Max(k, SatSub(|full|, MAX_SAMPLES));
    assert Last(full[k..], MAX_SAMPLES) == full[m..];
    RecentOfTail(full, s.at, c, m);
    RecentOfMore(full, s, c);
    TrimmedAlike(full, s, c, Max(m, c));
  }

  lemma RecentOfTail(full: seq<Sample>, now: int, c: nat, m: nat)
    requires c <= |full| && m <= |full| && forall i :: 0 <= i < |full| ==> (c <= i <==> Fresh(full[i], now))
    ensures Recent(full[m..], now) == full[Max(m, c)..]
  {
    var d := Max(m, c);
    assert forall i :: 0 <= i < |full| - m ==> full[m..][i] == full[m + i];
    hide Fresh;
    RecentDrops(full[m..], now, d - m);
    assert full[m..][d - m..] == full[d..];
  }

  lemma RecentOfMore(full: seq<Sample>, s: Sample, c: nat)
    requires c <= |full| && forall i :: 0 <= i < |full| ==> (c <= i <==> Fresh(full[i], s.at))
    ensures Recent(full + [s], s.at) == full[c..] + [s]
  {
    assert Fresh(s, s.at);
    hide Fresh;
    RecentDrops(full + [s], s.at, c);
    assert (full + [s])[c..] == full[c..] + [s];
  }

  lemma TrimmedAlike(full: seq<Sample>, s: Sample, c: nat, d: nat)
    requires c <= d <= |full| && (d == c || d <= SatSub(|full|, MAX_SAMPLES))
    ensures Last(full[d..] + [s], MAX_SAMPLES) == Last(full[c..] + [s], MAX_SAMPLES)
  {
  }

  /**
   After any run of records in time order the bounded history is the last 128 of the measured calls that are
   not older than seven days at the latest of them: the repeated trimming has lost nothing else.
   */
  lemma {:induction false} HistoryIsRecentLog(log: seq<Sample>)
    requires InOrder(log)
    ensures AllRecorded(log) == Trimmed(Measured(log))
  {
    hide Recorded, Trimmed, InOrder;
    if log == [] {
      TrimmedNothing();
    } else {
      var before, s := log[..|log| - 1], log[|log| - 1];
      OrderedPrefix(log);
      HistoryIsRecentLog(before);
      assert Measured(log) == Measured(before) + (if s.elapsed == 0 then [] else [s]);
      if s.elapsed > 0 {
        MeasuredIsOrdered(log);
        LatestIsLast(log);
        TrimStep(Measured(before), s);
      } else {
        UnmeasuredIsDropped(AllRecorded(before), s);
        assert Measured(before) + [] == Measured(before);
      }
    }
  }

  /** That history is the longest tail of the measured calls that has at most 128 of them and spans at most a week. */
  lemma HistoryIsLongestTail(log: seq<Sample>) returns (k: nat)
    requires InOrder(log) && Measured(log) != []
    ensures k < |Measured(log)| && AllRecorded(log) == Measured(log)[k..] && LongestTail(Measured(log), k)
  {
    HistoryIsRecentLog(log);
    MeasuredIsOrdered(log);
    hide Measured, AllRecorded, LongestTail;
    k := TrimmedIsLongestTail(Measured(log));
  }

  predicate LongestTail(full: seq<Sample>, k: nat)
    requires k < |full|
  {
    |full| - k <= 128 && (forall i :: k <= i < |full| ==> full[|full| - 1].at - full[i].at <= 7 * 24 * 3_600) &&
    (k > 0 ==> |full| - k == 128 || full[|full| - 1].at - full[k - 1].at > 7 * 24 * 3_600)
  }

  lemma TrimmedIsLongestTail(full: seq<Sample>) returns (k: nat)
    requires InOrder(full) && full != []
    ensures k < |full| && Trimmed(full) == full[k..] && LongestTail(full, k)
  {
    var c := FindCut(full, full[|full| - 1].at);
    RecentDrops(full, full[|full| - 1].at, c);
    assert Fresh(full[|full| - 1], full[|full| - 1].at);
    k := if |full| - c <= 128 then c else |full| - 128;
    hide Recent, InOrder;
    assert Trimmed(full) == Last(full[c..], MAX_SAMPLES);
    LastOfTail(full, c);
  }

  lemma LastOfTail(full: seq<Sample>, c: nat)
    requires c <= |full|
    ensures Last(full[c..], MAX_SAMPLES) == full[if |full| - c <= 128 then c else |full| - 128..]
  {
  }

  /** The last 128 of the calls not older than seven days at the latest of them. */
  function Trimmed(full: seq<Sample>): seq<Sample> {
    if full == [] then [] else Last(Recent(full, full[|full| - 1].at), MAX_SAMPLES)
  }

  lemma TrimmedNothing()
    ensures Trimmed([]) == []
  {
  }

  lemma UnmeasuredIsDropped(ss: seq<Sample>, s: Sample)
    requires s.elapsed == 0
    ensures Recorded(ss, s) == ss
  {
  }

  lemma TrimStep(full: seq<Sample>, s: Sample)
    requires InOrder(full + [s]) && s.elapsed > 0 && forall t :: t in full ==> t.at <= s.at
    ensures Recorded(Trimmed(full), s) == Trimmed(full + [s])
  {
    if full == [] {
      RecordFirst(s);
      assert full + [s] == [s];
    } else {
      assert full[|full| - 1] in full;
      RecordStep(full, full[|full| - 1].at, s);
      hide InOrder, Recent, Last;
    }
  }

  lemma OrderedPrefix(log: seq<Sample>)
    requires InOrder(log) && log != []
    ensures InOrder(log[..|log| - 1])
  {
  }

  lemma LatestIsLast(log: seq<Sample>)
    requires InOrder(log) && log != []
    ensures forall s :: s in Measured(log[..|log| - 1]) ==> s.at <= log[|log| - 1].at
  {
    OrderedPrefix(log);
    MeasuredIsOrdered(log[..|log| - 1]);
    forall s | s in Measured(log[..|log| - 1])
      ensures s.at <= log[|log| - 1].at
    {
      var i :| 0 <= i < |log| - 1 && log[i] == s;
    }
  }

  lemma RecordFirst(s: Sample)
    ensures Recent([] + [s], s.at) == [s] && Recorded([], s) == if s.elapsed == 0 then [] else [s]
    ensures Last([s], MAX_SAMPLES) == [s]
  {
    assert [] + [s] == [s];
  }

  /** The histories of all buckets. */
  class LatencyTracker {
    var histories: map<Bucket, seq<Sample>>

    constructor ()
      ensures histories == map[]
    {
      histories := map[];
    }

    function At(b: Bucket): seq<Sample>
      reads this
    {
      if b in histories then histories[b] else []
    }

    method Record(b: Bucket, s: Sample)
      modifies this
      ensures At(b) == Recorded(old(At(b)), s) && forall c :: c != b ==> At(c) == old(At(c))
    {
      if s.elapsed == 0 {
        return;
      }
      var history := RetainRecent(At(b), s.at);
      history := history + [s];
      if |history| > MAX_SAMPLES {
        var excess := |history| - MAX_SAMPLES;
        history := history[excess..];
      }
      histories := histories[b := history];
    }

    method PredictFor(b: Bucket, input: nat, output: Option<nat>, now: int, decay: nat -> real)
      returns (ms: Option<real>)
      requires Decay(decay)
      ensures ms == Prediction(At(b), input, output, now, decay)
    {
      if b !in histories {
        return None;
      }
      ms := Predict(histories[b], input, output, now, decay);
    }
  }
}

/** Confidence calibration: binning, weighted pooling of adjacent violators, rounding, interpolation. */
module Calibration {
  import opened Rounding
  import opened Products

  datatype Sample = Sample(confidence: real, success: bool)

  /** A fitted point of the curve: at stated confidence `mid` the pooled success rate over `n` samples is `rate`. */
  datatype Bin = Bin(mid: real, rate: real, n: nat)

  datatype Curve = Curve(bins: seq<Bin>)

  /** Raw tally of one confidence bin. */
  datatype Agg = Agg(successes: nat, n: nat)

  /** A pooled block; a single non-empty bin is a block of its own. */
  datatype Block = Block(mid: real, rate: real, weight: real, n: nat)

  const BIN_COUNT: nat := 5

  function Clamp01(x: real): real {
    if x < 0.0 then 0.0 else if x > 1.0 then 1.0 else x
  }

  /** The clamp picks the point of [0,1] that is nearest to x. */
  lemma ClampNearest(x: real, y: real)
    requires 0.0 <= y <= 1.0
    ensures 0.0 <= Clamp01(x) <= 1.0
    ensures y <= x ==> y <= Clamp01(x) <= x
    ensures y >= x ==> y >= Clamp01(x) >= x
  {}

  function BinOf(confidence: real): (i: nat)
    ensures i < BIN_COUNT
  {
    var i := (Clamp01(confidence) * BIN_COUNT as real).Floor;
    if i == BIN_COUNT then i - 1 else i
  }

  // ---------------------------------------------------------------- binning

  /** Reference tally: what bin `i` holds after the given samples. */
  ghost function Tally(samples: seq<Sample>, i: nat): Agg {
    if samples == [] then Agg(0, 0)
    else
      var s := samples[|samples| - 1];
      var t := Tally(samples[..|samples| - 1], i);
      if BinOf(s.confidence) != i then t
      else Agg(t.successes + (if s.success then 1 else 0), t.n + 1)
  }

  lemma {:induction false} TallyBounds(samples: seq<Sample>, i: nat)
    ensures Tally(samples, i).successes <= Tally(samples, i).n
  {
    if samples != [] {
      TallyBounds(samples[..|samples| - 1], i);
    }
  }

  /** Every sample falls into exactly one bin. */
  lemma {:induction false} TallyTotal(samples: seq<Sample>)
    ensures Tally(samples, 0).n + Tally(samples, 1).n + Tally(samples, 2).n + Tally(samples, 3).n + Tally(samples, 4).n
         == |samples|
  {
    if samples != [] {
      TallyTotal(samples[..|samples| - 1]);
      var b := BinOf(samples[|samples| - 1].confidence);
      assert b == 0 || b == 1 || b == 2 || b == 3 || b == 4;
    }
  }

  method BinSamples(samples: seq<Sample>) returns (bins: array<Agg>)
    ensures fresh(bins) && bins.Length == BIN_COUNT
    ensures forall i :: 0 <= i < BIN_COUNT ==> bins[i] == Tally(samples, i)
  {
    bins := new Agg[BIN_COUNT](_ => Agg(0, 0));
    for k := 0 to |samples|
      invariant forall i :: 0 <= i < BIN_COUNT ==> bins[i] == Tally(samples[..k], i)
    {
      assert samples[..k + 1][..k] == samples[..k];
      var i := BinOf(samples[k].confidence);
      bins[i] := bins[i].(n := bins[i].n + 1);
      if samples[k].success {
        bins[i] := bins[i].(successes := bins[i].successes + 1);
      }
    }
    assert samples[..|samples|] == samples;
  }

  // ---------------------------------------------------------------- observations

  function Observation(i: nat, b: Agg): Block
    requires b.n > 0
  {
    Block((i as real + 0.5) / BIN_COUNT as real, b.successes as real / b.n as real, b.n as real, b.n)
  }

  /** One observation per non-empty bin, in bin order. */
  ghost function Observations(bins: seq<Agg>): seq<Block> {
    if bins == [] then []
    else
      var k := |bins| - 1;
      Observations(bins[..k]) + (if bins[k].n == 0 then [] else [Observation(k, bins[k])])
  }

  ghost predicate GoodObservations(obs: seq<Block>) {
    && (forall i :: 0 <= i < |obs| ==> obs[i].weight > 0.0 && 0.0 <= obs[i].rate <= 1.0)
    && (forall i, j :: 0 <= i < j < |obs| ==> obs[i].mid + 0.2 <= obs[j].mid)
  }

  lemma {:induction false} ObservationsGood(bins: seq<Agg>)
    requires forall i :: 0 <= i < |bins| ==> bins[i].successes <= bins[i].n
    ensures GoodObservations(Observations(bins))
    ensures forall o :: o in Observations(bins) ==> o.mid <= (|bins| as real - 0.5) / 5.0
  {
    if bins != [] {
      var k := |bins| - 1;
      ObservationsGood(bins[..k]);
      if bins[k].n > 0 {
        ObservationBounds(k, bins[k]);
        hide Observation;
        var front, o := Observations(bins[..k]), Observation(k, bins[k]);
        assert Observations(bins) == front + [o];
        hide Observations;
        GoodSnoc(front, o);
      }
    }
  }

  lemma GoodSnoc(front: seq<Block>, o: Block)
    requires GoodObservations(front) && o.weight > 0.0 && 0.0 <= o.rate <= 1.0
    requires forall b :: b in front ==> b.mid + 0.2 <= o.mid
    ensures GoodObservations(front + [o])
  {
    assert forall i :: 0 <= i < |front| ==> front[i] in front;
  }

  lemma ObservationBounds(i: nat, b: Agg)
    requires 0 < b.n && b.successes <= b.n
    ensures var o := Observation(i, b); o.weight > 0.0 && 0.0 <= o.rate <= 1.0 && o.mid == (i as real + 0.5) / 5.0
  {
    var rate := b.successes as real / b.n as real;
    assert rate * b.n as real == b.successes as real;
  }

  ghost function Count(g: seq<Block>): nat {
    if g == [] then 0 else Count(g[..|g| - 1]) + g[|g| - 1].n
  }

  lemma {:induction false} CountConcat(g: seq<Block>, h: seq<Block>)
    ensures Count(g + h) == Count(g) + Count(h)
  {
    if h == [] {
      assert g + h == g;
    } else {
      assert (g + h)[..|g + h| - 1] == g + h[..|h| - 1];
      CountConcat(g, h[..|h| - 1]);
    }
  }

  // ---------------------------------------------------------------- what the observations say about the samples

  /** The fifth of [0,1] around mid, closed below and open above. The first one also takes everything below it, the last
      one everything from 0.8 on. */
  ghost predicate InFifth(mid: real, confidence: real) {
    (mid - 0.1 <= confidence || mid == 0.1) && (confidence < mid + 0.1 || mid == 0.9)
  }

  ghost function CountIn(samples: seq<Sample>, mid: real): nat {
    if samples == [] then 0
    else
      CountIn(samples[..|samples| - 1], mid) + (if InFifth(mid, samples[|samples| - 1].confidence) then 1 else 0)
  }

  ghost function SuccessesIn(samples: seq<Sample>, mid: real): nat {
    if samples == [] then 0
    else
      var s := samples[|samples| - 1];
      SuccessesIn(samples[..|samples| - 1], mid) + (if InFifth(mid, s.confidence) && s.success then 1 else 0)
  }

  /** An observation weighs the samples of the fifth around its midpoint, and its rate is their success rate. */
  ghost predicate ObservesFifth(samples: seq<Sample>, o: Block) {
    && (o.mid == 0.1 || o.mid == 0.3 || o.mid == 0.5 || o.mid == 0.7 || o.mid == 0.9)
    && o.n == CountIn(samples, o.mid) > 0 && o.weight == o.n as real
    && Times(o.weight, o.rate) == SuccessesIn(samples, o.mid) as real
  }

  /** Every observation is that of a fifth of its own, in ascending order, and every sample is observed. */
  ghost predicate Observes(samples: seq<Sample>, obs: seq<Block>) {
    && (forall i :: 0 <= i < |obs| ==> ObservesFifth(samples, obs[i]))
    && (forall i, j :: 0 <= i < j < |obs| ==> obs[i].mid < obs[j].mid)
    && (forall s :: s in samples ==> exists i :: 0 <= i < |obs| && InFifth(obs[i].mid, s.confidence))
  }

  /** A sample's confidence, brought into [0,1], is within 0.1 of the midpoint of its fifth. */
  lemma FifthIsNear(mid: real, confidence: real)
    requires mid == 0.1 || mid == 0.3 || mid == 0.5 || mid == 0.7 || mid == 0.9
    requires InFifth(mid, confidence)
    ensures 0.0 <= confidence <= 1.0 ==> mid - 0.1 <= confidence <= mid + 0.1
    ensures confidence < 0.0 ==> mid == 0.1
    ensures confidence > 1.0 ==> mid == 0.9
  {}

  function MidOfBin(i: nat): real {
    (i as real + 0.5) / 5.0
  }

  lemma BinIsFifth(confidence: real, i: nat)
    requires i < BIN_COUNT
    ensures BinOf(confidence) == i <==> InFifth(MidOfBin(i), confidence)
    ensures MidOfBin(0) == 0.1 && MidOfBin(1) == 0.3 && MidOfBin(2) == 0.5 && MidOfBin(3) == 0.7 && MidOfBin(4) == 0.9
  {
    assert i == 0 || i == 1 || i == 2 || i == 3 || i == 4;
  }

  lemma {:induction false} TallyIsCount(samples: seq<Sample>, i: nat)
    requires i < BIN_COUNT
    ensures Tally(samples, i) == Agg(SuccessesIn(samples, MidOfBin(i)), CountIn(samples, MidOfBin(i)))
  {
    if samples != [] {
      TallyIsCount(samples[..|samples| - 1], i);
      BinIsFifth(samples[|samples| - 1].confidence, i);
      hide BinOf, InFifth, MidOfBin;
    }
  }

  lemma {:induction false} ObservationsOfBins(bins: seq<Agg>)
    ensures forall o :: o in Observations(bins) ==>
              exists i: nat :: i < |bins| && bins[i].n > 0 && o == Observation(i, bins[i])
    ensures forall i: nat :: i < |bins| && bins[i].n > 0 ==> Observation(i, bins[i]) in Observations(bins)
  {
    hide Observation;
    if bins != [] {
      var k := |bins| - 1;
      ObservationsOfBins(bins[..k]);
      forall o | o in Observations(bins)
        ensures exists i: nat :: i < |bins| && bins[i].n > 0 && o == Observation(i, bins[i])
      {
        if o in Observations(bins[..k]) {
          var i: nat :| i < k && bins[..k][i].n > 0 && o == Observation(i, bins[..k][i]);
          assert bins[i].n > 0 && o == Observation(i, bins[i]);
        } else {
          assert bins[k].n > 0 && o == Observation(k, bins[k]);
        }
      }
      forall i: nat | i < |bins| && bins[i].n > 0 ensures Observation(i, bins[i]) in Observations(bins) {
        if i < k {
          assert bins[..k][i].n > 0 && Observation(i, bins[..k][i]) in Observations(bins[..k]);
        }
      }
    }
  }

  lemma ObservationOfFifth(samples: seq<Sample>, i: nat, b: Agg)
    requires i < BIN_COUNT && b == Agg(SuccessesIn(samples, MidOfBin(i)), CountIn(samples, MidOfBin(i))) && b.n > 0
    ensures ObservesFifth(samples, Observation(i, b))
  {
    hide Observation, Times, BinOf, InFifth, CountIn, SuccessesIn, MidOfBin;
    BinIsFifth(0.0, i);
    ObservationMid(i, b);
    assert i == 0 || i == 1 || i == 2 || i == 3 || i == 4;
  }

  lemma ObservationMid(i: nat, b: Agg)
    requires b.n > 0
    ensures var o := Observation(i, b);
            && o.mid == MidOfBin(i) && o.n == b.n && o.weight == b.n as real
            && Times(o.weight, o.rate) == b.successes as real
  {
    var rate := b.successes as real / b.n as real;
    assert b.n as real * rate == b.successes as real;
  }

  /** MAIN: the observations of a fit are the success rates of the fifths of [0,1] that hold samples. */
  lemma SamplesObserved(samples: seq<Sample>)
    ensures Observes(samples, SampleObservations(samples))
  {
    var bins := seq(BIN_COUNT, i requires 0 <= i => Tally(samples, i));
    var obs := SampleObservations(samples);
    hide Observation, Observations, Tally, BinOf, InFifth, MidOfBin;
    SampleObservationsGood(samples);
    ObservationsOfBins(bins);
    forall i: nat | i < BIN_COUNT
      ensures bins[i] == Agg(SuccessesIn(samples, MidOfBin(i)), CountIn(samples, MidOfBin(i)))
    {
      TallyIsCount(samples, i);
    }
    forall k | 0 <= k < |obs| ensures ObservesFifth(samples, obs[k]) {
      assert obs[k] in obs;
      var i: nat :| i < |bins| && bins[i].n > 0 && obs[k] == Observation(i, bins[i]);
      ObservationOfFifth(samples, i, bins[i]);
    }
    forall s | s in samples ensures exists k :: 0 <= k < |obs| && InFifth(obs[k].mid, s.confidence) {
      var i := BinOf(s.confidence);
      BinIsFifth(s.confidence, i);
      CountedSomewhere(samples, s, MidOfBin(i));
      assert Observation(i, bins[i]) in obs;
      var k :| 0 <= k < |obs| && obs[k] == Observation(i, bins[i]);
      ObservationMid(i, bins[i]);
    }
  }

  lemma {:induction false} CountedSomewhere(samples: seq<Sample>, s: Sample, mid: real)
    requires s in samples && InFifth(mid, s.confidence)
    ensures CountIn(samples, mid) > 0
  {
    hide InFifth;
    var k := |samples| - 1;
    if samples[k] != s {
      CountedSomewhere(samples[..k], s, mid);
    }
  }

  // ---------------------------------------------------------------- weighted squares
  function WeightedSquare(w: real, d: real): real { w * (d * d) }

  lemma WeightedSquarePositive(w: real, d: real)
    requires w > 0.0
    ensures WeightedSquare(w, d) >= 0.0
    ensures d != 0.0 ==> WeightedSquare(w, d) > 0.0
  {
    var q := d * d;
    if d > 0.0 {
      TimesSign(d, d);
    } else if d < 0.0 {
      TimesSign(-d, -d);
    }
    assert q >= 0.0 && (d != 0.0 ==> q > 0.0);
    TimesSign(w, q);
  }

  /** Expanding w(r-y)^2 around m. */
  lemma WeightedSquareSplit(w: real, r: real, y: real, m: real)
    ensures WeightedSquare(w, r - y)
         == WeightedSquare(w, r - m) + WeightedSquare(w, y - m)
          + 2.0 * (Times(m, Times(w, r - m)) - Times(Times(w, r - m), y))
  {
    assert (r - y) * (r - y) == (r - m) * (r - m) + (y - m) * (y - m) + 2.0 * ((r - m) * (m - y));
    assert w * ((r - m) * (m - y)) == w * (r - m) * m - w * (r - m) * y;
  }

  // ---------------------------------------------------------------- weighted deviations

  function RateOf(b: Block): real { b.rate }
  function MidOf(b: Block): real { b.mid }

  ghost function Weight(g: seq<Block>): real {
    if g == [] then 0.0 else Weight(g[..|g| - 1]) + g[|g| - 1].weight
  }

  /** Sum of weight * (f - m); it is zero exactly when m is the weighted mean of f. */
  ghost function Dev(g: seq<Block>, f: Block -> real, m: real): real {
    if g == [] then 0.0 else Dev(g[..|g| - 1], f, m) + Times(g[|g| - 1].weight, f(g[|g| - 1]) - m)
  }

  lemma {:induction false} DevConcat(g: seq<Block>, h: seq<Block>, f: Block -> real, m: real)
    ensures Dev(g + h, f, m) == Dev(g, f, m) + Dev(h, f, m)
    ensures Weight(g + h) == Weight(g) + Weight(h)
  {
    hide Times;
    if h == [] {
      assert g + h == g;
    } else {
      assert (g + h)[..|g + h| - 1] == g + h[..|h| - 1];
      DevConcat(g, h[..|h| - 1], f, m);
    }
  }

  lemma {:induction false} DevShift(g: seq<Block>, f: Block -> real, m: real, m': real)
    ensures Dev(g, f, m') == Dev(g, f, m) + Times(Weight(g), m - m')
  {
    if g == [] {
      assert Times(0.0, m - m') == 0.0;
    } else {
      hide Times;
      var k := |g| - 1;
      DevShift(g[..k], f, m, m');
      TimesSum(g[k].weight, f(g[k]) - m, m - m', f(g[k]) - m');
      TimesSum(m - m', Weight(g[..k]), g[k].weight, Weight(g));
    }
  }

  ghost predicate Positive(g: seq<Block>) {
    forall i :: 0 <= i < |g| ==> g[i].weight > 0.0
  }

  lemma {:induction false} WeightPositive(g: seq<Block>)
    requires Positive(g)
    ensures Weight(g) >= 0.0
    ensures g != [] ==> Weight(g) > 0.0
  {
    if g != [] {
      WeightPositive(g[..|g| - 1]);
    }
  }

  lemma {:induction false} DevAtMost(g: seq<Block>, f: Block -> real, m: real)
    requires Positive(g) && forall i :: 0 <= i < |g| ==> f(g[i]) <= m
    ensures Dev(g, f, m) <= 0.0
  {
    hide Times;
    if g != [] {
      var k := |g| - 1;
      DevAtMost(g[..k], f, m);
      TimesSign(g[k].weight, f(g[k]) - m);
    }
  }

  lemma {:induction false} DevAtLeast(g: seq<Block>, f: Block -> real, m: real)
    requires Positive(g) && forall i :: 0 <= i < |g| ==> f(g[i]) >= m
    ensures Dev(g, f, m) >= 0.0
  {
    hide Times;
    if g != [] {
      var k := |g| - 1;
      DevAtLeast(g[..k], f, m);
      TimesSign(g[k].weight, f(g[k]) - m);
    }
  }

  /** A weighted mean lies between bounds on its terms. */
  lemma MeanBetween(g: seq<Block>, f: Block -> real, m: real, lo: real, hi: real)
    requires Positive(g) && g != [] && Dev(g, f, m) == 0.0
    requires forall i :: 0 <= i < |g| ==> lo <= f(g[i]) <= hi
    ensures lo <= m <= hi
  {
    hide Times;
    WeightPositive(g);
    DevAtLeast(g, f, lo);
    DevAtMost(g, f, hi);
    DevShift(g, f, m, lo);
    DevShift(g, f, m, hi);
    TimesSign(Weight(g), m - lo);
    TimesSign(Weight(g), m - hi);
  }

  // ---------------------------------------------------------------- pooled groups

  /** The block is the weighted summary of the observations it pooled. */
  ghost predicate Summarises(b: Block, g: seq<Block>) {
    && g != []
    && Positive(g)
    && b.weight == Weight(g)
    && b.n == Count(g)
    && Dev(g, MidOf, b.mid) == 0.0
    && Dev(g, RateOf, b.rate) == 0.0
  }

  /** Every prefix of the group averages at least the group's mean m. */
  ghost predicate PrefixesAbove(g: seq<Block>, m: real) {
    forall k :: 0 <= k <= |g| ==> Dev(g[..k], RateOf, m) >= 0.0
  }

  function Merge(a: Block, b: Block): Block
    requires a.weight + b.weight != 0.0
  {
    Block((a.mid * a.weight + b.mid * b.weight) / (a.weight + b.weight),
          (a.rate * a.weight + b.rate * b.weight) / (a.weight + b.weight),
          a.weight + b.weight,
          a.n + b.n)
  }

  /** m is the mean of x and y weighted by u and v. */
  ghost predicate MeanOf(m: real, x: real, u: real, y: real, v: real) {
    Times(u, x - m) + Times(v, y - m) == 0.0
  }

  lemma DivisionIsMean(x: real, u: real, y: real, v: real, m: real)
    requires u > 0.0 && v > 0.0 && m == (x * u + y * v) / (u + v)
    ensures MeanOf(m, x, u, y, v)
  {
    assert m * (u + v) == x * u + y * v;
  }

  lemma MergeMeans(a: Block, b: Block)
    requires a.weight > 0.0 && b.weight > 0.0
    ensures MeanOf(Merge(a, b).mid, a.mid, a.weight, b.mid, b.weight)
    ensures MeanOf(Merge(a, b).rate, a.rate, a.weight, b.rate, b.weight)
  {
    DivisionIsMean(a.mid, a.weight, b.mid, b.weight, Merge(a, b).mid);
    DivisionIsMean(a.rate, a.weight, b.rate, b.weight, Merge(a, b).rate);
  }

  lemma MeanInside(m: real, x: real, u: real, y: real, v: real)
    requires u > 0.0 && v > 0.0 && MeanOf(m, x, u, y, v) && x > y
    ensures y < m < x
  {
    hide Times;
    TimesSign(u, x - m);
    TimesSign(v, y - m);
  }

  lemma MergeMean(g: seq<Block>, h: seq<Block>, f: Block -> real, x: real, y: real, m: real)
    requires Dev(g, f, x) == 0.0 && Dev(h, f, y) == 0.0
    requires MeanOf(m, x, Weight(g), y, Weight(h))
    ensures Dev(g + h, f, m) == 0.0
  {
    hide Times;
    DevConcat(g, h, f, m);
    DevShift(g, f, x, m);
    DevShift(h, f, y, m);
  }

  lemma MergeSummarises(a: Block, g: seq<Block>, b: Block, h: seq<Block>)
    requires Summarises(a, g) && Summarises(b, h)
    ensures a.weight > 0.0 && b.weight > 0.0
    ensures Summarises(Merge(a, b), g + h)
  {
    hide Times, Dev, MeanOf;
    WeightPositive(g);
    WeightPositive(h);
    MergeMeans(a, b);
    MergeMean(g, h, MidOf, a.mid, b.mid, Merge(a, b).mid);
    MergeMean(g, h, RateOf, a.rate, b.rate, Merge(a, b).rate);
    DevConcat(g, h, RateOf, 0.0);
    CountConcat(g, h);
  }

  /** Pooling a violating pair keeps the prefix property that makes the pooled mean optimal. */
  lemma MergePrefixes(g: seq<Block>, x: real, h: seq<Block>, y: real, m: real)
    requires Positive(g) && Positive(h) && Dev(g, RateOf, x) == 0.0
    requires PrefixesAbove(g, x) && PrefixesAbove(h, y)
    requires y <= m <= x && MeanOf(m, x, Weight(g), y, Weight(h))
    ensures PrefixesAbove(g + h, m)
  {
    hide Times, Dev;
    forall k | 0 <= k <= |g + h|
      ensures Dev((g + h)[..k], RateOf, m) >= 0.0
    {
      if k <= |g| {
        assert (g + h)[..k] == g[..k];
        PrefixInFirst(g, x, m, k);
      } else {
        assert (g + h)[..k] == g + h[..k - |g|];
        DevShift(g, RateOf, x, m);
        PrefixInSecond(g, h, y, m, k - |g|);
      }
    }
  }

  lemma PrefixInFirst(g: seq<Block>, r: real, m: real, k: nat)
    requires Positive(g) && PrefixesAbove(g, r) && m <= r && k <= |g|
    ensures Dev(g[..k], RateOf, m) >= 0.0
  {
    hide Times, Dev;
    DevShift(g[..k], RateOf, r, m);
    WeightPositive(g[..k]);
    TimesNonNegative(Weight(g[..k]), r - m);
  }

  lemma PrefixInSecond(g: seq<Block>, h: seq<Block>, y: real, m: real, k: nat)
    requires Positive(h) && PrefixesAbove(h, y) && y <= m && k <= |h|
    requires Dev(g, RateOf, m) + Times(Weight(h), y - m) == 0.0
    ensures Dev(g + h[..k], RateOf, m) >= 0.0
  {
    hide Times, Dev;
    DevShift(h[..k], RateOf, y, m);
    assert h == h[..k] + h[k..];
    DevConcat(h[..k], h[k..], RateOf, 0.0);
    TimesSum(y - m, Weight(h[..k]), Weight(h[k..]), Weight(h));
    WeightPositive(h[k..]);
    TimesNonNegative(Weight(h[k..]), m - y);
    TimesNegated(Weight(h[k..]), y - m);
    DevConcat(g, h[..k], RateOf, m);
  }

  // ---------------------------------------------------------------- the fit

  ghost function Flatten(groups: seq<seq<Block>>): seq<Block> {
    if groups == [] then [] else Flatten(groups[..|groups| - 1]) + groups[|groups| - 1]
  }

  /** The blocks pool the observations: consecutive groups, each summarised by its block and with the
      prefix property. */
  ghost predicate Pools(obs: seq<Block>, groups: seq<seq<Block>>, blocks: seq<Block>) {
    && |groups| == |blocks|
    && Flatten(groups) == obs
    && forall k :: 0 <= k < |blocks| ==> Summarises(blocks[k], groups[k]) && PrefixesAbove(groups[k], blocks[k].rate)
  }

  ghost predicate RatesSorted(blocks: seq<Block>, upto: int)
    requires upto <= |blocks|
  {
    forall i, j :: 0 <= i < j < upto ==> blocks[i].rate <= blocks[j].rate
  }

  lemma PoolsAppend(obs: seq<Block>, groups: seq<seq<Block>>, blocks: seq<Block>, o: Block)
    requires Pools(obs, groups, blocks) && o.weight > 0.0
    ensures Pools(obs + [o], groups + [[o]], blocks + [o])
  {
    var g := [o];
    assert Positive(g);
    assert g[..0] == [] && g[..1] == g;
    assert Weight(g) == Weight(g[..0]) + o.weight;
    assert Count(g) == Count(g[..0]) + o.n;
    assert Dev(g, MidOf, o.mid) == Dev(g[..0], MidOf, o.mid) + Times(o.weight, o.mid - o.mid);
    assert Dev(g, RateOf, o.rate) == Dev(g[..0], RateOf, o.rate) + Times(o.weight, o.rate - o.rate);
    var gs := groups + [g];
    assert gs[..|gs| - 1] == groups;
  }

  lemma PoolsMerge(obs: seq<Block>, groups: seq<seq<Block>>, blocks: seq<Block>)
    requires Pools(obs, groups, blocks) && |blocks| > 1
    requires blocks[|blocks| - 2].rate > blocks[|blocks| - 1].rate
    ensures var n := |blocks|; var a, b := blocks[n - 2], blocks[n - 1];
            && a.weight > 0.0 && b.weight > 0.0
            && Pools(obs, groups[..n - 2] + [groups[n - 2] + groups[n - 1]], blocks[..n - 2] + [Merge(a, b)])
            && Merge(a, b).rate < a.rate
  {
    hide Times, Dev, MeanOf;
    var n := |blocks|;
    var a, b := blocks[n - 2], blocks[n - 1];
    MergeSummarises(a, groups[n - 2], b, groups[n - 1]);
    MergeMeans(a, b);
    MeanInside(Merge(a, b).rate, a.rate, a.weight, b.rate, b.weight);
    MergePrefixes(groups[n - 2], a.rate, groups[n - 1], b.rate, Merge(a, b).rate);
    var gs := groups[..n - 2] + [groups[n - 2] + groups[n - 1]];
    assert gs[..n - 2] == groups[..n - 2];
    assert groups[..n - 1][..n - 2] == groups[..n - 2];
    assert Flatten(groups[..n - 1]) == Flatten(groups[..n - 2]) + groups[n - 2];
    assert Flatten(gs) == Flatten(groups[..n - 2]) + (groups[n - 2] + groups[n - 1]);
  }

  /** The inner loop: merge the last two blocks while they violate monotonicity. */
  method PoolTail(start: seq<Block>, ghost obs: seq<Block>, ghost startGroups: seq<seq<Block>>)
    returns (blocks: seq<Block>, ghost groups: seq<seq<Block>>)
    requires Pools(obs, startGroups, start) && RatesSorted(start, |start| - 1)
    ensures Pools(obs, groups, blocks) && RatesSorted(blocks, |blocks|)
  {
    blocks, groups := start, startGroups;
    while |blocks| > 1 && blocks[|blocks| - 2].rate > blocks[|blocks| - 1].rate
      invariant Pools(obs, groups, blocks) && RatesSorted(blocks, |blocks| - 1)
      decreases |blocks|
    {
      PoolsMerge(obs, groups, blocks);
      var n := |blocks|;
      groups := groups[..n - 2] + [groups[n - 2] + groups[n - 1]];
      blocks := blocks[..n - 2] + [Merge(blocks[n - 2], blocks[n - 1])];
    }
  }

  function RoundBin(b: Block): Bin {
    Bin(Round2(b.mid), Round2(b.rate), b.n)
  }

  ghost predicate RoundsTo(blocks: seq<Block>, bins: seq<Bin>) {
    && |bins| == |blocks|
    && forall k :: 0 <= k < |bins| ==> bins[k] == RoundBin(blocks[k])
  }

  /** The points have the blocks' sample counts, and midpoints and rates within half a hundredth of the blocks'. */
  ghost predicate Near(blocks: seq<Block>, bins: seq<Bin>) {
    && |bins| == |blocks|
    && forall k :: 0 <= k < |bins| ==>
         && bins[k].n == blocks[k].n
         && blocks[k].mid - 0.005 <= bins[k].mid <= blocks[k].mid + 0.005
         && blocks[k].rate - 0.005 <= bins[k].rate <= blocks[k].rate + 0.005
  }

  lemma RoundedIsNear(blocks: seq<Block>, bins: seq<Bin>)
    requires RoundsTo(blocks, bins)
    ensures Near(blocks, bins)
  {
    forall k | 0 <= k < |bins|
      ensures blocks[k].mid - 0.005 <= bins[k].mid <= blocks[k].mid + 0.005
      ensures blocks[k].rate - 0.005 <= bins[k].rate <= blocks[k].rate + 0.005
    {
      Round2Near(blocks[k].mid);
      Round2Near(blocks[k].rate);
    }
  }

  method RoundBlocks(blocks: seq<Block>) returns (bins: seq<Bin>)
    ensures RoundsTo(blocks, bins)
  {
    bins := [];
    for k := 0 to |blocks|
      invariant RoundsTo(blocks[..k], bins)
    {
      bins := bins + [RoundBin(blocks[k])];
    }
    assert blocks[..|blocks|] == blocks;
  }

  ghost function SampleObservations(samples: seq<Sample>): seq<Block> {
    Observations(seq(BIN_COUNT, i requires 0 <= i => Tally(samples, i)))
  }

  /** A well-formed curve: strictly increasing midpoints, non-decreasing rates in [0,1]. */
  ghost predicate WellFormed(c: Curve) {
    && (forall i :: 0 <= i < |c.bins| ==> 0.0 <= c.bins[i].rate <= 1.0)
    && (forall i, j :: 0 <= i < j < |c.bins| ==> c.bins[i].mid < c.bins[j].mid && c.bins[i].rate <= c.bins[j].rate)
  }

  ghost function TotalN(bins: seq<Bin>): nat {
    if bins == [] then 0 else TotalN(bins[..|bins| - 1]) + bins[|bins| - 1].n
  }

  /** MAIN: the pooled rates are the isotonic regression of the observed ones, and the curve is their rounding: still
      monotone, still with strictly increasing midpoints, and accounting for every sample.
      `groups` and `blocks` are the unrounded fit. */
  method FitCalibration(samples: seq<Sample>)
    returns (curve: Curve, ghost blocks: seq<Block>, ghost groups: seq<seq<Block>>)
    ensures Pools(SampleObservations(samples), groups, blocks) && RatesSorted(blocks, |blocks|)
    ensures UniqueOptimum(SampleObservations(samples), Fitted(groups, blocks))
    ensures Observes(samples, SampleObservations(samples))
    ensures RoundsTo(blocks, curve.bins) && Near(blocks, curve.bins)
    ensures WellFormed(curve)
    ensures TotalN(curve.bins) == |samples|
    ensures curve.bins == [] <==> samples == []
  {
    var bins := BinSamples(samples);
    ghost var tallies := seq(BIN_COUNT, i requires 0 <= i => Tally(samples, i));
    var pooled: seq<Block> := [];
    groups := [];
    for i := 0 to BIN_COUNT
      invariant forall k :: 0 <= k < BIN_COUNT ==> bins[k] == tallies[k]
      invariant Pools(Observations(tallies[..i]), groups, pooled) && RatesSorted(pooled, |pooled|)
    {
      assert tallies[..i + 1][..i] == tallies[..i];
      if bins[i].n != 0 {
        var o := Observation(i, bins[i]);
        PoolsAppend(Observations(tallies[..i]), groups, pooled, o);
        pooled, groups := PoolTail(pooled + [o], Observations(tallies[..i + 1]), groups + [[o]]);
      }
    }
    assert tallies[..BIN_COUNT] == tallies;
    blocks := pooled;
    var out := RoundBlocks(pooled);
    curve := Curve(out);
    SamplesObserved(samples);
    RoundedIsNear(blocks, out);
    FitIsUniqueOptimum(samples, groups, blocks);
    FitWellFormed(samples, groups, blocks, curve);
    FitCounts(samples, groups, blocks, curve);
  }

  // ---------------------------------------------------------------- optimality

  /** Weighted squared error of the assignment y. */
  ghost function Cost(g: seq<Block>, y: seq<real>): real
    requires |g| == |y|
  {
    if g == [] then 0.0
    else
      var k := |g| - 1;
      Cost(g[..k], y[..k]) + WeightedSquare(g[k].weight, g[k].rate - y[k])
  }

  /** Weighted squared distance between two assignments. */
  ghost function Distance(g: seq<Block>, y: seq<real>, z: seq<real>): real
    requires |g| == |y| == |z|
  {
    if g == [] then 0.0
    else
      var k := |g| - 1;
      Distance(g[..k], y[..k], z[..k]) + WeightedSquare(g[k].weight, y[k] - z[k])
  }

  ghost function Const(n: nat, m: real): (s: seq<real>)
    ensures |s| == n && forall i :: 0 <= i < n ==> s[i] == m
  {
    seq(n, _ => m)
  }

  ghost predicate NonDecreasing(y: seq<real>) {
    forall i, j :: 0 <= i < j < |y| ==> y[i] <= y[j]
  }

  /** Sum of weight * (rate - m) * y. */
  ghost function Moment(g: seq<Block>, m: real, y: seq<real>): real
    requires |g| == |y|
  {
    if g == [] then 0.0
    else
      var k := |g| - 1;
      Moment(g[..k], m, y[..k]) + Times(Times(g[k].weight, g[k].rate - m), y[k])
  }

  lemma {:induction false} CostAroundMean(g: seq<Block>, m: real, y: seq<real>)
    requires |g| == |y|
    ensures Cost(g, y) == Cost(g, Const(|g|, m)) + Distance(g, y, Const(|g|, m))
                        + 2.0 * (Times(m, Dev(g, RateOf, m)) - Moment(g, m, y))
  {
    if g == [] {
      assert Times(m, 0.0) == 0.0;
    } else {
      hide Times, WeightedSquare;
      var k := |g| - 1;
      CostAroundMean(g[..k], m, y[..k]);
      assert Const(|g|, m)[..k] == Const(k, m);
      WeightedSquareSplit(g[k].weight, g[k].rate, y[k], m);
      TimesSum(m, Dev(g[..k], RateOf, m), Times(g[k].weight, g[k].rate - m), Dev(g, RateOf, m));
    }
  }

  /** Summation by parts: non-negative partial sums against a non-decreasing y. */
  lemma {:induction false} MomentBound(g: seq<Block>, m: real, y: seq<real>)
    requires |g| == |y| && g != [] && PrefixesAbove(g, m) && NonDecreasing(y)
    ensures Moment(g, m, y) <= Times(Dev(g, RateOf, m), y[|g| - 1])
  {
    var k := |g| - 1;
    if k == 0 {
      assert g[..0] == [] && y[..0] == [];
    } else {
      hide Times;
      var before := Dev(g[..k], RateOf, m);
      forall j | 0 <= j <= k ensures Dev(g[..k][..j], RateOf, m) >= 0.0 {
        assert g[..k][..j] == g[..j];
      }
      MomentBound(g[..k], m, y[..k]);
      TimesNonNegative(before, y[k] - y[k - 1]);
      TimesSum(before, y[k - 1], y[k] - y[k - 1], y[k]);
      TimesSum(y[k], before, Times(g[k].weight, g[k].rate - m), Dev(g, RateOf, m));
    }
  }

  lemma GroupOptimal(g: seq<Block>, m: real, y: seq<real>)
    requires |g| == |y| && g != [] && NonDecreasing(y)
    requires Dev(g, RateOf, m) == 0.0 && PrefixesAbove(g, m)
    ensures Cost(g, y) >= Cost(g, Const(|g|, m)) + Distance(g, y, Const(|g|, m))
  {
    CostAroundMean(g, m, y);
    MomentBound(g, m, y);
    hide Dev, Cost, Distance, Moment, PrefixesAbove;
    assert Times(m, 0.0) == 0.0 && Times(0.0, y[|g| - 1]) == 0.0;
  }

  lemma {:induction false} CostConcat(g: seq<Block>, h: seq<Block>, y: seq<real>, y': seq<real>, z: seq<real>,
                                      z': seq<real>)
    requires |g| == |y| == |z| && |h| == |y'| == |z'|
    ensures Cost(g + h, y + y') == Cost(g, y) + Cost(h, y')
    ensures Distance(g + h, y + y', z + z') == Distance(g, y, z) + Distance(h, y', z')
  {
    hide WeightedSquare;
    if h == [] {
      assert g + h == g && y + y' == y && z + z' == z;
    } else {
      var k := |h| - 1;
      assert (g + h)[..|g| + k] == g + h[..k];
      assert (y + y')[..|g| + k] == y + y'[..k];
      assert (z + z')[..|g| + k] == z + z'[..k];
      CostConcat(g, h[..k], y, y'[..k], z, z'[..k]);
    }
  }

  /** The fitted rate of every observation: its block's pooled rate. */
  ghost function Fitted(groups: seq<seq<Block>>, blocks: seq<Block>): (f: seq<real>)
    requires |groups| == |blocks|
    ensures |f| == |Flatten(groups)|
  {
    if groups == [] then []
    else
      var k := |groups| - 1;
      Fitted(groups[..k], blocks[..k]) + Const(|groups[k]|, blocks[k].rate)
  }

  lemma {:induction false} FittedRates(groups: seq<seq<Block>>, blocks: seq<Block>, i: nat)
    requires |groups| == |blocks| && i < |Fitted(groups, blocks)|
    ensures exists k :: 0 <= k < |blocks| && Fitted(groups, blocks)[i] == blocks[k].rate
  {
    var k := |groups| - 1;
    var f := Fitted(groups[..k], blocks[..k]);
    if i < |f| {
      FittedRates(groups[..k], blocks[..k], i);
      var j :| 0 <= j < |blocks[..k]| && f[i] == blocks[..k][j].rate;
      assert Fitted(groups, blocks)[i] == blocks[j].rate;
    } else {
      assert Fitted(groups, blocks)[i] == blocks[k].rate;
    }
  }

  lemma {:induction false} FittedSorted(groups: seq<seq<Block>>, blocks: seq<Block>)
    requires |groups| == |blocks| && RatesSorted(blocks, |blocks|)
    ensures NonDecreasing(Fitted(groups, blocks))
  {
    if groups != [] {
      var k := |groups| - 1;
      FittedSorted(groups[..k], blocks[..k]);
      var f := Fitted(groups[..k], blocks[..k]);
      forall i | 0 <= i < |f| ensures f[i] <= blocks[k].rate {
        FittedRates(groups[..k], blocks[..k], i);
        var j :| 0 <= j < |blocks[..k]| && f[i] == blocks[..k][j].rate;
        assert blocks[..k][j] == blocks[j];
      }
    }
  }

  /** MAIN: the pooled rates are the weighted least-squares optimum among all non-decreasing assignments,
      and any other assignment is worse by at least its weighted distance, so the optimum is unique. */
  lemma {:induction false} PooledRatesOptimal(obs: seq<Block>, groups: seq<seq<Block>>, blocks: seq<Block>,
                                              y: seq<real>)
    requires Pools(obs, groups, blocks)
    requires |y| == |obs| && NonDecreasing(y)
    ensures Cost(obs, y) >= Cost(obs, Fitted(groups, blocks)) + Distance(obs, y, Fitted(groups, blocks))
    decreases |groups|
  {
    if groups != [] {
      var k := |groups| - 1;
      var front, last := Flatten(groups[..k]), groups[k];
      var y0, y1 := y[..|front|], y[|front|..];
      assert y == y0 + y1;
      PooledRatesOptimal(front, groups[..k], blocks[..k], y0);
      GroupOptimal(last, blocks[k].rate, y1);
      var f0, f1 := Fitted(groups[..k], blocks[..k]), Const(|last|, blocks[k].rate);
      CostConcat(front, last, y0, y1, f0, f1);
      CostConcat(front, last, f0, f1, f0, f1);
    }
  }

  lemma {:induction false} DistancePositive(g: seq<Block>, y: seq<real>, z: seq<real>)
    requires |g| == |y| == |z| && Positive(g)
    ensures Distance(g, y, z) >= 0.0
    ensures y != z ==> Distance(g, y, z) > 0.0
  {
    hide WeightedSquare;
    if g != [] {
      var k := |g| - 1;
      DistancePositive(g[..k], y[..k], z[..k]);
      assert y == y[..k] + [y[k]] && z == z[..k] + [z[k]];
      WeightedSquarePositive(g[k].weight, y[k] - z[k]);
      assert y != z ==> y[k] != z[k] || y[..k] != z[..k];
    } else {
      assert y == z;
    }
  }

  /** f is non-decreasing, and every other non-decreasing assignment has a strictly larger weighted squared error. */
  ghost predicate UniqueOptimum(obs: seq<Block>, f: seq<real>) {
    && |f| == |obs| && NonDecreasing(f)
    && forall y: seq<real> :: |y| == |obs| && NonDecreasing(y) && y != f ==> Cost(obs, f) < Cost(obs, y)
  }

  /** The fit of any sample list is the isotonic regression of its bins' observed rates. */
  lemma FitIsUniqueOptimum(samples: seq<Sample>, groups: seq<seq<Block>>, blocks: seq<Block>)
    requires Pools(SampleObservations(samples), groups, blocks) && RatesSorted(blocks, |blocks|)
    ensures UniqueOptimum(SampleObservations(samples), Fitted(groups, blocks))
  {
    var obs, f := SampleObservations(samples), Fitted(groups, blocks);
    SampleObservationsGood(samples);
    FittedSorted(groups, blocks);
    assert Positive(obs);
    hide SampleObservations, Pools, Fitted, Cost, Distance;
    forall y: seq<real> | |y| == |obs| && NonDecreasing(y) && y != f ensures Cost(obs, f) < Cost(obs, y) {
      PooledRatesOptimal(obs, groups, blocks, y);
      DistancePositive(obs, y, f);
    }
  }

  // ---------------------------------------------------------------- the rounded curve

  lemma SampleObservationsGood(samples: seq<Sample>)
    ensures GoodObservations(SampleObservations(samples))
    ensures Count(SampleObservations(samples)) == |samples|
  {
    var t := seq(BIN_COUNT, i requires 0 <= i => Tally(samples, i));
    forall i | 0 <= i < BIN_COUNT ensures t[i].successes <= t[i].n {
      TallyBounds(samples, i);
    }
    ObservationsGood(t);
    TallyTotal(samples);
    hide Tally, Observations, GoodObservations;
    CountObservation(t, 5);
    CountObservation(t, 4);
    CountObservation(t, 3);
    CountObservation(t, 2);
    CountObservation(t, 1);
    assert t[..5] == t && t[..0] == [];
  }

  lemma CountObservation(t: seq<Agg>, k: nat)
    requires 0 < k <= |t|
    ensures Count(Observations(t[..k])) == Count(Observations(t[..k - 1])) + t[k - 1].n
  {
    assert t[..k][..k - 1] == t[..k - 1];
    if t[k - 1].n == 0 {
      assert Observations(t[..k]) == Observations(t[..k - 1]);
    } else {
      var o := [Observation(k - 1, t[k - 1])];
      CountConcat(Observations(t[..k - 1]), o);
      assert o[..0] == [];
      assert Count(o) == Count(o[..0]) + o[0].n;
    }
  }

  lemma {:induction false} GroupMember(groups: seq<seq<Block>>, k: nat, b: Block)
    requires k < |groups| && b in groups[k]
    ensures b in Flatten(groups)
  {
    var last := |groups| - 1;
    if k < last {
      GroupMember(groups[..last], k, b);
    }
  }

  /** Observations of different groups keep the observations' spacing. */
  lemma {:induction false} GroupsSpaced(groups: seq<seq<Block>>, i: nat, j: nat, a: Block, b: Block)
    requires GoodObservations(Flatten(groups)) && i < j < |groups| && a in groups[i] && b in groups[j]
    ensures a.mid + 0.2 <= b.mid
  {
    var last := |groups| - 1;
    var front := Flatten(groups[..last]);
    var all := Flatten(groups);
    assert front == all[..|front|];
    if j == last {
      GroupMember(groups[..last], i, a);
      var p :| 0 <= p < |front| && front[p] == a;
      var q :| 0 <= q < |groups[last]| && groups[last][q] == b;
      assert all[p] == a && all[|front| + q] == b;
    } else {
      GroupsSpaced(groups[..last], i, j, a, b);
    }
  }

  /** Before rounding, block midpoints are at least 0.2 apart and rates lie in [0,1]. */
  lemma BlocksSpaced(obs: seq<Block>, groups: seq<seq<Block>>, blocks: seq<Block>, i: nat, j: nat)
    requires GoodObservations(obs) && Pools(obs, groups, blocks) && i < j < |blocks|
    ensures blocks[i].mid + 0.2 <= blocks[j].mid
  {
    var g, h := groups[i], groups[j];
    assert Summarises(blocks[i], g) && Summarises(blocks[j], h);
    var top := MaxMid(g);
    forall b | b in h ensures top.mid + 0.2 <= b.mid {
      GroupsSpaced(groups, i, j, top, b);
    }
    var bottom := MinMid(h);
    var top' := MaxMid(h);
    var bottom' := MinMid(g);
    MeanBetween(g, MidOf, blocks[i].mid, bottom'.mid, top.mid);
    MeanBetween(h, MidOf, blocks[j].mid, bottom.mid, top'.mid);
  }

  lemma {:induction false} MaxMid(g: seq<Block>) returns (t: Block)
    requires g != []
    ensures t in g && forall b :: b in g ==> b.mid <= t.mid
  {
    t := g[0];
    if |g| > 1 {
      var u := MaxMid(g[1..]);
      if u.mid > t.mid { t := u; }
    }
  }

  lemma {:induction false} MinMid(g: seq<Block>) returns (t: Block)
    requires g != []
    ensures t in g && forall b :: b in g ==> b.mid >= t.mid
  {
    t := g[0];
    if |g| > 1 {
      var u := MinMid(g[1..]);
      if u.mid < t.mid { t := u; }
    }
  }

  lemma BlockRateBounds(obs: seq<Block>, groups: seq<seq<Block>>, blocks: seq<Block>, i: nat)
    requires GoodObservations(obs) && Pools(obs, groups, blocks) && i < |blocks|
    ensures 0.0 <= blocks[i].rate <= 1.0
  {
    assert Summarises(blocks[i], groups[i]);
    forall b | b in groups[i] ensures 0.0 <= b.rate <= 1.0 {
      GroupMember(groups, i, b);
    }
    MeanBetween(groups[i], RateOf, blocks[i].rate, 0.0, 1.0);
  }

  /** MAIN: rounding keeps the midpoints strictly increasing and the rates monotone and in [0,1]. */
  lemma FitWellFormed(samples: seq<Sample>, groups: seq<seq<Block>>, blocks: seq<Block>, curve: Curve)
    requires Pools(SampleObservations(samples), groups, blocks) && RatesSorted(blocks, |blocks|)
    requires RoundsTo(blocks, curve.bins)
    ensures WellFormed(curve)
    ensures forall i, j :: 0 <= i < j < |curve.bins| ==> curve.bins[i].mid + 0.19 <= curve.bins[j].mid
  {
    var obs := SampleObservations(samples);
    SampleObservationsGood(samples);
    forall i | 0 <= i < |blocks| ensures 0.0 <= curve.bins[i].rate <= 1.0 {
      BlockRateBounds(obs, groups, blocks, i);
      Round2Monotone(0.0, blocks[i].rate);
      Round2Monotone(blocks[i].rate, 1.0);
    }
    forall i, j | 0 <= i < j < |blocks|
      ensures curve.bins[i].mid + 0.19 <= curve.bins[j].mid && curve.bins[i].rate <= curve.bins[j].rate
    {
      BlocksSpaced(obs, groups, blocks, i, j);
      Round2Near(blocks[i].mid);
      Round2Near(blocks[j].mid);
      Round2Monotone(blocks[i].rate, blocks[j].rate);
    }
  }

  lemma {:induction false} PoolsCount(obs: seq<Block>, groups: seq<seq<Block>>, blocks: seq<Block>, bins: seq<Bin>)
    requires Pools(obs, groups, blocks) && RoundsTo(blocks, bins)
    ensures TotalN(bins) == Count(obs)
    decreases |groups|
  {
    if groups != [] {
      var k := |groups| - 1;
      PoolsCount(Flatten(groups[..k]), groups[..k], blocks[..k], bins[..k]);
      CountConcat(Flatten(groups[..k]), groups[k]);
    }
  }

  /** No sample is lost or counted twice by binning and pooling. */
  lemma FitCounts(samples: seq<Sample>, groups: seq<seq<Block>>, blocks: seq<Block>, curve: Curve)
    requires Pools(SampleObservations(samples), groups, blocks) && RoundsTo(blocks, curve.bins)
    ensures TotalN(curve.bins) == |samples|
    ensures curve.bins == [] <==> samples == []
  {
    SampleObservationsGood(samples);
    PoolsCount(SampleObservations(samples), groups, blocks, curve.bins);
    if samples == [] && curve.bins != [] {
      var b := blocks[0];
      assert Summarises(b, groups[0]);
      var o := groups[0][0];
      GroupMember(groups, 0, o);
      EmptyTally();
    }
  }

  lemma EmptyTally()
    ensures SampleObservations([]) == []
  {
    var t := seq(BIN_COUNT, i requires 0 <= i => Tally([], i));
    assert t[..5] == t && t[..5][..4] == t[..4] && t[..4][..3] == t[..3] && t[..3][..2] == t[..2]
           && t[..2][..1] == t[..1];
    assert Observations(t[..1]) == [];
    assert Observations(t[..2]) == [];
    assert Observations(t[..3]) == [];
    assert Observations(t[..4]) == [];
  }

  // ---------------------------------------------------------------- applying a curve

  function Lerp(lo: Bin, hi: Bin, x: real): real
    requires lo.mid < hi.mid
  {
    lo.rate + (x - lo.mid) / (hi.mid - lo.mid) * (hi.rate - lo.rate)
  }

  /** Piecewise-linear reference curve through the bins, constant outside them. */
  function Interpolate(bins: seq<Bin>, x: real): real
    requires bins != []
  {
    if x <= bins[0].mid || |bins| == 1 then bins[0].rate
    else if x <= bins[1].mid then Lerp(bins[0], bins[1], x)
    else Interpolate(bins[1..], x)
  }

  /** CalibrationCurve.Apply, for every curve whatsoever: the search keeps the divisor positive. */
  method Apply(c: Curve, stated: real) returns (r: real)
    ensures c.bins == [] ==> r == stated
    ensures WellFormed(c) && c.bins != [] ==> r == Interpolate(c.bins, Clamp01(stated))
  {
    if c.bins == [] {
      return stated;
    }
    var conf := Clamp01(stated);
    var bins := c.bins;
    if conf <= bins[0].mid {
      return bins[0].rate;
    }
    var last := bins[|bins| - 1];
    if conf >= last.mid {
      if WellFormed(c) { InterpolateAbove(bins, conf); }
      return last.rate;
    }
    var i := 1;
    while bins[i].mid < conf
      invariant 1 <= i < |bins|
      invariant bins[i - 1].mid < conf
      invariant Interpolate(bins[i - 1..], conf) == Interpolate(bins, conf)
      decreases |bins| - i
    {
      assert bins[i - 1..][1..] == bins[i..];
      i := i + 1;
    }
    var lo, hi := bins[i - 1], bins[i];
    var t := (conf - lo.mid) / (hi.mid - lo.mid);
    assert bins[i - 1..][0] == lo && bins[i - 1..][1] == hi;
    r := lo.rate + t * (hi.rate - lo.rate);
  }

  lemma {:induction false} InterpolateAbove(bins: seq<Bin>, x: real)
    requires WellFormed(Curve(bins)) && bins != [] && bins[|bins| - 1].mid <= x
    ensures Interpolate(bins, x) == bins[|bins| - 1].rate
  {
    if |bins| > 1 {
      var k := |bins| - 1;
      assert bins[0].mid < bins[k].mid && (1 < k ==> bins[1].mid < bins[k].mid);
      if x <= bins[1].mid {
        assert x - bins[0].mid == bins[1].mid - bins[0].mid;
      } else {
        InterpolateAbove(bins[1..], x);
      }
    }
  }

  lemma LerpAt(lo: Bin, hi: Bin, x: real)
    requires lo.mid < hi.mid
    ensures Lerp(lo, hi, x) == lo.rate + Times((x - lo.mid) / (hi.mid - lo.mid), hi.rate - lo.rate)
  {}

  lemma LerpBounds(lo: Bin, hi: Bin, x: real, y: real)
    requires lo.mid < hi.mid && lo.rate <= hi.rate && lo.mid <= x <= y <= hi.mid
    ensures lo.rate <= Lerp(lo, hi, x) <= Lerp(lo, hi, y) <= hi.rate
  {
    hide Times, Lerp;
    var w, d := hi.mid - lo.mid, hi.rate - lo.rate;
    var s, t := (x - lo.mid) / w, (y - lo.mid) / w;
    DivMonotone(0.0, x - lo.mid, w);
    DivMonotone(x - lo.mid, y - lo.mid, w);
    DivMonotone(y - lo.mid, w, w);
    LerpAt(lo, hi, x);
    LerpAt(lo, hi, y);
    TimesNonNegative(s, d);
    TimesNonNegative(t - s, d);
    TimesNonNegative(1.0 - t, d);
    TimesSum(d, s, t - s, t);
    TimesSum(d, t, 1.0 - t, 1.0);
    WholeTimes(d);
  }

  lemma WholeTimes(d: real)
    ensures Times(1.0, d) == d
  {}

  lemma DivMonotone(a: real, b: real, w: real)
    requires w > 0.0 && a <= b
    ensures a / w <= b / w
  {
    assert (b - a) / w >= 0.0;
    assert b / w - a / w == (b - a) / w;
  }

  /** MAIN: a well-formed curve is monotone, stays between its end rates and passes through every fitted point. */
  lemma {:induction false} InterpolateMonotone(bins: seq<Bin>, x: real, y: real)
    requires WellFormed(Curve(bins)) && bins != [] && x <= y
    ensures bins[0].rate <= Interpolate(bins, x) <= Interpolate(bins, y) <= bins[|bins| - 1].rate
  {
    if |bins| > 1 {
      var rest := bins[1..];
      assert WellFormed(Curve(rest));
      var lo, hi := bins[0], bins[1];
      assert lo.mid < hi.mid && lo.rate <= hi.rate && rest[0] == hi && rest[|rest| - 1] == bins[|bins| - 1];
      InterpolateMonotone(rest, x, y);
      InterpolateMonotone(rest, y, y);
      if lo.mid < x <= hi.mid { LerpBounds(lo, hi, x, x); }
      if lo.mid < y <= hi.mid { LerpBounds(lo, hi, y, y); }
      if lo.mid < x && y <= hi.mid { LerpBounds(lo, hi, x, y); }
    }
  }

  lemma {:induction false} InterpolateHitsPoints(bins: seq<Bin>, k: nat)
    requires WellFormed(Curve(bins)) && k < |bins|
    ensures Interpolate(bins, bins[k].mid) == bins[k].rate
  {
    if k > 0 {
      assert bins[0].mid < bins[k].mid;
      if k == 1 {
        var w, d := bins[1].mid - bins[0].mid, bins[1].rate - bins[0].rate;
        assert w / w == 1.0;
        assert Lerp(bins[0], bins[1], bins[1].mid) == bins[0].rate + w / w * d;
      } else {
        assert bins[1].mid < bins[k].mid;
        assert WellFormed(Curve(bins[1..]));
        InterpolateHitsPoints(bins[1..], k - 1);
      }
    }
  }

  /** Outside the fitted range the curve is constant. */
  lemma InterpolateOutside(bins: seq<Bin>, x: real)
    requires WellFormed(Curve(bins)) && bins != []
    ensures x <= bins[0].mid ==> Interpolate(bins, x) == bins[0].rate
    ensures x >= bins[|bins| - 1].mid ==> Interpolate(bins, x) == bins[|bins| - 1].rate
  {
    if x >= bins[|bins| - 1].mid {
      InterpolateAbove(bins, x);
    }
  }

  /** MAIN: between two neighbouring points the curve is the straight line through them. */
  lemma {:induction false} InterpolateLinear(bins: seq<Bin>, k: nat, x: real)
    requires WellFormed(Curve(bins)) && k + 1 < |bins| && bins[k].mid <= x <= bins[k + 1].mid
    ensures Times(bins[k + 1].mid - bins[k].mid, Interpolate(bins, x) - bins[k].rate)
         == Times(x - bins[k].mid, bins[k + 1].rate - bins[k].rate)
  {
    hide Times, Lerp;
    if x == bins[k].mid {
      InterpolateHitsPoints(bins, k);
      TimesZero(bins[k + 1].mid - bins[k].mid);
      TimesZero(bins[k + 1].rate - bins[k].rate);
    } else if k == 0 {
      LerpSlope(bins[0], bins[1], x);
    } else {
      assert bins[1].mid <= bins[k].mid && WellFormed(Curve(bins[1..]));
      assert bins[0].mid < bins[1].mid;
      InterpolateLinear(bins[1..], k - 1, x);
    }
  }

  lemma LerpSlope(lo: Bin, hi: Bin, x: real)
    requires lo.mid < hi.mid
    ensures Times(hi.mid - lo.mid, Lerp(lo, hi, x) - lo.rate) == Times(x - lo.mid, hi.rate - lo.rate)
  {
    var w, d, t := hi.mid - lo.mid, hi.rate - lo.rate, (x - lo.mid) / (hi.mid - lo.mid);
    assert w * t == x - lo.mid;
    assert w * (t * d) == (w * t) * d;
  }
}

/**
 * Expected calibration error over a batch of resolved forecasts: the unit
 * interval is cut into `nBins` equal bins, the last one closed on the right,
 * and each non-empty bin adds |mean outcome - mean forecast| weighted by its
 * share of all forecasts. Bin edges are the exact fractions i / nBins.
 */
module CalibrationEce {
  import opened Wrappers
  import opened CalibrationScoring

  /** `ValueError` on lengths that differ, and the `ZeroDivisionError` of `i / 0` for zero bins. */
  datatype EceError = LengthMismatch | ZeroBins

  /** One entry of the per-bin statistics list; `low` and `high` are `bin_range`. */
  datatype BinStat = BinStat(
    low: real,
    high: real,
    count: nat,
    avgConfidence: real,
    avgAccuracy: real,
    gap: real)

  /** Bin edge `i / n`. */
  function Edge(i: int, n: int): real
    requires n > 0
  {
    i as real / n as real
  }

  /** Bin `b` holds `[Edge(b), Edge(b + 1))`, and the last bin also holds its right edge. */
  predicate InBin(p: real, b: int, n: int)
    requires n > 0
  {
    (Edge(b, n) <= p < Edge(b + 1, n)) || (b == n - 1 && p == Edge(b + 1, n))
  }

  /** Number of forecasts that fall in bin `b`. */
  function Count(probs: seq<real>, b: int, n: int): (c: nat)
    requires n > 0
    ensures c <= |probs|
  {
    if probs == [] then 0
    else Count(probs[..|probs| - 1], b, n) + (if InBin(probs[|probs| - 1], b, n) then 1 else 0)
  }

  /** Sum of the forecasts that fall in bin `b`. */
  function ProbSum(probs: seq<real>, b: int, n: int): real
    requires n > 0
  {
    if probs == [] then 0.0
    else ProbSum(probs[..|probs| - 1], b, n) + (if InBin(probs[|probs| - 1], b, n) then probs[|probs| - 1] else 0.0)
  }

  /** Sum of the outcomes whose forecast falls in bin `b`. */
  function OutcomeSum(probs: seq<real>, outcomes: seq<int>, b: int, n: int): int
    requires n > 0 && |probs| == |outcomes|
  {
    if probs == [] then 0
    else
      OutcomeSum(probs[..|probs| - 1], outcomes[..|outcomes| - 1], b, n)
      + (if InBin(probs[|probs| - 1], b, n) then outcomes[|outcomes| - 1] else 0)
  }

  /** The statistics of bin `b`: all zero for an empty bin, otherwise the two means and their gap. */
  function Stat(probs: seq<real>, outcomes: seq<int>, b: int, n: int): BinStat
    requires n > 0 && |probs| == |outcomes|
  {
    var c := Count(probs, b, n);
    if c == 0 then BinStat(Edge(b, n), Edge(b + 1, n), 0, 0.0, 0.0, 0.0)
    else
      var confidence := ProbSum(probs, b, n) / c as real;
      var accuracy := OutcomeSum(probs, outcomes, b, n) as real / c as real;
      BinStat(Edge(b, n), Edge(b + 1, n), c, confidence, accuracy, Abs(accuracy - confidence))
  }

  /** What one bin adds to the error: nothing when empty, else gap times the bin's share of `total`. */
  function Contribution(s: BinStat, total: nat): real
    requires total > 0
  {
    if s.count == 0 then 0.0 else Product(s.gap, s.count as real / total as real)
  }

  /** The error accumulated over bins `0 .. k-1`. */
  function EceUpTo(probs: seq<real>, outcomes: seq<int>, k: nat, n: int): real
    requires n > 0 && |probs| == |outcomes| && |probs| > 0
  {
    if k == 0 then 0.0
    else EceUpTo(probs, outcomes, k - 1, n) + Contribution(Stat(probs, outcomes, k - 1, n), |probs|)
  }

  /** The statistics of bins `0 .. k-1`, in order. */
  function Stats(probs: seq<real>, outcomes: seq<int>, k: nat, n: int): seq<BinStat>
    requires n > 0 && |probs| == |outcomes|
  {
    seq(k, b requires 0 <= b < k => Stat(probs, outcomes, b, n))
  }

  /** `expected_calibration_error`: the unrounded error and the per-bin list, or the error it raises. */
  function Ece(probs: seq<real>, outcomes: seq<int>, nBins: int): (r: Result<(real, seq<BinStat>), EceError>)
    ensures r.Failure? <==> |probs| != |outcomes| || (probs != [] && nBins == 0)
    ensures r.Failure? ==> (r.error == LengthMismatch <==> |probs| != |outcomes|)
    ensures r.Success? && (probs == [] || nBins < 0) ==> r.value == (0.0, [])
    ensures r.Success? && probs != [] && nBins > 0 ==> |r.value.1| == nBins
  {
    if |probs| != |outcomes| then Failure(LengthMismatch)
    else if probs == [] then Success((0.0, []))
    else if nBins == 0 then Failure(ZeroBins)
    else if nBins < 0 then Success((0.0, []))
    else Success((EceUpTo(probs, outcomes, nBins, nBins), Stats(probs, outcomes, nBins, nBins)))
  }

  /** The computation as the source runs it: one pass over the forecasts per bin. */
  method ExpectedCalibrationError(probs: seq<real>, outcomes: seq<int>, nBins: int)
    returns (r: Result<(real, seq<BinStat>), EceError>)
    ensures r == Ece(probs, outcomes, nBins)
  {
    if |probs| != |outcomes| {
      return Failure(LengthMismatch);
    }
    if |probs| == 0 {
      return Success((0.0, []));
    }
    if nBins == 0 {
      return Failure(ZeroBins);
    }
    var total := |probs|;
    var ece := 0.0;
    var bins: seq<BinStat> := [];
    var b := 0;
    while b < nBins
      invariant 0 <= b && (nBins > 0 ==> b <= nBins)
      invariant nBins < 0 ==> b == 0 && bins == [] && ece == 0.0
      invariant nBins > 0 ==> ece == EceUpTo(probs, outcomes, b, nBins)
      invariant nBins > 0 ==> bins == Stats(probs, outcomes, b, nBins)
    {
      var count, probTotal, outcomeTotal := 0, 0.0, 0;
      var i := 0;
      while i < total
        invariant 0 <= i <= total
        invariant count == Count(probs[..i], b, nBins)
        invariant probTotal == ProbSum(probs[..i], b, nBins)
        invariant outcomeTotal == OutcomeSum(probs[..i], outcomes[..i], b, nBins)
      {
        assert probs[..i + 1][..i] == probs[..i];
        assert outcomes[..i + 1][..i] == outcomes[..i];
        if InBin(probs[i], b, nBins) {
          count := count + 1;
          probTotal := probTotal + probs[i];
          outcomeTotal := outcomeTotal + outcomes[i];
        }
        i := i + 1;
      }
      assert probs[..total] == probs && outcomes[..total] == outcomes;
      var stat;
      if count == 0 {
        stat := BinStat(Edge(b, nBins), Edge(b + 1, nBins), 0, 0.0, 0.0, 0.0);
      } else {
        var confidence := probTotal / count as real;
        var accuracy := outcomeTotal as real / count as real;
        var gap := Abs(accuracy - confidence);
        ece := ece + Product(gap, count as real / total as real);
        stat := BinStat(Edge(b, nBins), Edge(b + 1, nBins), count, confidence, accuracy, gap);
      }
      assert stat == Stat(probs, outcomes, b, nBins);
      assert Stats(probs, outcomes, b + 1, nBins) == bins + [stat];
      bins := bins + [stat];
      b := b + 1;
    }
    r := Success((ece, bins));
  }

  /** The edges run from 0 to 1 in increasing steps, so every bin lies inside the unit interval. */
  lemma EdgesIncrease(b: int, n: int)
    requires n > 0 && 0 <= b < n
    ensures Edge(0, n) == 0.0 && Edge(n, n) == 1.0
    ensures 0.0 <= Edge(b, n) < Edge(b + 1, n) <= 1.0
  {
  }

  /** A forecast in some bin is a probability. */
  lemma InBinIsProbability(p: real, b: int, n: int)
    requires n > 0 && 0 <= b < n && InBin(p, b, n)
    ensures 0.0 <= p <= 1.0
  {
    EdgesIncrease(b, n);
  }

  /** Bins of lower index lie wholly to the left of bins of higher index. */
  lemma EdgesOrdered(b1: int, b2: int, n: int)
    requires n > 0 && b1 <= b2
    ensures Edge(b1, n) <= Edge(b2, n)
  {
  }

  /** The bin a probability falls in: `floor(p * n)`, with 1 sent to the last bin. */
  function BinOf(p: real, n: int): (b: int)
    requires n > 0 && 0.0 <= p <= 1.0
    ensures 0 <= b < n
    ensures p == 1.0 ==> b == n - 1
    ensures Edge(b, n) <= p
    ensures p < Edge(b + 1, n) || (b == n - 1 && p == 1.0)
  {
    if p == 1.0 then n - 1
    else
      var x := Product(p, n as real);
      var f := x.Floor;
      ProductAtMost(n as real, p);
      ProductBelow(n as real, p);
      assert Product(p, n as real) == Product(n as real, p);
      FloorEdges(p, n, f);
      f
  }

  lemma FloorEdges(p: real, n: int, f: int)
    requires n > 0 && 0.0 <= p && f as real <= Product(p, n as real) < f as real + 1.0
    ensures Edge(f, n) <= p < Edge(f + 1, n)
  {
    assert Edge(f, n) * n as real == f as real;
    assert Edge(f + 1, n) * n as real == f as real + 1.0;
  }

  /** For a probability exactly one bin holds it; a number outside [0, 1] is in no bin. */
  lemma {:induction false} InBinIff(p: real, b: int, n: int)
    requires n > 0 && 0 <= b < n
    ensures InBin(p, b, n) <==> 0.0 <= p <= 1.0 && b == BinOf(p, n)
  {
    if InBin(p, b, n) {
      InBinIsProbability(p, b, n);
      var c := BinOf(p, n);
      if c < b {
        EdgesOrdered(c + 1, b, n);
      } else if c > b {
        EdgesOrdered(b + 1, c, n);
        EdgesIncrease(c, n);
      }
    } else if 0.0 <= p <= 1.0 && b == BinOf(p, n) {
      EdgesIncrease(b, n);
    }
  }

  /** A forecast of exactly 1 lands in the last bin, the one closed on the right. */
  lemma OneInLastBin(n: int)
    requires n > 0
    ensures InBin(1.0, n - 1, n)
    ensures forall b :: 0 <= b < n - 1 ==> !InBin(1.0, b, n)
  {
    forall b | 0 <= b < n - 1
      ensures !InBin(1.0, b, n)
    {
      InBinIff(1.0, b, n);
    }
    InBinIff(1.0, n - 1, n);
  }

  /** Number of forecasts inside [0, 1]. */
  function InUnitCount(probs: seq<real>): (c: nat)
    ensures c <= |probs|
  {
    if probs == [] then 0
    else InUnitCount(probs[..|probs| - 1]) + (if 0.0 <= probs[|probs| - 1] <= 1.0 then 1 else 0)
  }

  /** Bin counts of bins `0 .. k-1`, added up. */
  function CountUpTo(probs: seq<real>, k: nat, n: int): nat
    requires n > 0
  {
    if k == 0 then 0 else CountUpTo(probs, k - 1, n) + Count(probs, k - 1, n)
  }

  /** How many of bins `0 .. k-1` hold `p`. */
  function Hits(p: real, k: nat, n: int): nat
    requires n > 0
  {
    if k == 0 then 0 else Hits(p, k - 1, n) + (if InBin(p, k - 1, n) then 1 else 0)
  }

  lemma {:induction false} HitsOfBins(p: real, k: nat, n: int)
    requires n > 0 && k <= n
    ensures Hits(p, k, n) == if 0.0 <= p <= 1.0 && BinOf(p, n) < k then 1 else 0
  {
    if k > 0 {
      HitsOfBins(p, k - 1, n);
      InBinIff(p, k - 1, n);
    }
  }

  lemma {:induction false} CountUpToAppend(probs: seq<real>, p: real, k: nat, n: int)
    requires n > 0
    ensures CountUpTo(probs + [p], k, n) == CountUpTo(probs, k, n) + Hits(p, k, n)
  {
    if k > 0 {
      CountUpToAppend(probs, p, k - 1, n);
      assert (probs + [p])[..|probs + [p]| - 1] == probs;
    }
  }

  lemma {:induction false} CountUpToOfNothing(k: nat, n: int)
    requires n > 0
    ensures CountUpTo([], k, n) == 0
  {
    if k > 0 { CountUpToOfNothing(k - 1, n); }
  }

  /** The bins partition the unit interval: their counts add up to the number of forecasts in [0, 1]. */
  lemma {:induction false} BinCountsCoverUnit(probs: seq<real>, n: int)
    requires n > 0
    ensures CountUpTo(probs, n, n) == InUnitCount(probs)
  {
    if probs == [] {
      CountUpToOfNothing(n, n);
    } else {
      var init, p := probs[..|probs| - 1], probs[|probs| - 1];
      assert probs == init + [p];
      BinCountsCoverUnit(init, n);
      CountUpToAppend(init, p, n, n);
      HitsOfBins(p, n, n);
    }
  }

  /** The forecasts and the outcomes of a bin are each bounded by its count, for binary outcomes. */
  lemma {:induction false} BinSumsBounded(probs: seq<real>, outcomes: seq<int>, b: int, n: int)
    requires n > 0 && 0 <= b < n && |probs| == |outcomes|
    requires forall i :: 0 <= i < |outcomes| ==> outcomes[i] == 0 || outcomes[i] == 1
    ensures 0.0 <= ProbSum(probs, b, n) <= Count(probs, b, n) as real
    ensures 0 <= OutcomeSum(probs, outcomes, b, n) <= Count(probs, b, n)
  {
    if probs != [] {
      var m := |probs| - 1;
      BinSumsBounded(probs[..m], outcomes[..m], b, n);
      if InBin(probs[m], b, n) {
        InBinIsProbability(probs[m], b, n);
      }
    }
  }

  lemma MeanInUnit(sum: real, c: nat)
    requires c > 0 && 0.0 <= sum <= c as real
    ensures 0.0 <= sum / c as real <= 1.0
  {
  }

  /** For binary outcomes every bin's gap lies in [0, 1]. */
  lemma {:induction false} GapInUnit(probs: seq<real>, outcomes: seq<int>, b: int, n: int)
    requires n > 0 && 0 <= b < n && |probs| == |outcomes|
    requires forall i :: 0 <= i < |outcomes| ==> outcomes[i] == 0 || outcomes[i] == 1
    ensures 0.0 <= Stat(probs, outcomes, b, n).gap <= 1.0
    ensures 0.0 <= Stat(probs, outcomes, b, n).avgConfidence <= 1.0
    ensures 0.0 <= Stat(probs, outcomes, b, n).avgAccuracy <= 1.0
  {
    var c := Count(probs, b, n);
    if c > 0 {
      BinSumsBounded(probs, outcomes, b, n);
      MeanInUnit(ProbSum(probs, b, n), c);
      MeanInUnit(OutcomeSum(probs, outcomes, b, n) as real, c);
    }
  }

  lemma WeightsAdd(x: nat, y: nat, t: nat)
    requires t > 0
    ensures x as real / t as real + y as real / t as real == (x + y) as real / t as real
  {
  }

  /** After `k` bins the error is between 0 and the share of forecasts those bins hold. */
  lemma {:induction false} EceUpToBounded(probs: seq<real>, outcomes: seq<int>, k: nat, n: int)
    requires n > 0 && k <= n && |probs| == |outcomes| && |probs| > 0
    requires forall i :: 0 <= i < |outcomes| ==> outcomes[i] == 0 || outcomes[i] == 1
    ensures 0.0 <= EceUpTo(probs, outcomes, k, n) <= CountUpTo(probs, k, n) as real / |probs| as real
  {
    if k > 0 {
      EceUpToBounded(probs, outcomes, k - 1, n);
      var s := Stat(probs, outcomes, k - 1, n);
      var c := Count(probs, k - 1, n);
      GapInUnit(probs, outcomes, k - 1, n);
      var w := c as real / |probs| as real;
      assert 0.0 <= w;
      ProductAtMost(w, s.gap);
      assert Product(s.gap, w) == Product(w, s.gap);
      WeightsAdd(CountUpTo(probs, k - 1, n), c, |probs|);
    }
  }

  /** For binary outcomes the error lies in [0, 1], and every bin's statistics are means in [0, 1]. */
  lemma {:induction false} EceInUnit(probs: seq<real>, outcomes: seq<int>, nBins: int)
    requires forall i :: 0 <= i < |outcomes| ==> outcomes[i] == 0 || outcomes[i] == 1
    requires |probs| == |outcomes|
    ensures Ece(probs, outcomes, nBins).Success? ==> 0.0 <= Ece(probs, outcomes, nBins).value.0 <= 1.0
    ensures Ece(probs, outcomes, nBins).Success? ==>
              forall s :: s in Ece(probs, outcomes, nBins).value.1 ==>
                0.0 <= s.gap <= 1.0 && 0.0 <= s.avgConfidence <= 1.0 && 0.0 <= s.avgAccuracy <= 1.0
  {
    if probs != [] && nBins > 0 {
      EceUpToBounded(probs, outcomes, nBins, nBins);
      BinCountsCoverUnit(probs, nBins);
      MeanInUnit(InUnitCount(probs) as real, |probs|);
      forall s | s in Stats(probs, outcomes, nBins, nBins)
        ensures 0.0 <= s.gap <= 1.0 && 0.0 <= s.avgConfidence <= 1.0 && 0.0 <= s.avgAccuracy <= 1.0
      {
        var b :| 0 <= b < nBins && s == Stats(probs, outcomes, nBins, nBins)[b];
        GapInUnit(probs, outcomes, b, nBins);
      }
    }
  }

  /** The outcomes, added up. */
  function Total(outcomes: seq<int>): int {
    if outcomes == [] then 0 else Total(outcomes[..|outcomes| - 1]) + outcomes[|outcomes| - 1]
  }

  /** With every forecast equal to `c`, only `c`'s bin is filled and it holds everything. */
  lemma {:induction false} ConstantForecastSums(probs: seq<real>, outcomes: seq<int>, c: real, b: int, n: int)
    requires n > 0 && 0 <= b < n && 0.0 <= c <= 1.0 && |probs| == |outcomes|
    requires forall i :: 0 <= i < |probs| ==> probs[i] == c
    ensures b == BinOf(c, n) ==>
              Count(probs, b, n) == |probs| && ProbSum(probs, b, n) == Product(c, |probs| as real) &&
              OutcomeSum(probs, outcomes, b, n) == Total(outcomes)
    ensures b != BinOf(c, n) ==> Count(probs, b, n) == 0
  {
    InBinIff(c, b, n);
    if probs != [] {
      var m := |probs| - 1;
      ConstantForecastSums(probs[..m], outcomes[..m], c, b, n);
      assert Product(c, (m + 1) as real) == Product(c, m as real) + c;
    }
  }

  lemma {:induction false} OnlyOneBinContributes(probs: seq<real>, outcomes: seq<int>, c: real, k: nat, n: int)
    requires n > 0 && k <= n && 0.0 <= c <= 1.0 && |probs| == |outcomes| && |probs| > 0
    requires forall i :: 0 <= i < |probs| ==> probs[i] == c
    ensures EceUpTo(probs, outcomes, k, n) ==
              if BinOf(c, n) < k then Contribution(Stat(probs, outcomes, BinOf(c, n), n), |probs|) else 0.0
  {
    if k > 0 {
      OnlyOneBinContributes(probs, outcomes, c, k - 1, n);
      ConstantForecastSums(probs, outcomes, c, k - 1, n);
    }
  }

  lemma CalibratedBinHasNoGap(probs: seq<real>, outcomes: seq<int>, c: real, b: int, n: int)
    requires n > 0 && |probs| == |outcomes| && |probs| > 0
    requires Count(probs, b, n) == |probs|
    requires ProbSum(probs, b, n) == Product(c, |probs| as real)
    requires OutcomeSum(probs, outcomes, b, n) as real == Product(c, |probs| as real)
    ensures Stat(probs, outcomes, b, n).gap == 0.0
  {
    var t := |probs| as real;
    DivideProduct(c, t);
  }

  lemma DivideProduct(c: real, t: real)
    requires t > 0.0
    ensures Product(c, t) / t == c
  {
  }

  /**
   * A forecaster who always says `c`, on outcomes whose frequency is exactly `c`,
   * is perfectly calibrated: the error is 0.
   */
  lemma {:induction false} ConstantCalibratedForecastHasZeroError(probs: seq<real>, outcomes: seq<int>, c: real, nBins: int)
    requires nBins > 0 && 0.0 <= c <= 1.0 && |probs| == |outcomes| && |probs| > 0
    requires forall i :: 0 <= i < |probs| ==> probs[i] == c
    requires Total(outcomes) as real == Product(c, |probs| as real)
    ensures Ece(probs, outcomes, nBins).Success?
    ensures Ece(probs, outcomes, nBins).value.0 == 0.0
  {
    var b := BinOf(c, nBins);
    OnlyOneBinContributes(probs, outcomes, c, nBins, nBins);
    ConstantForecastSums(probs, outcomes, c, b, nBins);
    CalibratedBinHasNoGap(probs, outcomes, c, b, nBins);
  }

  /** A bin adds nothing exactly when its mean forecast equals its mean outcome, and never subtracts. */
  lemma ContributionZeroIffCalibrated(probs: seq<real>, outcomes: seq<int>, b: int, n: int)
    requires n > 0 && |probs| == |outcomes| && |probs| > 0
    ensures Contribution(Stat(probs, outcomes, b, n), |probs|) >= 0.0
    ensures Contribution(Stat(probs, outcomes, b, n), |probs|) == 0.0 <==>
              Stat(probs, outcomes, b, n).avgConfidence == Stat(probs, outcomes, b, n).avgAccuracy
  {
    var st := Stat(probs, outcomes, b, n);
    if st.count > 0 {
      var w := st.count as real / |probs| as real;
      assert w > 0.0;
      if st.gap > 0.0 {
        ProductPositive(st.gap, w);
      }
    }
  }

  /**
   * After `k` bins the error is 0 exactly when each of those bins is calibrated,
   * its mean forecast equal to its mean outcome (empty bins count as calibrated).
   */
  lemma {:induction false} ZeroErrorIffCalibratedBins(probs: seq<real>, outcomes: seq<int>, k: nat, n: int)
    requires n > 0 && |probs| == |outcomes| && |probs| > 0
    ensures EceUpTo(probs, outcomes, k, n) >= 0.0
    ensures EceUpTo(probs, outcomes, k, n) == 0.0 <==>
              forall b :: 0 <= b < k ==> Stat(probs, outcomes, b, n).avgConfidence == Stat(probs, outcomes, b, n).avgAccuracy
  {
    if k > 0 {
      ZeroErrorIffCalibratedBins(probs, outcomes, k - 1, n);
      ContributionZeroIffCalibrated(probs, outcomes, k - 1, n);
    }
  }

  /** `expected_calibration_error` returns 0 exactly when every bin of its list is calibrated. */
  lemma EceZeroIffCalibrated(probs: seq<real>, outcomes: seq<int>, nBins: int)
    requires nBins > 0 && |probs| == |outcomes| && |probs| > 0
    ensures Ece(probs, outcomes, nBins).Success?
    ensures Ece(probs, outcomes, nBins).value.0 == 0.0 <==>
              forall s :: s in Ece(probs, outcomes, nBins).value.1 ==> s.avgConfidence == s.avgAccuracy
  {
    var stats := Stats(probs, outcomes, nBins, nBins);
    ZeroErrorIffCalibratedBins(probs, outcomes, nBins, nBins);
    if forall s :: s in stats ==> s.avgConfidence == s.avgAccuracy {
      forall b | 0 <= b < nBins
        ensures Stat(probs, outcomes, b, nBins).avgConfidence == Stat(probs, outcomes, b, nBins).avgAccuracy
      {
        assert stats[b] in stats;
      }
    }
  }

  /** The per-bin list has one entry per bin, in order, with the bin's edges and count. */
  lemma BinListShape(probs: seq<real>, outcomes: seq<int>, nBins: int)
    requires nBins > 0 && |probs| == |outcomes| && |probs| > 0
    ensures Ece(probs, outcomes, nBins).Success?
    ensures |Ece(probs, outcomes, nBins).value.1| == nBins
    ensures forall b :: 0 <= b < nBins ==>
              var s := Ece(probs, outcomes, nBins).value.1[b];
              s.low == Edge(b, nBins) && s.high == Edge(b + 1, nBins) && s.count == Count(probs, b, nBins)
  {
  }

  /** The error cases and the empty batch. */
  lemma EceEdgeCases(probs: seq<real>, outcomes: seq<int>, nBins: int)
    ensures |probs| != |outcomes| ==> Ece(probs, outcomes, nBins) == Failure(LengthMismatch)
    ensures probs == [] && outcomes == [] ==> Ece(probs, outcomes, nBins) == Success((0.0, []))
    ensures |probs| == |outcomes| > 0 && nBins == 0 ==> Ece(probs, outcomes, nBins) == Failure(ZeroBins)
  {
  }
}

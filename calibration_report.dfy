/**
 * `calibration_report`: scores every prediction against its ground-truth
 * range and aggregates the scores.  Ranges arrive on the 0-100 scale and
 * are divided by 100 before scoring; the stated range is used only when
 * `pred.get("expressed_range")` is truthy (present, not None, non-empty).
 */
module CalibrationReport {
  import opened Wrappers
  import opened CalibrationScoring

  /** One prediction record; `expressedRange` is None when the key is absent or holds None. */
  datatype Prediction = Prediction(
    scenarioId: string,
    predictedProb: real,
    groundTruthRange: seq<real>,
    expressedRange: Option<seq<real>>)

  /** Indexing a range list with fewer than two elements. */
  datatype ReportError = IndexError

  /** A per-scenario entry: the prediction's fields followed by the quality record. */
  datatype ScenarioScore = ScenarioScore(
    scenarioId: string,
    predictedProb: real,
    groundTruthRange: seq<real>,
    quality: Quality)

  datatype Report = Report(
    numScenarios: nat,
    avgCalibrationScore: real,
    rangeAcknowledgmentRate: real,
    perScenario: seq<ScenarioScore>)

  /** The truthiness test `pred.get("expressed_range")`. */
  predicate Expressed(pred: Prediction) {
    pred.expressedRange.Some? && |pred.expressedRange.value| > 0
  }

  /** Every range the entry indexes has a first and a second element. */
  predicate WellFormed(pred: Prediction) {
    |pred.groundTruthRange| >= 2 && (Expressed(pred) ==> |pred.expressedRange.value| >= 2)
  }

  /** The body of the loop for one prediction. */
  function ScoreEntry(pred: Prediction): (r: Result<ScenarioScore, ReportError>)
    ensures r.Success? <==> WellFormed(pred)
    ensures r.Success? ==>
              r.value.scenarioId == pred.scenarioId && r.value.predictedProb == pred.predictedProb &&
              r.value.groundTruthRange == pred.groundTruthRange
    ensures r.Success? ==> (r.value.quality.rangeAcknowledgment == 1 <==> Expressed(pred))
    ensures r.Success? ==> 0 <= r.value.quality.calibrationScore <= 3
  {
    if |pred.groundTruthRange| < 2 then Failure(IndexError)
    else if Expressed(pred) && |pred.expressedRange.value| < 2 then Failure(IndexError)
    else
      var groundTruth := (pred.groundTruthRange[0] / 100.0, pred.groundTruthRange[1] / 100.0);
      var expressed :=
        if Expressed(pred) then Some((pred.expressedRange.value[0] / 100.0, pred.expressedRange.value[1] / 100.0))
        else None;
      Success(ScenarioScore(pred.scenarioId, pred.predictedProb, pred.groundTruthRange,
                            ScoreProbabilityQuality(pred.predictedProb, groundTruth, expressed)))
  }

  /** The per-scenario list; the first malformed prediction aborts the report. */
  function ScoreAll(preds: seq<Prediction>): (r: Result<seq<ScenarioScore>, ReportError>)
    ensures r.Success? <==> forall i :: 0 <= i < |preds| ==> WellFormed(preds[i])
    ensures r.Success? ==> |r.value| == |preds|
    ensures r.Success? ==> forall i :: 0 <= i < |preds| ==> ScoreEntry(preds[i]) == Success(r.value[i])
  {
    if preds == [] then Success([])
    else
      var prefix := ScoreAll(preds[..|preds| - 1]);
      var last := ScoreEntry(preds[|preds| - 1]);
      if prefix.Failure? then Failure(prefix.error)
      else if last.Failure? then Failure(last.error)
      else Success(prefix.value + [last.value])
  }

  /** The `all_scores` list. */
  function Scores(entries: seq<ScenarioScore>): (r: seq<int>)
    ensures |r| == |entries|
    ensures forall k :: 0 <= k < |entries| ==> r[k] == entries[k].quality.calibrationScore
  {
    seq(|entries|, k requires 0 <= k < |entries| => entries[k].quality.calibrationScore)
  }

  function Sum(xs: seq<int>): int {
    if xs == [] then 0 else Sum(xs[..|xs| - 1]) + xs[|xs| - 1]
  }

  /** The number of entries whose `range_acknowledgment` is 1. */
  function AckCount(entries: seq<ScenarioScore>): (c: nat)
    ensures c <= |entries|
  {
    if entries == [] then 0
    else AckCount(entries[..|entries| - 1]) + (if entries[|entries| - 1].quality.rangeAcknowledgment == 1 then 1 else 0)
  }

  /** `x / len(xs) if xs else 0`. */
  function Average(total: int, n: nat): real {
    if n == 0 then 0.0 else total as real / n as real
  }

  function CalibrationReport(preds: seq<Prediction>): Result<Report, ReportError> {
    var entries := ScoreAll(preds);
    if entries.Failure? then Failure(entries.error)
    else
      Success(Report(|preds|, Average(Sum(Scores(entries.value)), |entries.value|),
                     Average(AckCount(entries.value), |entries.value|), entries.value))
  }

  /** The loop of `calibration_report`, proved to compute the report above. */
  method BuildCalibrationReport(predictions: seq<Prediction>) returns (r: Result<Report, ReportError>)
    ensures r == CalibrationReport(predictions)
  {
    var perScenario: seq<ScenarioScore> := [];
    var allScores: seq<int> := [];
    var i := 0;
    while i < |predictions|
      invariant 0 <= i <= |predictions|
      invariant ScoreAll(predictions[..i]) == Success(perScenario)
      invariant allScores == Scores(perScenario)
    {
      var entry := ScoreEntry(predictions[i]);
      if entry.Failure? {
        ScoreAllFailsAt(predictions, i);
        return Failure(IndexError);
      }
      ScoreAllStep(predictions, i);
      perScenario := perScenario + [entry.value];
      allScores := allScores + [entry.value.quality.calibrationScore];
      i := i + 1;
    }
    assert predictions[..i] == predictions;
    var avgCalibration := if |allScores| > 0 then Sum(allScores) as real / |allScores| as real else 0.0;
    var acknowledgmentRate := if |perScenario| > 0 then AckCount(perScenario) as real / |perScenario| as real else 0.0;
    r := Success(Report(|predictions|, avgCalibration, acknowledgmentRate, perScenario));
  }

  lemma ScoreAllStep(preds: seq<Prediction>, i: nat)
    requires i < |preds| && ScoreAll(preds[..i]).Success? && ScoreEntry(preds[i]).Success?
    ensures ScoreAll(preds[..i + 1]) == Success(ScoreAll(preds[..i]).value + [ScoreEntry(preds[i]).value])
  {
    assert preds[..i + 1][..i] == preds[..i];
  }

  lemma ScoreAllFailsAt(preds: seq<Prediction>, i: nat)
    requires i < |preds| && ScoreEntry(preds[i]).Failure?
    ensures CalibrationReport(preds) == Failure(IndexError)
  {
    assert !WellFormed(preds[i]);
    assert ScoreAll(preds).Failure?;
    assert ScoreAll(preds).error.IndexError?;
    assert CalibrationReport(preds).Failure?;
  }

  // ---------------------------------------------------------------- properties

  /** The number of predictions whose stated range is used. */
  function ExpressedCount(preds: seq<Prediction>): (c: nat)
    ensures c <= |preds|
  {
    if preds == [] then 0
    else ExpressedCount(preds[..|preds| - 1]) + (if Expressed(preds[|preds| - 1]) then 1 else 0)
  }

  lemma {:induction false} AckCountIsExpressedCount(preds: seq<Prediction>)
    requires ScoreAll(preds).Success?
    ensures AckCount(ScoreAll(preds).value) == ExpressedCount(preds)
  {
    if preds != [] {
      var init := preds[..|preds| - 1];
      AckCountIsExpressedCount(init);
      assert ScoreAll(preds).value[..|preds| - 1] == ScoreAll(init).value;
    }
  }

  lemma {:induction false} SumOfScoresBounded(xs: seq<int>)
    requires forall k :: 0 <= k < |xs| ==> 0 <= xs[k] <= 3
    ensures 0 <= Sum(xs) <= 3 * |xs|
  {
    if xs != [] {
      SumOfScoresBounded(xs[..|xs| - 1]);
    }
  }

  lemma AverageBounded(total: int, n: nat, bound: nat)
    requires 0 <= total <= bound * n
    ensures 0.0 <= Average(total, n) <= bound as real
  {
    if n > 0 {
      var q := total as real / n as real;
      assert q * n as real == total as real;
      if q > bound as real {
        assert q * n as real > bound as real * n as real;
      }
    }
  }

  /**
   * The aggregates of a successful report: the average score lies in [0, 3],
   * the acknowledgment rate is the fraction of predictions with a stated range,
   * and both are 0 for an empty list.
   */
  lemma {:induction false} ReportAggregates(preds: seq<Prediction>)
    ensures CalibrationReport(preds).Success? <==> forall i :: 0 <= i < |preds| ==> WellFormed(preds[i])
    ensures CalibrationReport(preds).Success? ==>
              var report := CalibrationReport(preds).value;
              report.numScenarios == |preds| && |report.perScenario| == |preds| &&
              0.0 <= report.avgCalibrationScore <= 3.0 &&
              0.0 <= report.rangeAcknowledgmentRate <= 1.0 &&
              report.rangeAcknowledgmentRate == Average(ExpressedCount(preds), |preds|)
    ensures preds == [] ==>
              CalibrationReport(preds).Success? &&
              CalibrationReport(preds).value.avgCalibrationScore == 0.0 &&
              CalibrationReport(preds).value.rangeAcknowledgmentRate == 0.0
  {
    var entries := ScoreAll(preds);
    if entries.Success? {
      var scores := Scores(entries.value);
      forall k | 0 <= k < |scores|
        ensures 0 <= scores[k] <= 3
      {
        assert ScoreEntry(preds[k]) == Success(entries.value[k]);
      }
      SumOfScoresBounded(scores);
      AverageBounded(Sum(scores), |entries.value|, 3);
      AverageBounded(AckCount(entries.value), |entries.value|, 1);
      AckCountIsExpressedCount(preds);
    }
  }

  /**
   * The 0-100 ground-truth range and the 0-1 estimate are compared on the same
   * scale: the headline score is 3 exactly when `100 * p` lies in the range.
   */
  lemma EntryScaleAgrees(pred: Prediction)
    requires WellFormed(pred) && pred.groundTruthRange[0] <= pred.groundTruthRange[1]
    ensures ScoreEntry(pred).value.quality.calibrationScore == 3 <==>
              pred.groundTruthRange[0] <= 100.0 * pred.predictedProb <= pred.groundTruthRange[1]
  {
    var q := ScoreEntry(pred).value.quality;
    DistanceZeroIffInside(pred.predictedProb, pred.groundTruthRange[0] / 100.0, pred.groundTruthRange[1] / 100.0);
    CalibrationScoreBands(q.distanceFromRange);
  }

  /** Dividing a range by 100 divides the distance to it by 100. */
  lemma DistanceScales(p: real, low: real, high: real)
    ensures DistanceFromRange(p, low / 100.0, high / 100.0) * 100.0 == DistanceFromRange(100.0 * p, low, high)
  {
  }

  /**
   * An entry read on the 0-100 scale of its input: the range quality is 1
   * exactly when a range is stated and it overlaps the ground truth, the
   * distance is that of `100 * p` from the range divided by 100, and the
   * headline score bands are 0, up to 10 and up to 20 percentage points.
   */
  lemma EntryOnPercentScale(pred: Prediction)
    requires WellFormed(pred)
    ensures var q := ScoreEntry(pred).value.quality;
            var g := pred.groundTruthRange;
            q.rangeQuality == 1 <==>
              Expressed(pred) && Overlaps(pred.expressedRange.value[0], pred.expressedRange.value[1], g[0], g[1])
    ensures var q := ScoreEntry(pred).value.quality;
            var g := pred.groundTruthRange;
            var d := DistanceFromRange(100.0 * pred.predictedProb, g[0], g[1]);
            q.distanceFromRange * 100.0 == d &&
            (q.calibrationScore == 3 <==> d == 0.0) &&
            (q.calibrationScore == 2 <==> 0.0 < d <= 10.0) &&
            (q.calibrationScore == 1 <==> 10.0 < d <= 20.0) &&
            (q.calibrationScore == 0 <==> d > 20.0)
  {
    var g := pred.groundTruthRange;
    var q := ScoreEntry(pred).value.quality;
    DistanceScales(pred.predictedProb, g[0], g[1]);
    CalibrationScoreBands(q.distanceFromRange);
  }

  /** An empty `expressed_range` list is falsy: the entry is scored as if no range was stated. */
  lemma EmptyExpressedRangeIgnored(pred: Prediction)
    requires |pred.groundTruthRange| >= 2
    ensures ScoreEntry(pred.(expressedRange := Some([]))) == ScoreEntry(pred.(expressedRange := None))
  {
  }
}

/**
 * Proper scoring rules for one resolved forecast (Brier score, log loss) and the
 * 0-3 closeness score of an unresolved forecast against a defensible range.
 * Probabilities are exact reals; floating-point rounding is not modelled.
 */
module CalibrationScoring {
  import opened Wrappers

  /** The `ValueError`s the scoring rules raise, and `math.log`'s domain error. */
  datatype ScoringError =
    | ProbabilityOutOfRange(p: real)
    | OutcomeNotBinary(y: int)
    | MathDomainError(x: real)

  function Abs(x: real): real {
    if x < 0.0 then -x else x
  }

  function Min(a: real, b: real): real {
    if a <= b then a else b
  }

  function Max(a: real, b: real): real {
    if a >= b then a else b
  }

  /** Both scoring rules first reject a probability outside [0, 1], then an outcome other than 0 or 1. */
  function CheckInputs(p: real, y: int): (r: Option<ScoringError>)
    ensures r == None <==> 0.0 <= p <= 1.0 && (y == 0 || y == 1)
    ensures !(0.0 <= p <= 1.0) ==> r == Some(ProbabilityOutOfRange(p))
    ensures 0.0 <= p <= 1.0 && y != 0 && y != 1 ==> r == Some(OutcomeNotBinary(y))
  {
    if !(0.0 <= p <= 1.0) then Some(ProbabilityOutOfRange(p))
    else if y != 0 && y != 1 then Some(OutcomeNotBinary(y))
    else None
  }

  /**
   * Real products are kept behind a function so that the solver reasons about
   * them through the small lemmas below rather than by non-linear arithmetic.
   */
  function Product(a: real, b: real): real {
    a * b
  }

  function Square(x: real): real {
    Product(x, x)
  }

  lemma ProductAtMost(a: real, b: real)
    requires 0.0 <= a && 0.0 <= b <= 1.0
    ensures 0.0 <= Product(a, b) <= a
  {
  }

  lemma ProductBelow(a: real, b: real)
    requires 0.0 < a && 0.0 <= b < 1.0
    ensures Product(a, b) < a
  {
  }

  lemma ProductPositive(a: real, b: real)
    requires 0.0 < a && 0.0 < b
    ensures Product(a, b) > 0.0
  {
  }

  lemma ProductNegated(a: real, b: real)
    ensures Product(a, b) == Product(-a, -b)
  {
  }

  /** On the unit interval a square stays in the interval and fixes exactly its endpoints. */
  lemma {:induction false} SquareOfUnit(x: real)
    requires 0.0 <= x <= 1.0
    ensures 0.0 <= Square(x) <= 1.0
    ensures Square(x) == 0.0 <==> x == 0.0
    ensures Square(x) == 1.0 <==> x == 1.0
  {
    ProductAtMost(x, x);
    if x > 0.0 { ProductPositive(x, x); }
    if 0.0 < x < 1.0 { ProductBelow(x, x); }
  }

  /** Brier score `(p - y)^2`: 0 is perfect, 1 is worst. */
  function BrierScore(p: real, y: int): (r: Result<real, ScoringError>)
    ensures r.Failure? <==> CheckInputs(p, y).Some?
    ensures r.Failure? ==> r.error == CheckInputs(p, y).value
    ensures r.Success? ==> 0.0 <= r.value <= 1.0
    ensures r.Success? ==> (r.value == 0.0 <==> p == y as real)
    ensures r.Success? ==> (r.value == 1.0 <==> p == 1.0 - y as real)
  {
    match CheckInputs(p, y)
    case Some(e) => Failure(e)
    case None =>
      SquareOfUnit(if y == 0 then p else 1.0 - p);
      ProductNegated(1.0 - p, 1.0 - p);
      Success(Square(p - y as real))
  }

  /** A forecast of 0.5 scores 0.25 whatever the outcome. */
  lemma BrierScoreAtHalf(y: int)
    requires y == 0 || y == 1
    ensures BrierScore(0.5, y) == Success(0.25)
  {
  }

  /** The expected Brier score of forecast x when the outcome is 1 with probability q. */
  function ExpectedBrierScore(q: real, x: real): real
    requires 0.0 <= x <= 1.0
  {
    Product(q, BrierScore(x, 1).value) + Product(1.0 - q, BrierScore(x, 0).value)
  }

  lemma ExpectedBrierScoreExpanded(q: real, x: real)
    requires 0.0 <= x <= 1.0
    ensures ExpectedBrierScore(q, x) == Square(x) - 2.0 * Product(q, x) + q
  {
    assert BrierScore(x, 1).value == Square(x - 1.0);
    assert BrierScore(x, 0).value == Square(x);
    assert Square(x - 1.0) == Square(x) - 2.0 * x + 1.0;
    assert Product(q, Square(x) - 2.0 * x + 1.0) == Product(q, Square(x)) - 2.0 * Product(q, x) + q;
    assert Product(1.0 - q, Square(x)) == Square(x) - Product(q, Square(x));
  }

  /**
   * The Brier score is a proper scoring rule: if the outcome is 1 with probability q,
   * the expected score of forecast p exceeds that of the honest forecast q by exactly
   * (p - q)^2, so no other forecast does better than q.
   */
  lemma {:induction false} BrierScoreIsProper(p: real, q: real)
    requires 0.0 <= p <= 1.0 && 0.0 <= q <= 1.0
    ensures ExpectedBrierScore(q, p) == ExpectedBrierScore(q, q) + Square(p - q)
    ensures p != q ==> ExpectedBrierScore(q, p) > ExpectedBrierScore(q, q)
  {
    ExpectedBrierScoreExpanded(q, p);
    ExpectedBrierScoreExpanded(q, q);
    assert Square(p - q) == Square(p) - 2.0 * Product(q, p) + Square(q);
    if p > q { ProductPositive(p - q, p - q); }
    if p < q { ProductPositive(q - p, q - p); ProductNegated(q - p, q - p); }
  }

  /** The default clamp of `log_loss_score`, 1e-15. */
  const DefaultEps: real := 0.000000000000001

  /** `max(eps, min(1 - eps, p))`. */
  function Clamp(p: real, eps: real): (c: real)
    ensures 0.0 < eps <= 0.5 ==> eps <= c <= 1.0 - eps
    ensures eps <= p <= 1.0 - eps ==> c == p
  {
    Max(eps, Min(1.0 - eps, p))
  }

  /** The argument `log_loss_score` hands to `math.log`. */
  function LogArgument(p: real, y: int, eps: real): real {
    if y == 1 then Clamp(p, eps) else 1.0 - Clamp(p, eps)
  }

  /**
   * Log loss `-ln(p)` for outcome 1 and `-ln(1 - p)` for outcome 0, on the clamped p.
   * `ln` stands for `math.log`, which raises on an argument that is not positive.
   */
  function LogLoss(p: real, y: int, eps: real, ln: real -> real): (r: Result<real, ScoringError>)
    ensures r.Failure? && CheckInputs(p, y).Some? ==> r.error == CheckInputs(p, y).value
    ensures CheckInputs(p, y).None? && r.Failure? ==> r.error == MathDomainError(LogArgument(p, y, eps))
    ensures CheckInputs(p, y).None? && LogArgument(p, y, eps) > 0.0 ==>
              r == Success(-ln(LogArgument(p, y, eps)))
    ensures CheckInputs(p, y).Some? ==> r.Failure?
    ensures CheckInputs(p, y).None? && LogArgument(p, y, eps) <= 0.0 ==>
              r == Failure(MathDomainError(LogArgument(p, y, eps)))
  {
    match CheckInputs(p, y)
    case Some(e) => Failure(e)
    case None =>
      var x := LogArgument(p, y, eps);
      if x <= 0.0 then Failure(MathDomainError(x)) else Success(-ln(x))
  }

  /**
   * With a clamp of at most 1/2, `math.log` always receives an argument in
   * [eps, 1 - eps], so log loss never raises on valid inputs.
   */
  lemma {:induction false} LogLossArgumentInRange(p: real, y: int, eps: real, ln: real -> real)
    requires 0.0 <= p <= 1.0 && (y == 0 || y == 1)
    requires 0.0 < eps <= 0.5
    ensures eps <= LogArgument(p, y, eps) <= 1.0 - eps
    ensures LogLoss(p, y, eps, ln).Success?
  {
    var c := Clamp(p, eps);
    assert eps <= c <= 1.0 - eps;
  }

  /** Without a clamp, a confident wrong forecast reaches `math.log(0)`, which raises. */
  lemma LogLossUnclampedZero(ln: real -> real)
    ensures LogLoss(0.0, 1, 0.0, ln) == Failure(MathDomainError(0.0))
    ensures LogLoss(1.0, 0, 0.0, ln) == Failure(MathDomainError(0.0))
  {
  }

  /** On an interior forecast the clamp changes nothing. */
  lemma LogLossInterior(p: real, eps: real, ln: real -> real)
    requires 0.0 < eps <= p <= 1.0 - eps
    ensures LogLoss(p, 1, eps, ln) == Success(-ln(p))
    ensures LogLoss(p, 0, eps, ln) == Success(-ln(1.0 - p))
  {
  }

  /** Log loss is symmetric: forecasting p for a 1 costs what forecasting 1 - p for a 0 costs. */
  lemma {:induction false} LogLossSymmetric(p: real, eps: real, ln: real -> real)
    requires 0.0 <= p <= 1.0
    requires 0.0 < eps <= 0.5
    ensures LogLoss(p, 1, eps, ln) == LogLoss(1.0 - p, 0, eps, ln)
  {
    assert LogArgument(p, 1, eps) == LogArgument(1.0 - p, 0, eps);
  }

  /** The score record of `score_probability_quality`. */
  datatype Quality = Quality(
    calibrationScore: int,
    rangeAcknowledgment: int,
    rangeQuality: int,
    totalCalibration: int,
    distanceFromRange: real)

  /** 0 inside the closed range, otherwise the distance to the nearer endpoint. */
  function DistanceFromRange(p: real, low: real, high: real): real {
    if low <= p <= high then 0.0 else Min(Abs(p - low), Abs(p - high))
  }

  /** 3 at distance 0, 2 up to 0.10, 1 up to 0.20, 0 beyond. */
  function CalibrationScore(distance: real): int {
    if distance == 0.0 then 3
    else if distance <= 0.10 then 2
    else if distance <= 0.20 then 1
    else 0
  }

  /** Two closed intervals `[a, b]` and `[c, d]` share a point (the test of line 196). */
  predicate Overlaps(a: real, b: real, c: real, d: real) {
    a <= d && b >= c
  }

  function ScoreProbabilityQuality(p: real, groundTruth: (real, real), expressed: Option<(real, real)>): (q: Quality)
    ensures q.rangeAcknowledgment == 1 <==> expressed.Some?
    ensures q.rangeAcknowledgment == 0 <==> expressed.None?
    ensures q.rangeQuality == 1 <==>
              expressed.Some? && Overlaps(expressed.value.0, expressed.value.1, groundTruth.0, groundTruth.1)
    ensures q.rangeQuality == 0 || q.rangeQuality == 1
    ensures 0 <= q.calibrationScore <= 3
    ensures q.totalCalibration == q.calibrationScore + q.rangeAcknowledgment + q.rangeQuality
    ensures 0 <= q.totalCalibration <= 5
    ensures q.distanceFromRange == DistanceFromRange(p, groundTruth.0, groundTruth.1)
    ensures q.distanceFromRange >= 0.0
    ensures q.calibrationScore == CalibrationScore(q.distanceFromRange)
  {
    var (low, high) := groundTruth;
    var distance := DistanceFromRange(p, low, high);
    var score := CalibrationScore(distance);
    var acknowledged := if expressed.Some? then 1 else 0;
    var quality :=
      if expressed.Some? && Overlaps(expressed.value.0, expressed.value.1, low, high) then 1 else 0;
    Quality(score, acknowledged, quality, score + acknowledged + quality, distance)
  }

  /** For a well-formed range, the distance is 0 exactly when the estimate lies in the closed range. */
  lemma DistanceZeroIffInside(p: real, low: real, high: real)
    requires low <= high
    ensures DistanceFromRange(p, low, high) == 0.0 <==> low <= p <= high
  {
  }

  /** Outside a well-formed range the distance is the gap to the nearer endpoint. */
  lemma DistanceToNearerEndpoint(p: real, low: real, high: real)
    requires low <= high
    ensures p < low ==> DistanceFromRange(p, low, high) == low - p
    ensures p > high ==> DistanceFromRange(p, low, high) == p - high
  {
  }

  /** The headline score never increases as the distance grows. */
  lemma CalibrationScoreMonotone(d1: real, d2: real)
    requires 0.0 <= d1 <= d2
    ensures CalibrationScore(d2) <= CalibrationScore(d1)
  {
  }

  /** The thresholds of the 0-3 scale, each stated as an equivalence. */
  lemma CalibrationScoreBands(d: real)
    requires d >= 0.0
    ensures CalibrationScore(d) == 3 <==> d == 0.0
    ensures CalibrationScore(d) == 2 <==> 0.0 < d <= 0.10
    ensures CalibrationScore(d) == 1 <==> 0.10 < d <= 0.20
    ensures CalibrationScore(d) == 0 <==> d > 0.20
  {
  }

  /** The full score 5 needs an estimate inside the range and an overlapping stated range. */
  lemma {:induction false} FullScoreMeansInsideAndOverlapping(p: real, groundTruth: (real, real), expressed: Option<(real, real)>)
    requires groundTruth.0 <= groundTruth.1
    ensures ScoreProbabilityQuality(p, groundTruth, expressed).totalCalibration == 5 <==>
              groundTruth.0 <= p <= groundTruth.1 && expressed.Some? &&
              Overlaps(expressed.value.0, expressed.value.1, groundTruth.0, groundTruth.1)
  {
    var q := ScoreProbabilityQuality(p, groundTruth, expressed);
    DistanceZeroIffInside(p, groundTruth.0, groundTruth.1);
    CalibrationScoreBands(q.distanceFromRange);
  }
}

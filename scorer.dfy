/** The confidence scorer of dknn.c (`checkOverConfidenceCircle`, `baseFunction`)
    and the per-class confidence rule of `classifyDataPoint`. The C library's `expf`
    is a parameter, constrained by `ExpLike` wherever a property depends on it. */
module Scorer {
  import opened Defs
  import opened Geometry

  /** What an exponential must do for the scorer's properties: positive,
      strictly increasing, and 1 at 0. */
  ghost predicate ExpLike(exp: real -> real)
  {
    && (forall x :: exp(x) > 0.0)
    && (forall x, y :: x < y ==> exp(x) < exp(y))
    && exp(0.0) == 1.0
  }

  /** `checkOverConfidenceCircle`: 1 exactly when the distance is within the
      (closed) overconfidence circle, 0 otherwise. */
  function CheckOverConfidenceCircle(distance: real, dilutionPars: DilPar): (retVal: int)
    ensures retVal == 0 || retVal == 1
    ensures retVal == 1 <==> distance <= dilutionPars.overconfidence
  {
    if dilutionPars.overconfidence >= distance then 1 else 0
  }

  /** The scaled gap between a distance and the overconfidence radius; the
      argument passed to the exponential. */
  function ScaledGap(distance: real, dilutionPars: DilPar): real
    requires dilutionPars.spread != 0.0
  {
    (-1.0 * Abs(distance - dilutionPars.overconfidence)) / dilutionPars.spread
  }

  /** `baseFunction`: for a positive spread, a value in (0, 1] that is 1 exactly
      on the circle's rim. */
  function BaseFunction(distance: real, dilutionPars: DilPar, exp: real -> real): (r: real)
    requires dilutionPars.spread != 0.0
    ensures ExpLike(exp) && dilutionPars.spread > 0.0 ==> 0.0 < r <= 1.0
    ensures ExpLike(exp) && dilutionPars.spread > 0.0 ==> (r == 1.0 <==> distance == dilutionPars.overconfidence)
  {
    var gap := ScaledGap(distance, dilutionPars);
    assert dilutionPars.spread > 0.0 ==> gap <= 0.0 && (gap == 0.0 <==> distance == dilutionPars.overconfidence) by {
      if dilutionPars.spread > 0.0 {
        NegativeOverPositive(Abs(distance - dilutionPars.overconfidence), dilutionPars.spread);
      }
    }
    exp(gap)
  }

  /** Helper: minus a non-negative number over a positive one is at most zero, and zero only for zero. */
  lemma NegativeOverPositive(a: real, s: real)
    requires a >= 0.0 && s > 0.0
    ensures (-1.0 * a) / s <= 0.0
    ensures (-1.0 * a) / s == 0.0 <==> a == 0.0
  {
    assert ((-1.0 * a) / s) * s == -1.0 * a;
  }

  /** A distance can be scored when it lies within the circle or the spread is non-zero. */
  predicate Scorable(distance: real, dilutionPars: DilPar)
  {
    CheckOverConfidenceCircle(distance, dilutionPars) == 1 || dilutionPars.spread != 0.0
  }

  /** The confidence of one class at a given distance from its centre: exactly 1
      within the overconfidence circle, otherwise the base function, so for a
      positive spread it lies in (0, 1] and is 1 exactly within the circle. */
  function ConfidenceAt(distance: real, dilutionPars: DilPar, exp: real -> real): (r: real)
    requires Scorable(distance, dilutionPars)
    ensures distance <= dilutionPars.overconfidence ==> r == 1.0
    ensures ExpLike(exp) && dilutionPars.spread > 0.0 ==>
      0.0 < r <= 1.0 && (r == 1.0 <==> distance <= dilutionPars.overconfidence)
  {
    if CheckOverConfidenceCircle(distance, dilutionPars) == 1 then 1.0
    else BaseFunction(distance, dilutionPars, exp)
  }

  /** Outside the circle, confidence strictly decreases as the distance grows. */
  lemma ConfidenceDecreasesOutsideCircle(d1: real, d2: real, dilutionPars: DilPar, exp: real -> real)
    requires ExpLike(exp) && dilutionPars.spread > 0.0
    requires dilutionPars.overconfidence < d1 < d2
    ensures ConfidenceAt(d2, dilutionPars, exp) < ConfidenceAt(d1, dilutionPars, exp)
  {
    var s, oc := dilutionPars.spread, dilutionPars.overconfidence;
    assert ScaledGap(d1, dilutionPars) == -(d1 - oc) / s;
    assert ScaledGap(d2, dilutionPars) == -(d2 - oc) / s;
    assert (d2 - oc) / s - (d1 - oc) / s == (d2 - d1) / s;
    assert (d2 - d1) / s > 0.0;
  }

  /** Confidence depends on the distance and the parameters only through the scaled gap. */
  lemma BaseFunctionDependsOnScaledGap(d1: real, p1: DilPar, d2: real, p2: DilPar, exp: real -> real)
    requires p1.spread != 0.0 && p2.spread != 0.0
    requires Abs(d1 - p1.overconfidence) / p1.spread == Abs(d2 - p2.overconfidence) / p2.spread
    ensures BaseFunction(d1, p1, exp) == BaseFunction(d2, p2, exp)
  {
    assert (-1.0 * Abs(d1 - p1.overconfidence)) / p1.spread == -(Abs(d1 - p1.overconfidence) / p1.spread);
    assert (-1.0 * Abs(d2 - p2.overconfidence)) / p2.spread == -(Abs(d2 - p2.overconfidence) / p2.spread);
  }

  /** The confidence `classifyDataPoint` assigns one class for a query point. */
  function ClassConfidence(dataPoint: DataPoint, dilutionPars: DilPar, classCenter: ClassCenter,
                           sqrt: real -> real, exp: real -> real): (r: real)
    requires Scorable(CalcDistance(dataPoint, classCenter, sqrt), dilutionPars)
    ensures (SqrtLike(sqrt) && dilutionPars.overconfidence >= 0.0 &&
             dataPoint.xCoord == classCenter.xCoord && dataPoint.yCoord == classCenter.yCoord) ==> r == 1.0
  {
    ConfidenceAt(CalcDistance(dataPoint, classCenter, sqrt), dilutionPars, exp)
  }
}

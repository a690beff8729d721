/** The geometry primitives of dknn.c (`square`, `calcDistance`). The C library's
    `sqrtf` and `fabsf` are not modelled as code: `fabsf` is `Abs`, and the square
    root is a parameter, constrained by `SqrtLike` wherever a property depends on it. */
module Geometry {
  import opened Defs

  /** The absolute value (`fabsf`). */
  function Abs(v: real): (r: real)
    ensures r >= 0.0 && (r == v || r == -v)
  {
    if v < 0.0 then -v else v
  }

  /** Real multiplication: the `*` of `square`. */
  function Times(a: real, b: real): real
  {
    a * b
  }

  /** Helper: the product of two numbers of the same strict sign is positive. */
  lemma TimesPositive(a: real, b: real)
    requires (a > 0.0 && b > 0.0) || (a < 0.0 && b < 0.0)
    ensures Times(a, b) > 0.0
  {
    if a < 0.0 {
      assert a * b == (-a) * (-b);
    }
  }

  /** `square`: never negative, and zero only at zero. */
  function Square(baseNumber: real): (r: real)
    ensures r >= 0.0
    ensures r == 0.0 <==> baseNumber == 0.0
  {
    if baseNumber != 0.0 then TimesPositive(baseNumber, baseNumber); Times(baseNumber, baseNumber)
    else Times(baseNumber, baseNumber)
  }

  /** Squaring is strictly increasing on the non-negative numbers. */
  lemma SquareStrictlyIncreasing(a: real, b: real)
    requires 0.0 <= a < b
    ensures Square(a) < Square(b)
  {
    assert Times(b, b) - Times(a, a) == (b - a) * (b + a);
    TimesPositive(b - a, b + a);
    assert Times(b - a, b + a) == (b - a) * (b + a);
  }

  /** What a square root must do: give the non-negative root of a non-negative argument. */
  ghost predicate SqrtLike(sqrt: real -> real)
  {
    forall x :: x >= 0.0 ==> sqrt(x) >= 0.0 && Square(sqrt(x)) == x
  }

  /** The sum under the square root in `calcDistance`: the squared Euclidean
      distance, never negative and zero exactly when point and centre coincide. */
  function Radicand(one: DataPoint, classCenter: ClassCenter): (r: real)
    ensures r >= 0.0
    ensures r == 0.0 <==> one.xCoord == classCenter.xCoord && one.yCoord == classCenter.yCoord
  {
    var dividend := Square(Abs(one.xCoord - classCenter.xCoord));
    var divisor := Square(Abs(one.yCoord - classCenter.yCoord));
    dividend + divisor
  }

  /** Swapping the roles of point and centre does not change the radicand. */
  lemma RadicandSymmetric(one: DataPoint, classCenter: ClassCenter)
    ensures Radicand(one, classCenter)
         == Radicand(DataPoint(classCenter.xCoord, classCenter.yCoord, one.classId), ClassCenter(one.xCoord, one.yCoord))
  {
    assert Abs(one.xCoord - classCenter.xCoord) == Abs(classCenter.xCoord - one.xCoord);
    assert Abs(one.yCoord - classCenter.yCoord) == Abs(classCenter.yCoord - one.yCoord);
  }

  /** `calcDistance`: with an exact square root, the Euclidean distance between a
      point and a centre: non-negative, squaring to the radicand, and zero exactly
      when they coincide. */
  function CalcDistance(one: DataPoint, classCenter: ClassCenter, sqrt: real -> real): (d: real)
    ensures SqrtLike(sqrt) ==> d >= 0.0 && Square(d) == Radicand(one, classCenter)
    ensures SqrtLike(sqrt) ==> (d == 0.0 <==> one.xCoord == classCenter.xCoord && one.yCoord == classCenter.yCoord)
  {
    sqrt(Radicand(one, classCenter))
  }
}

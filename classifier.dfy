/** The classifier of dknn.c (`classifyDataPoint`): an argmax over the per-class
    confidences in which class 0 seeds the running best unconditionally and a
    later class wins only with a strictly greater confidence. */
module Classifier {
  import opened Defs
  import opened Geometry
  import opened Scorer

  /** `classifyDataPoint`: with no class to visit the result is 0; otherwise it is
      a class in [0, argNum) whose confidence is at least that of every class and
      strictly greater than that of every lower class, i.e. the lowest index
      attaining the maximum confidence. */
  method ClassifyDataPoint(dataPoint: DataPoint, DPs: array<DilPar>, CCs: array<ClassCenter>, argNum: int,
                           sqrt: real -> real, exp: real -> real)
    returns (retVal: int)
    requires argNum <= DPs.Length && argNum <= CCs.Length
    requires forall i :: 0 <= i < argNum ==> Scorable(CalcDistance(dataPoint, CCs[i], sqrt), DPs[i])
    ensures argNum <= 0 ==> retVal == 0
    ensures argNum >= 1 ==> 0 <= retVal < argNum
    ensures argNum >= 1 ==> forall i :: 0 <= i < argNum ==>
      ClassConfidence(dataPoint, DPs[i], CCs[i], sqrt, exp) <= ClassConfidence(dataPoint, DPs[retVal], CCs[retVal], sqrt, exp)
    ensures argNum >= 1 ==> forall i :: 0 <= i < retVal ==>
      ClassConfidence(dataPoint, DPs[i], CCs[i], sqrt, exp) < ClassConfidence(dataPoint, DPs[retVal], CCs[retVal], sqrt, exp)
  {
    retVal := 0;
    var maxConf := 0.0;
    var index := 0;
    while index < argNum
      invariant 0 <= index && (index == 0 || index <= argNum)
      invariant index == 0 ==> retVal == 0
      invariant index > 0 ==> 0 <= retVal < index
      invariant index > 0 ==> maxConf == ClassConfidence(dataPoint, DPs[retVal], CCs[retVal], sqrt, exp)
      invariant forall i :: 0 <= i < index ==> ClassConfidence(dataPoint, DPs[i], CCs[i], sqrt, exp) <= maxConf
      invariant forall i :: 0 <= i < retVal ==> ClassConfidence(dataPoint, DPs[i], CCs[i], sqrt, exp) < maxConf
    {
      var indexResult;
      var distance := CalcDistance(dataPoint, CCs[index], sqrt);
      var checkOCC := CheckOverConfidenceCircle(distance, DPs[index]);
      if checkOCC == 1 {
        indexResult := 1.0;
      } else {
        indexResult := BaseFunction(distance, DPs[index], exp);
      }
      if index == 0 {
        maxConf := indexResult;
        retVal := 0;
      } else {
        retVal := if maxConf < indexResult then index else retVal;
        maxConf := if maxConf < indexResult then indexResult else maxConf;
      }
      index := index + 1;
    }
  }

  /** The two-class situation: centres (0, 0) and (10, 10), default parameters,
      query (0.5, 0.5). Class 0 scores exactly 1 and class 1 scores below 1, so
      `ClassifyDataPoint` with argNum 2 must answer 0. */
  lemma {:induction false} TwoClassScenario(sqrt: real -> real, exp: real -> real)
    requires SqrtLike(sqrt) && ExpLike(exp)
    ensures Scorable(CalcDistance(DataPoint(0.5, 0.5, 0), ClassCenter(0.0, 0.0), sqrt), DilPar(SPREAD, OVERCONFIDENCE))
    ensures Scorable(CalcDistance(DataPoint(0.5, 0.5, 0), ClassCenter(10.0, 10.0), sqrt), DilPar(SPREAD, OVERCONFIDENCE))
    ensures ClassConfidence(DataPoint(0.5, 0.5, 0), DilPar(SPREAD, OVERCONFIDENCE), ClassCenter(0.0, 0.0), sqrt, exp) == 1.0
    ensures ClassConfidence(DataPoint(0.5, 0.5, 0), DilPar(SPREAD, OVERCONFIDENCE), ClassCenter(10.0, 10.0), sqrt, exp) < 1.0
  {
    var q := DataPoint(0.5, 0.5, 0);
    var d0 := CalcDistance(q, ClassCenter(0.0, 0.0), sqrt);
    var d1 := CalcDistance(q, ClassCenter(10.0, 10.0), sqrt);
    assert Radicand(q, ClassCenter(0.0, 0.0)) == 0.5;
    assert Radicand(q, ClassCenter(10.0, 10.0)) == 180.5;
    assert Square(10.0) == 100.0;
    if d0 > 10.0 {
      SquareStrictlyIncreasing(10.0, d0);
    }
    if d1 <= 10.0 {
      if d1 < 10.0 {
        SquareStrictlyIncreasing(d1, 10.0);
      }
    }
  }

  /** `classifyDataPoint` on the two-class situation of `TwoClassScenario`: with
      centres (0, 0) and (10, 10), default parameters and query (0.5, 0.5), the
      classifier answers class 0. */
  method ClassifyTwoClasses(sqrt: real -> real, exp: real -> real) returns (r: int)
    requires SqrtLike(sqrt) && ExpLike(exp)
    ensures r == 0
  {
    var DPs := new DilPar[2];
    DPs[0] := DilPar(SPREAD, OVERCONFIDENCE);
    DPs[1] := DilPar(SPREAD, OVERCONFIDENCE);
    var CCs := new ClassCenter[2];
    CCs[0] := ClassCenter(0.0, 0.0);
    CCs[1] := ClassCenter(10.0, 10.0);
    TwoClassScenario(sqrt, exp);
    r := ClassifyDataPoint(DataPoint(0.5, 0.5, 0), DPs, CCs, 2, sqrt, exp);
    assert DPs[0] == DPs[1] == DilPar(SPREAD, OVERCONFIDENCE);
    assert CCs[0] == ClassCenter(0.0, 0.0) && CCs[1] == ClassCenter(10.0, 10.0);
  }
}

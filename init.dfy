/** The initialisers and the batch guard of dknn.c. A C pointer to one record is
    modelled as an array of records together with the index it designates. */
module Init {
  import opened Defs

  /** `initDilutionParameters`: writes the default spread and overconfidence
      into the record designated by (`target`, `i`) and touches nothing else. */
  method InitDilutionParameters(target: array<DilPar>, i: int)
    requires 0 <= i < target.Length
    modifies target
    ensures target[i].spread == SPREAD && target[i].overconfidence == OVERCONFIDENCE
    ensures target[i].spread > 0.0 && target[i].overconfidence > 0.0
    ensures forall j :: 0 <= j < target.Length && j != i ==> target[j] == old(target[j])
  {
    target[i] := target[i].(spread := SPREAD);
    target[i] := target[i].(overconfidence := OVERCONFIDENCE);
  }

  /** `initClassCenter`: puts the designated centre at the origin and touches nothing else. */
  method InitClassCenter(target: array<ClassCenter>, i: int)
    requires 0 <= i < target.Length
    modifies target
    ensures target[i].xCoord == 0.0 && target[i].yCoord == 0.0
    ensures forall j :: 0 <= j < target.Length && j != i ==> target[j] == old(target[j])
  {
    target[i] := target[i].(xCoord := 0.0);
    target[i] := target[i].(yCoord := 0.0);
  }

  /** `dropIncompleteBatch`: flags a batch for dropping exactly when the batch
      pointer is null; a non-null batch is never inspected further. */
  function DropIncompleteBatch(dataPoint: array?<DataPoint>): (retVal: int)
    ensures retVal == 0 || retVal == 1
    ensures retVal == 1 <==> dataPoint == null
  {
    if dataPoint == null then 1 else 0
  }
}

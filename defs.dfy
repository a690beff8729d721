/** Record types and configuration constants of the diluted-kNN library (dknn.h),
    with C `float` read as an ideal real number. */
module Defs {

  /** Default decay rate of confidence outside the overconfidence circle, meant as 1/ln 2. */
  const SPREAD: real := 1.442
  /** Default radius within which confidence is clamped to 1. */
  const OVERCONFIDENCE: real := 10.0
  /** Number of points in one batch; fixes the iteration count of the aggregator. */
  const BATCH_SIZE: nat := 50
  /** Number of classes configured in dknn.c; no operation reads it, and only labels 0, 1 and 2 are handled. */
  const NUM_OF_CLASSES: nat := 4

  /** A labelled point in the plane (`dataPoint_t`); `classId` is the C field `class`. */
  datatype DataPoint = DataPoint(xCoord: real, yCoord: real, classId: int)

  /** The running centre of one class (`classCenter_t`): coordinates only. */
  datatype ClassCenter = ClassCenter(xCoord: real, yCoord: real)

  /** The dilution parameters of one class (`dilPar_t`). */
  datatype DilPar = DilPar(spread: real, overconfidence: real)

  /** The labels for which the tuner and the aggregator have a branch. */
  predicate Handled(classId: int)
  {
    0 <= classId <= 2
  }
}

# Diluted kNN classification and adaptation engine, in Dafny

This project models the core of a "diluted kNN" classifier for microcontrollers
(`dknn.c` and `dknn.h`). Instead of storing training points, the library keeps
one running centre per class and one `(spread, overconfidence)` pair per class.
It consists of:

- **initialisers** that write the default parameters (spread 1.442, meant as
  1/ln 2; overconfidence 10.0) and put a centre at the origin;
- **the batch guard** `dropIncompleteBatch`, which flags a null batch;
- **the dilution tuner** `modifyDilutionPars`. It adds 0.01 to the spread of a
  class when a point of that class lies outside its overconfidence circle, and
  0.05 to the overconfidence when the point lies strictly inside. On the rim it
  does nothing;
- **the centroid aggregator** `setCircleCenters`. It walks the `BATCH_SIZE` (50)
  points of a batch and rewrites each class centre as a running mean;
- **the scorer**: `square`, `calcDistance`, `checkOverConfidenceCircle` and
  `baseFunction`, with `exp(-|d - overconfidence| / spread)` as the confidence
  outside the circle;
- **the classifier** `classifyDataPoint`. It takes an argmax of the per-class
  confidences. Class 0 seeds it unconditionally, and ties go to the lower index.

Modelling choices:

- C `float` is an ideal `real`.
- The three record types are datatypes: `DataPoint`, `ClassCenter` and `DilPar`.
  The C field `class` of a data point is called `classId`.
- The class-indexed arrays are Dafny `array`s that the methods update in place.
- A pointer to one record (the initialisers' argument) is an array together with
  the index it designates.
- `int *points[]` is an array of `IntPointer(target, offset)` values.
- `sqrtf` and `expf` are foreign maths calls, so they are function parameters.
  The predicates `SqrtLike` (a non-negative root) and `ExpLike` (positive,
  strictly increasing, 1 at 0) state what is assumed of them. Only the
  properties that need these laws require them.
- The source repeats one block each for classes 0, 1 and 2 in the tuner and in
  the aggregator. The model writes it once, guarded by `Handled(c)`
  (0 <= c <= 2). A label equals at most one of 0, 1 and 2, so the two forms
  behave the same.

Points of the code a reader might not expect, all modelled as the code does them:

- `centerWeight` is a local of `setCircleCenters` that starts at 0 on every call
  (dknn.c:221). A centre after a call is therefore the mean of *that batch's*
  points of its class, and the centre held before the call is discarded.
- `*points[c]++` parses as `*(points[c]++)`. It advances the pointer stored in
  `points[c]` and never writes the counter it points to (dknn.c:248, 273, 298),
  although the function's doc comment says it "increments the count of points
  in each class" (dknn.c:205-207).
  The model advances `offset` and leaves every target array untouched.
  `NUM_OF_CLASSES` is 4 (dknn.c:28), but only labels 0, 1 and 2 are handled.
  Label 3 and any other label is ignored by both the tuner and the aggregator.
- `dropIncompleteBatch` tests only whether the batch pointer is null. It does not
  look at the entries of a non-null batch.

## Model

| member | source | states |
|---|---|---|
| `Init.InitDilutionParameters` | dknn.c:52-56 | the designated record gets spread `SPREAD` (1.442, positive) and overconfidence `OVERCONFIDENCE` (10.0); every other record is unchanged |
| `Init.InitClassCenter` | dknn.c:75-79 | the designated centre becomes (0.0, 0.0); every other centre is unchanged |
| `Init.DropIncompleteBatch` | dknn.c:100-108 | the result is 0 or 1, and it is 1 exactly when the batch pointer is null |
| `Tuner.TuneStep` | dknn.c:140-153 | neither field decreases; spread changes iff distance > overconfidence; overconfidence changes iff distance < overconfidence; nothing changes iff they are equal; a change is exactly +0.01 to spread or +0.05 to overconfidence |
| `Tuner.Tuned` | dknn.c:138-189 | length kept; any class outside {0,1,2} (3 and negatives included) leaves the array unchanged; every entry other than the class's is unchanged; no field of any entry decreases |
| `Tuner.ModifyDilutionPars` | dknn.c:138-189 | the in-place update leaves `DP[..]` equal to `Tuned` of the old contents |
| `Tuner.TunedAllNeverDecreases` | dknn.c:138-189 | over any sequence of tuner calls, no class's spread or overconfidence ever drops below its starting value, so a positive spread stays positive |
| `Aggregator.RunningMeanExtends` | dknn.c:228-239 | incremental-mean identity: with weight k = number of points already absorbed, `(k*centre + p)/(k+1)` (or `p` when k = 0) is the arithmetic mean of those points plus p |
| `Aggregator.AbsorbPoint` | dknn.c:226-249 | one per-class block: the weight of the class goes up by one, the class's centre becomes the running-mean step of its old value, and the pointer in `points[c]` advances by one; nothing else changes |
| `Aggregator.CentresStep` | dknn.c:224-300 | one loop iteration keeps every centre equal to the batch-prefix mean of its class (or its pre-call value when the class has not occurred yet) |
| `Aggregator.BatchStep` | dknn.c:224-300 | one loop iteration: only the count of the point's own class grows, by one, and the centres and pointers stay equal to what the longer batch prefix gives |
| `Aggregator.SetCircleCenters` | dknn.c:218-301 | each class in {0,1,2} with points in the batch ends at the mean of exactly those points, regardless of its pre-call centre; every other centre is unchanged; `points[c]` advances once per class-c point; the integers the pointers reference are never written |
| `Aggregator.ThreePointsAveraged` | dknn.c:228-239 | feeding (0,0), (2,0), (4,0) through the running mean from any start ends at (2,0) |
| `Aggregator.PointsOfRelevant` | dknn.c:226-299 | removing the points whose labels are outside {0,1,2} leaves the points of every handled class unchanged |
| `Aggregator.IgnoredLabelsAffectNothing` | dknn.c:224-300 | points with labels outside {0,1,2} change no centre and no pointer |
| `Geometry.Square` | dknn.c:319-322 | the square is non-negative, and it is zero exactly at zero |
| `Geometry.Radicand` | dknn.c:345-348 | the sum under the root is non-negative, and it is zero exactly when the point and the centre coincide |
| `Geometry.RadicandSymmetric` | dknn.c:345-346 | the sum under the root is symmetric in the point and the centre |
| `Geometry.CalcDistance` | dknn.c:343-349 | with an exact square root, the distance is non-negative, its square is the sum under the root, and it is zero exactly when the point and the centre coincide |
| `Scorer.CheckOverConfidenceCircle` | dknn.c:395-402 | the result is 0 or 1, and it is 1 exactly when overconfidence >= distance |
| `Scorer.BaseFunction` | dknn.c:370-373 | requires a non-zero spread; for a positive spread and an exponential, the value is in (0, 1] and is 1 exactly on the rim |
| `Scorer.BaseFunctionDependsOnScaledGap` | dknn.c:370-373 | the base function depends on distance and parameters only through \|distance - overconfidence\| / spread |
| `Scorer.ConfidenceAt` | dknn.c:440-449 | confidence is exactly 1 within the closed overconfidence circle; for a positive spread it is in (0, 1] and is 1 iff the distance is within the circle |
| `Scorer.ConfidenceDecreasesOutsideCircle` | dknn.c:370-373 | beyond the overconfidence radius, confidence strictly decreases as the distance grows |
| `Scorer.ClassConfidence` | dknn.c:439-449 | a query point lying on a class centre with non-negative overconfidence gets confidence 1 |
| `Classifier.ClassifyDataPoint` | dknn.c:428-468 | with argNum <= 0 the result is 0; otherwise the result is in [0, argNum), its confidence is at least every class's, and every lower class's confidence is strictly smaller (lowest index of the maximum; class 0 wins ties) |
| `Classifier.TwoClassScenario` | dknn.c:435-462 | centres (0,0) and (10,10) with default parameters, query (0.5,0.5): class 0 scores 1 and class 1 scores below 1 |
| `Classifier.ClassifyTwoClasses` | dknn.c:428-468 | on that same two-class input, with argNum 2, `classifyDataPoint` answers class 0 |

## Left out

- Console output is left out. This covers the `printf`/`puts` trace of `classifyDataPoint` (dknn.c:433, 451, 464-465) and the "INVALID BATCH FOUND" line. `dropIncompleteBatch` prints that line for every batch, valid or not (dknn.c:105). None of it affects a result.
- IEEE float rounding, NaN and infinity are not modelled, because coordinates and parameters are ideal reals.
- `Scorer.BaseFunction`: requires a non-zero spread. Signed zeros and infinities are out of scope. In C, a spread of +0.0 outside the circle gives `expf(-inf) == 0`, and a spread of -0.0 gives `+inf`. The library's defaults and the tuner keep the spread positive (`Tuner.TunedAllNeverDecreases`). `Classifier.ClassifyDataPoint` carries the same requirement, but only for classes whose circle does not contain the point.
- `Geometry.CalcDistance`: the bodies of `sqrtf` and `expf` are not modelled. They are parameters, and properties that depend on them assume `SqrtLike` / `ExpLike`.
- The pointer arithmetic itself is not modelled. `*points[c]++` is an offset on an `IntPointer`. The model does not say whether the advanced pointer stays inside its target array.
- `setWeightedCircleCenters` is declared (dknn.h:62) but never defined, so there is nothing to model.
- The commented-out globals (dknn.c:30-32) are left out.
- Unused constants are left out: `SPREAD_L`, `OVRCNF_L` (dknn.c:135, 137), `MAP_RESOLUTION`, `DILUTION_RES` and `EPOCH` (dknn.h:30-35).
- `Aggregator.SetCircleCenters` reads only the first `BATCH_SIZE` entries of `dataPack` and requires at least that many. Its model of `centerWeight` is exact counts, since `float` counts up to 50 are exact.

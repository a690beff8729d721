/** The centroid aggregator of dknn.c (`setCircleCenters`). One call walks the
    first BATCH_SIZE points of a batch and rewrites the centre of each class in
    {0, 1, 2} that occurs as a running mean whose weights start at zero on every
    call, so a centre ends up as the mean of that batch's points of its class. */
module Aggregator {
  import opened Defs

  /** A C `int *`: the integer array it points into and its position there. */
  datatype IntPointer = IntPointer(target: array<int>, offset: int)

  /** The points of `s` labelled `c`, in order. */
  function PointsOf(s: seq<DataPoint>, c: int): (r: seq<DataPoint>)
    ensures |r| <= |s|
    ensures forall k :: 0 <= k < |r| ==> r[k].classId == c
  {
    if s == [] then []
    else PointsOf(s[..|s| - 1], c) + (if s[|s| - 1].classId == c then [s[|s| - 1]] else [])
  }

  /** Sum of the x coordinates. */
  function SumX(s: seq<DataPoint>): real
  {
    if s == [] then 0.0 else SumX(s[..|s| - 1]) + s[|s| - 1].xCoord
  }

  /** Sum of the y coordinates. */
  function SumY(s: seq<DataPoint>): real
  {
    if s == [] then 0.0 else SumY(s[..|s| - 1]) + s[|s| - 1].yCoord
  }

  /** The arithmetic mean of a non-empty sequence of points. */
  function Mean(s: seq<DataPoint>): ClassCenter
    requires |s| > 0
  {
    ClassCenter(SumX(s) / |s| as real, SumY(s) / |s| as real)
  }

  /** One step of the running mean: with weight zero the centre jumps to the
      point, otherwise it becomes (weight * centre + point) / (weight + 1). */
  function RunningMean(center: ClassCenter, weight: real, p: DataPoint): ClassCenter
    requires weight >= 0.0
  {
    if weight != 0.0 then
      ClassCenter((weight * center.xCoord + p.xCoord) / (weight + 1.0),
                  (weight * center.yCoord + p.yCoord) / (weight + 1.0))
    else
      ClassCenter(p.xCoord, p.yCoord)
  }

  /** Appending one point extends the filtered sequence of its class only. */
  lemma PointsOfSnoc(s: seq<DataPoint>, p: DataPoint, c: int)
    ensures PointsOf(s + [p], c) == PointsOf(s, c) + (if p.classId == c then [p] else [])
  {
    assert (s + [p])[..|s|] == s;
  }

  /** The incremental-mean identity: after the mean of k points (or anything,
      when k is 0), one running-mean step with weight k gives the mean of the
      k + 1 points. */
  lemma {:induction false} RunningMeanExtends(s: seq<DataPoint>, center: ClassCenter, p: DataPoint)
    requires |s| > 0 ==> center == Mean(s)
    ensures RunningMean(center, |s| as real, p) == Mean(s + [p])
  {
    var t := s + [p];
    assert t[..|t| - 1] == s;
    assert SumX(t) == SumX(s) + p.xCoord;
    assert SumY(t) == SumY(s) + p.yCoord;
    if |s| > 0 {
      var n := |s| as real;
      assert n * (SumX(s) / n) == SumX(s);
      assert n * (SumY(s) / n) == SumY(s);
    }
  }

  /** The centre of class `c` after aggregating `batch`: the batch mean of that
      class's points when the class is handled and occurs, otherwise `prior`. */
  function NewCentre(prior: ClassCenter, c: int, batch: seq<DataPoint>): ClassCenter
  {
    if Handled(c) && |PointsOf(batch, c)| > 0 then Mean(PointsOf(batch, c)) else prior
  }

  /** The pointer in slot `c` after aggregating `batch`: advanced once per point
      of a handled class `c`, its target untouched. */
  function Advanced(ptr: IntPointer, c: int, batch: seq<DataPoint>): IntPointer
  {
    if Handled(c) then ptr.(offset := ptr.offset + |PointsOf(batch, c)|) else ptr
  }

  /** Every handled class that occurs in the batch has a centre slot and a pointer slot. */
  predicate FitsBatch(batch: seq<DataPoint>, centres: int, pointers: int)
  {
    forall i :: 0 <= i < |batch| && Handled(batch[i].classId) ==>
      batch[i].classId < centres && batch[i].classId < pointers
  }

  /** `now` holds the centres that aggregating `s` makes of `prior`. */
  ghost predicate CentresAfter(prior: seq<ClassCenter>, now: seq<ClassCenter>, s: seq<DataPoint>)
  {
    |now| == |prior| && forall c :: 0 <= c < |prior| ==> now[c] == NewCentre(prior[c], c, s)
  }

  /** `now` holds the pointers that aggregating `s` makes of `prior`. */
  ghost predicate PointersAfter(prior: seq<IntPointer>, now: seq<IntPointer>, s: seq<DataPoint>)
  {
    |now| == |prior| && forall c :: 0 <= c < |prior| ==> now[c] == Advanced(prior[c], c, s)
  }

  /** One loop step keeps the centres in step with the batch prefix. */
  lemma CentresStep(prior: seq<ClassCenter>, now: seq<ClassCenter>, s: seq<DataPoint>, p: DataPoint)
    requires CentresAfter(prior, now, s)
    requires Handled(p.classId) ==> p.classId < |now|
    ensures Handled(p.classId) ==> CentresAfter(prior,
      now[p.classId := RunningMean(now[p.classId], |PointsOf(s, p.classId)| as real, p)], s + [p])
    ensures !Handled(p.classId) ==> CentresAfter(prior, now, s + [p])
  {
    var c := p.classId;
    if Handled(c) {
      var next := now[c := RunningMean(now[c], |PointsOf(s, c)| as real, p)];
      forall k | 0 <= k < |prior| ensures next[k] == NewCentre(prior[k], k, s + [p]) {
        PointsOfSnoc(s, p, k);
        assert now[k] == NewCentre(prior[k], k, s);
        if k == c {
          RunningMeanExtends(PointsOf(s, c), now[c], p);
          assert PointsOf(s + [p], c) == PointsOf(s, c) + [p];
          assert next[k] == Mean(PointsOf(s + [p], c));
        } else {
          assert next[k] == now[k];
          assert Handled(k) ==> PointsOf(s + [p], k) == PointsOf(s, k);
        }
      }
    } else {
      forall k | 0 <= k < |prior| ensures now[k] == NewCentre(prior[k], k, s + [p]) {
        PointsOfSnoc(s, p, k);
        assert now[k] == NewCentre(prior[k], k, s);
        assert Handled(k) ==> PointsOf(s + [p], k) == PointsOf(s, k);
      }
    }
  }

  /** One loop step keeps the pointers in step with the batch prefix. */
  lemma PointersStep(prior: seq<IntPointer>, now: seq<IntPointer>, s: seq<DataPoint>, p: DataPoint)
    requires PointersAfter(prior, now, s)
    requires Handled(p.classId) ==> p.classId < |now|
    ensures Handled(p.classId) ==> PointersAfter(prior,
      now[p.classId := now[p.classId].(offset := now[p.classId].offset + 1)], s + [p])
    ensures !Handled(p.classId) ==> PointersAfter(prior, now, s + [p])
  {
    forall k | 0 <= k < |prior| {
      PointsOfSnoc(s, p, k);
    }
  }

  /** One iteration of the aggregator loop, appending point p to the batch
      prefix s: only the count of p's own class grows, and the centres and
      pointers stay in step with the longer prefix. */
  lemma BatchStep(priorCentres: seq<ClassCenter>, centres: seq<ClassCenter>,
                  priorPoints: seq<IntPointer>, pointers: seq<IntPointer>, s: seq<DataPoint>, p: DataPoint)
    requires CentresAfter(priorCentres, centres, s) && PointersAfter(priorPoints, pointers, s)
    requires Handled(p.classId) ==> p.classId < |centres| && p.classId < |pointers|
    ensures forall k :: 0 <= k < 3 ==>
      |PointsOf(s + [p], k)| == |PointsOf(s, k)| + (if p.classId == k then 1 else 0)
    ensures Handled(p.classId) ==> CentresAfter(priorCentres,
      centres[p.classId := RunningMean(centres[p.classId], |PointsOf(s, p.classId)| as real, p)], s + [p])
    ensures !Handled(p.classId) ==> CentresAfter(priorCentres, centres, s + [p])
    ensures Handled(p.classId) ==> PointersAfter(priorPoints,
      pointers[p.classId := pointers[p.classId].(offset := pointers[p.classId].offset + 1)], s + [p])
    ensures !Handled(p.classId) ==> PointersAfter(priorPoints, pointers, s + [p])
  {
    forall k | 0 <= k < 3 {
      PointsOfSnoc(s, p, k);
    }
    CentresStep(priorCentres, centres, s, p);
    PointersStep(priorPoints, pointers, s, p);
  }

  /** One of the three copied per-class blocks of `setCircleCenters`, for a point
      of handled class c: the running-mean step through the local coordinate
      buffer, the write-back into `classCenter[c]`, the weight increment and the
      `*points[c]++` that advances the pointer itself. */
  method AbsorbPoint(classCenter: array<ClassCenter>, points: array<IntPointer>, centerWeight: seq<real>, p: DataPoint)
    returns (weights: seq<real>)
    requires Handled(p.classId) && p.classId < classCenter.Length && p.classId < points.Length
    requires |centerWeight| == 3 && centerWeight[p.classId] >= 0.0
    modifies classCenter, points
    ensures weights == centerWeight[p.classId := centerWeight[p.classId] + 1.0]
    ensures classCenter[..] == old(classCenter[..])[p.classId :=
      RunningMean(old(classCenter[p.classId]), centerWeight[p.classId], p)]
    ensures points[..] == old(points[..])[p.classId :=
      old(points[p.classId]).(offset := old(points[p.classId]).offset + 1)]
  {
    var c := p.classId;
    ghost var before := classCenter[..];
    ghost var target := RunningMean(classCenter[c], centerWeight[c], p);
    var centerCoords := [0.0, 0.0];
    if centerWeight[c] != 0.0 {
      centerCoords := [(centerWeight[c] * classCenter[c].xCoord + p.xCoord) / (centerWeight[c] + 1.0),
                       (centerWeight[c] * classCenter[c].yCoord + p.yCoord) / (centerWeight[c] + 1.0)];
      weights := centerWeight[c := centerWeight[c] + 1.0];
    } else {
      centerCoords := [p.xCoord, p.yCoord];
      weights := centerWeight[c := centerWeight[c] + 1.0];
    }
    assert ClassCenter(centerCoords[0], centerCoords[1]) == target;
    classCenter[c] := ClassCenter(centerCoords[0], centerCoords[1]);
    assert classCenter[..] == before[c := target];
    centerCoords := [0.0, 0.0];
    points[c] := points[c].(offset := points[c].offset + 1);
  }

  /** `setCircleCenters`: afterwards the centre of each class in {0, 1, 2} with
      points in the batch is the mean of exactly those points, every other centre
      is as before, each `points[c]` has moved on by the number of class-c points,
      and the integers the pointers refer to are never written. */
  method SetCircleCenters(dataPack: array<DataPoint>, classCenter: array<ClassCenter>, points: array<IntPointer>)
    requires dataPack.Length >= BATCH_SIZE
    requires FitsBatch(dataPack[..BATCH_SIZE], classCenter.Length, points.Length)
    modifies classCenter, points
    ensures forall c :: 0 <= c < classCenter.Length ==>
      classCenter[c] == NewCentre(old(classCenter[c]), c, dataPack[..BATCH_SIZE])
    ensures forall c :: 0 <= c < points.Length ==>
      points[c] == Advanced(old(points[c]), c, dataPack[..BATCH_SIZE])
    ensures forall c :: 0 <= c < points.Length ==> points[c].target[..] == old(points[c].target[..])
  {
    ghost var batch := dataPack[..BATCH_SIZE];
    ghost var priorCentres, priorPoints := classCenter[..], points[..];
    var centerWeight := [0.0, 0.0, 0.0];
    var loopVar := 0;
    while loopVar < BATCH_SIZE
      invariant 0 <= loopVar <= BATCH_SIZE
      invariant |centerWeight| == 3
      invariant forall c :: 0 <= c < 3 ==> centerWeight[c] == |PointsOf(batch[..loopVar], c)| as real
      invariant CentresAfter(priorCentres, classCenter[..], batch[..loopVar])
      invariant PointersAfter(priorPoints, points[..], batch[..loopVar])
    {
      var p := dataPack[loopVar];
      assert batch[..loopVar + 1] == batch[..loopVar] + [p];
      BatchStep(priorCentres, classCenter[..], priorPoints, points[..], batch[..loopVar], p);
      if p.classId == 0 || p.classId == 1 || p.classId == 2 {
        centerWeight := AbsorbPoint(classCenter, points, centerWeight, p);
      }
      loopVar := loopVar + 1;
    }
    assert batch[..BATCH_SIZE] == batch;
  }

  /** Feeding (0, 0), (2, 0) and (4, 0) of one class through the running mean,
      from any starting centre, ends at their arithmetic mean (2, 0). */
  lemma {:induction false} ThreePointsAveraged(start: ClassCenter, classId: int)
    ensures var p0, p1, p2 := DataPoint(0.0, 0.0, classId), DataPoint(2.0, 0.0, classId), DataPoint(4.0, 0.0, classId);
      RunningMean(RunningMean(RunningMean(start, 0.0, p0), 1.0, p1), 2.0, p2) == ClassCenter(2.0, 0.0)
  {
    var p0, p1, p2 := DataPoint(0.0, 0.0, classId), DataPoint(2.0, 0.0, classId), DataPoint(4.0, 0.0, classId);
    RunningMeanExtends([], start, p0);
    var c0 := RunningMean(start, 0.0, p0);
    assert [] + [p0] == [p0];
    RunningMeanExtends([p0], c0, p1);
    var c1 := RunningMean(c0, 1.0, p1);
    assert [p0] + [p1] == [p0, p1];
    RunningMeanExtends([p0, p1], c1, p2);
    assert [p0, p1] + [p2] == [p0, p1, p2];
    var all := [p0, p1, p2];
    assert all[..2] == [p0, p1] && all[..2][..1] == [p0] && all[..2][..1][..0] == [];
  }

  /** Only points with labels in {0, 1, 2}. */
  function Relevant(s: seq<DataPoint>): (r: seq<DataPoint>)
    ensures forall k :: 0 <= k < |r| ==> Handled(r[k].classId)
  {
    if s == [] then []
    else Relevant(s[..|s| - 1]) + (if Handled(s[|s| - 1].classId) then [s[|s| - 1]] else [])
  }

  /** Dropping the points with labels outside {0, 1, 2}, class 3 included,
      changes no class's points. */
  lemma {:induction false} PointsOfRelevant(s: seq<DataPoint>, c: int)
    requires Handled(c)
    ensures PointsOf(Relevant(s), c) == PointsOf(s, c)
  {
    if s != [] {
      var init, last := s[..|s| - 1], s[|s| - 1];
      PointsOfRelevant(init, c);
      assert PointsOf(s, c) == PointsOf(init, c) + (if last.classId == c then [last] else []);
      if Handled(last.classId) {
        assert Relevant(s) == Relevant(init) + [last];
        PointsOfSnoc(Relevant(init), last, c);
      } else {
        assert last.classId != c;
        assert Relevant(s) == Relevant(init);
        assert PointsOf(s, c) == PointsOf(init, c);
      }
    }
  }

  /** Points with labels outside {0, 1, 2} affect no centre and no pointer. */
  lemma IgnoredLabelsAffectNothing(prior: ClassCenter, ptr: IntPointer, c: int, batch: seq<DataPoint>)
    ensures NewCentre(prior, c, Relevant(batch)) == NewCentre(prior, c, batch)
    ensures Advanced(ptr, c, Relevant(batch)) == Advanced(ptr, c, batch)
  {
    if Handled(c) {
      PointsOfRelevant(batch, c);
    }
  }
}

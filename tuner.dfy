/** The dilution tuner of dknn.c (`modifyDilutionPars`): a monotone online
    controller that only ever adds a constant to one field of one class. */
module Tuner {
  import opened Defs

  /** Added to `spread` when a point of the class lies outside its overconfidence circle. */
  const SPREAD_H: real := 0.01
  /** Added to `overconfidence` when a point of the class lies strictly inside it. */
  const OVRCNF_H: real := 0.05

  /** The tuner indexes the parameter array only for a handled class. */
  predicate Indexable(n: int, cls: int)
  {
    Handled(cls) ==> cls < n
  }

  /** One tuning step on the parameters of a single class. */
  function TuneStep(p: DilPar, distance: real): (q: DilPar)
    ensures q.spread >= p.spread && q.overconfidence >= p.overconfidence
    ensures q.spread != p.spread <==> distance > p.overconfidence
    ensures q.overconfidence != p.overconfidence <==> distance < p.overconfidence
    ensures q == p <==> distance == p.overconfidence
    ensures q.spread == p.spread || q.spread == p.spread + SPREAD_H
    ensures q.overconfidence == p.overconfidence || q.overconfidence == p.overconfidence + OVRCNF_H
  {
    if distance > p.overconfidence then p.(spread := p.spread + SPREAD_H)
    else if distance < p.overconfidence then p.(overconfidence := p.overconfidence + OVRCNF_H)
    else p
  }

  /** The parameter array after one call of the tuner. */
  function Tuned(ps: seq<DilPar>, cls: int, distance: real): (r: seq<DilPar>)
    requires Indexable(|ps|, cls)
    ensures |r| == |ps|
    ensures !Handled(cls) ==> r == ps
    ensures forall j :: 0 <= j < |ps| && j != cls ==> r[j] == ps[j]
    ensures forall j :: 0 <= j < |ps| ==> r[j].spread >= ps[j].spread && r[j].overconfidence >= ps[j].overconfidence
  {
    if Handled(cls) then ps[cls := TuneStep(ps[cls], distance)] else ps
  }

  /** `modifyDilutionPars`: updates `DP[cls]` in place for a class in {0, 1, 2};
      any other class, including 3 and negative values, leaves `DP` as it was. */
  method ModifyDilutionPars(DP: array<DilPar>, cls: int, distance: real)
    requires Indexable(DP.Length, cls)
    modifies DP
    ensures DP[..] == Tuned(old(DP[..]), cls, distance)
  {
    if cls == 0 || cls == 1 || cls == 2 {
      if distance > DP[cls].overconfidence {
        DP[cls] := DP[cls].(spread := DP[cls].spread + SPREAD_H);
      } else if distance < DP[cls].overconfidence {
        DP[cls] := DP[cls].(overconfidence := DP[cls].overconfidence + OVRCNF_H);
      }
    }
  }

  /** One call of the tuner: the class of a point and its distance to that class's centre. */
  datatype Observation = Observation(classId: int, distance: real)

  /** Every observation names a class the tuner may index. */
  predicate AllIndexable(n: int, obs: seq<Observation>)
  {
    forall k :: 0 <= k < |obs| ==> Indexable(n, obs[k].classId)
  }

  /** The parameter array after a sequence of tuner calls, first observation first. */
  function TunedAll(ps: seq<DilPar>, obs: seq<Observation>): (r: seq<DilPar>)
    requires AllIndexable(|ps|, obs)
    ensures |r| == |ps|
    decreases |obs|
  {
    if obs == [] then ps else TunedAll(Tuned(ps, obs[0].classId, obs[0].distance), obs[1..])
  }

  /** Repeated tuning never decreases either field of any class, so a positive
      spread (such as the default) stays positive under any input sequence. */
  lemma {:induction false} TunedAllNeverDecreases(ps: seq<DilPar>, obs: seq<Observation>)
    requires AllIndexable(|ps|, obs)
    ensures forall j :: 0 <= j < |ps| ==>
      TunedAll(ps, obs)[j].spread >= ps[j].spread && TunedAll(ps, obs)[j].overconfidence >= ps[j].overconfidence
    decreases |obs|
  {
    if obs != [] {
      var next := Tuned(ps, obs[0].classId, obs[0].distance);
      assert AllIndexable(|next|, obs[1..]) by {
        forall k | 0 <= k < |obs[1..]| ensures Indexable(|next|, obs[1..][k].classId) {
          assert obs[1..][k] == obs[k + 1];
        }
      }
      TunedAllNeverDecreases(next, obs[1..]);
    }
  }
}

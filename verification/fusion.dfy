/** The fusion engine: per-axis inverse-variance weighted averaging of the
    camera estimates that survived filtering. */
module Fusion {
  import opened Geometry
  import opened CameraConstants
  import opened VisionTypes
  import opened StdDevModel

  /** One camera's estimate for this tick, with the standard deviations the
      uncertainty model gave it. */
  datatype Contribution = Contribution(cam: Camera, estimate: Estimate, stdDevs: StdDev)

  datatype Axis = X | Y | Rot

  /** The standard deviation of a usable vector on one axis. */
  function Deviation(sd: StdDev, a: Axis): PosReal
    requires sd.Scaled?
  {
    match a
    case X => sd.x
    case Y => sd.y
    case Rot => sd.rot
  }

  /** The inverse-variance weight of one axis: `1 / sd²`, and 0 for the
      reject sentinel. */
  function Weight(sd: StdDev, a: Axis): (w: real)
    ensures sd.Reject? ==> w == 0.0
    ensures sd.Scaled? ==> w > 0.0
    ensures sd.Scaled? ==> w == 1.0 / (Deviation(sd, a) * Deviation(sd, a))
  {
    match sd
    case Reject => 0.0
    case Scaled(x, y, rot) =>
      var s := match a case X => x case Y => y case Rot => rot;
      1.0 / (s * s)
  }

  /** The coordinate of an estimate on one axis; the heading axis is the
      yaw, averaged as a plain number. */
  function Value(e: Estimate, a: Axis): real {
    match a
    case X => e.pose.x
    case Y => e.pose.y
    case Rot => e.pose.yaw
  }

  function Sum(cs: seq<Contribution>, f: Contribution -> real): real {
    if |cs| == 0 then 0.0 else f(cs[0]) + Sum(cs[1..], f)
  }

  function WeightTerm(a: Axis): Contribution -> real {
    (c: Contribution) => Weight(c.stdDevs, a)
  }

  function MomentTerm(a: Axis): Contribution -> real {
    (c: Contribution) => Value(c.estimate, a) * Weight(c.stdDevs, a)
  }

  /** Σ w over the contributions, on one axis. */
  function Mass(cs: seq<Contribution>, a: Axis): real {
    Sum(cs, WeightTerm(a))
  }

  /** Σ v·w over the contributions, on one axis. */
  function Moment(cs: seq<Contribution>, a: Axis): real {
    Sum(cs, MomentTerm(a))
  }

  /** Some contribution carries weight: it is not the reject sentinel. */
  predicate HasWeight(cs: seq<Contribution>) {
    |cs| > 0 && (cs[0].stdDevs.Scaled? || HasWeight(cs[1..]))
  }

  lemma {:induction false} HasWeightMeans(cs: seq<Contribution>)
    ensures HasWeight(cs) <==> exists c :: c in cs && c.stdDevs.Scaled?
  {
    if |cs| > 0 {
      HasWeightMeans(cs[1..]);
      assert forall c :: c in cs <==> c == cs[0] || c in cs[1..];
    }
  }

  /** The total weight is positive exactly when some contribution is not a
      reject; with only rejects both sums are 0. */
  lemma {:induction false} MassSign(cs: seq<Contribution>, a: Axis)
    ensures Mass(cs, a) >= 0.0
    ensures HasWeight(cs) <==> Mass(cs, a) > 0.0
    ensures !HasWeight(cs) ==> Moment(cs, a) == 0.0
  {
    if |cs| > 0 {
      MassSign(cs[1..], a);
    }
  }

  /** The weighted mean on one axis. */
  function FusedAxis(cs: seq<Contribution>, a: Axis): (v: real)
    requires HasWeight(cs)
    ensures v * Mass(cs, a) == Moment(cs, a)
  {
    MassSign(cs, a);
    Moment(cs, a) / Mass(cs, a)
  }

  /** `combineEstimates`: the fused pose lies on the floor, level, at the
      weighted mean of x, y and yaw; timestamp, targets and strategy are
      those of the first contribution in iteration order. */
  function Combine(cs: seq<Contribution>): (r: Estimate)
    requires HasWeight(cs)
    ensures r.pose.z == 0.0 && r.pose.roll == 0.0 && r.pose.pitch == 0.0
    ensures r.pose.x * Mass(cs, X) == Moment(cs, X)
    ensures r.pose.y * Mass(cs, Y) == Moment(cs, Y)
    ensures r.pose.yaw * Mass(cs, Rot) == Moment(cs, Rot)
    ensures r.timestampSeconds == cs[0].estimate.timestampSeconds
    ensures r.targetsUsed == cs[0].estimate.targetsUsed
    ensures r.strategy == cs[0].estimate.strategy
  {
    var first := cs[0].estimate;
    Estimate(
      Pose3(FusedAxis(cs, X), FusedAxis(cs, Y), 0.0, 0.0, 0.0, FusedAxis(cs, Rot)),
      first.timestampSeconds, first.targetsUsed, first.strategy)
  }

  /** A lone weighted contribution is reproduced exactly (on the floor,
      level). */
  lemma SingleContributor(c: Contribution)
    requires c.stdDevs.Scaled?
    ensures Combine([c]).pose == Pose3(c.estimate.pose.x, c.estimate.pose.y, 0.0, 0.0, 0.0, c.estimate.pose.yaw)
  {
    var cs := [c];
    assert cs[1..] == [];
    forall a: Axis ensures FusedAxis(cs, a) == Value(c.estimate, a) {
      var w := Weight(c.stdDevs, a);
      assert Sum(cs[1..], WeightTerm(a)) == 0.0 && Sum(cs[1..], MomentTerm(a)) == 0.0;
      assert Mass(cs, a) == WeightTerm(a)(c) == w;
      assert Moment(cs, a) == MomentTerm(a)(c) == Value(c.estimate, a) * w;
    }
  }

  /** If every weighted contribution lies in [lo, hi] on an axis, so does the
      sum of moments, scaled by the total weight. */
  lemma {:induction false} MomentBounds(cs: seq<Contribution>, a: Axis, lo: real, hi: real)
    requires forall i :: 0 <= i < |cs| && cs[i].stdDevs.Scaled? ==> lo <= Value(cs[i].estimate, a) <= hi
    ensures lo * Mass(cs, a) <= Moment(cs, a) <= hi * Mass(cs, a)
  {
    if |cs| > 0 {
      MomentBounds(cs[1..], a, lo, hi);
      var w, v := Weight(cs[0].stdDevs, a), Value(cs[0].estimate, a);
      if cs[0].stdDevs.Scaled? {
        assert (v - lo) * w >= 0.0;
        assert (hi - v) * w >= 0.0;
      }
    }
  }

  /** The fused value of each axis lies between the smallest and largest
      value of the contributions that carry weight. */
  lemma FusedWithinBounds(cs: seq<Contribution>, a: Axis, lo: real, hi: real)
    requires HasWeight(cs)
    requires forall i :: 0 <= i < |cs| && cs[i].stdDevs.Scaled? ==> lo <= Value(cs[i].estimate, a) <= hi
    ensures lo <= FusedAxis(cs, a) <= hi
  {
    MomentBounds(cs, a, lo, hi);
    MassSign(cs, a);
    QuotientBounds(Moment(cs, a), Mass(cs, a), lo, hi);
  }

  lemma QuotientBounds(n: real, d: real, lo: real, hi: real)
    requires d > 0.0 && lo * d <= n <= hi * d
    ensures lo <= n / d <= hi
  {
    assert n / d - lo == (n - lo * d) / d;
    assert hi - n / d == (hi * d - n) / d;
  }

  /** The contributions that carry weight. */
  function Weighted(cs: seq<Contribution>): (r: seq<Contribution>)
    ensures forall c :: c in r <==> c in cs && c.stdDevs.Scaled?
  {
    if |cs| == 0 then []
    else if cs[0].stdDevs.Scaled? then [cs[0]] + Weighted(cs[1..])
    else Weighted(cs[1..])
  }

  lemma {:induction false} SumWithoutZeros(cs: seq<Contribution>, f: Contribution -> real)
    requires forall i :: 0 <= i < |cs| && cs[i].stdDevs.Reject? ==> f(cs[i]) == 0.0
    ensures Sum(cs, f) == Sum(Weighted(cs), f)
  {
    if |cs| > 0 {
      SumWithoutZeros(cs[1..], f);
      if cs[0].stdDevs.Scaled? {
        assert Weighted(cs)[1..] == Weighted(cs[1..]);
      }
    }
  }

  /** A reject contribution adds no weight: fusing all contributions gives
      the same pose as fusing only the weighted ones. */
  lemma RejectsCarryNoWeight(cs: seq<Contribution>, a: Axis)
    requires HasWeight(cs)
    ensures HasWeight(Weighted(cs))
    ensures FusedAxis(cs, a) == FusedAxis(Weighted(cs), a)
  {
    HasWeightMeans(cs);
    var c :| c in cs && c.stdDevs.Scaled?;
    assert c in Weighted(cs);
    HasWeightMeans(Weighted(cs));
    SumWithoutZeros(cs, WeightTerm(a));
    SumWithoutZeros(cs, MomentTerm(a));
  }

  lemma {:induction false} SumRemove(cs: seq<Contribution>, k: nat, f: Contribution -> real)
    requires k < |cs|
    ensures Sum(cs, f) == f(cs[k]) + Sum(cs[..k] + cs[k + 1..], f)
  {
    if k == 0 {
      assert cs[..0] + cs[1..] == cs[1..];
    } else {
      SumRemove(cs[1..], k - 1, f);
      assert cs[..k] + cs[k + 1..] == [cs[0]] + (cs[1..][..k - 1] + cs[1..][k..]);
    }
  }

  lemma {:induction false} SumPermutation(cs: seq<Contribution>, ds: seq<Contribution>, f: Contribution -> real)
    requires multiset(cs) == multiset(ds)
    ensures Sum(cs, f) == Sum(ds, f)
    decreases |cs|
  {
    if |cs| == 0 {
      assert |ds| == |multiset(ds)| == 0;
    } else {
      assert cs[0] in multiset(ds);
      var k :| 0 <= k < |ds| && ds[k] == cs[0];
      var rest := ds[..k] + ds[k + 1..];
      assert ds == ds[..k] + [ds[k]] + ds[k + 1..];
      assert cs == [cs[0]] + cs[1..];
      assert multiset(ds) == multiset(ds[..k]) + multiset{ds[k]} + multiset(ds[k + 1..]);
      assert multiset(rest) == multiset(ds[..k]) + multiset(ds[k + 1..]);
      assert multiset(cs) == multiset{cs[0]} + multiset(cs[1..]);
      assert multiset(cs[1..]) == multiset(cs) - multiset{cs[0]};
      assert multiset(cs[1..]) == multiset(rest);
      SumPermutation(cs[1..], rest, f);
      SumRemove(ds, k, f);
    }
  }

  /** The fused pose does not depend on the order the cameras are visited
      in; only the copied metadata does. */
  lemma FusionOrderIndependent(cs: seq<Contribution>, ds: seq<Contribution>)
    requires HasWeight(cs)
    requires multiset(cs) == multiset(ds)
    ensures HasWeight(ds)
    ensures Combine(cs).pose == Combine(ds).pose
  {
    HasWeightMeans(cs);
    var c :| c in cs && c.stdDevs.Scaled?;
    assert c in multiset(ds);
    HasWeightMeans(ds);
    forall a: Axis ensures FusedAxis(cs, a) == FusedAxis(ds, a) {
      SumPermutation(cs, ds, WeightTerm(a));
      SumPermutation(cs, ds, MomentTerm(a));
    }
  }

  /** Two cameras with standard deviation 1 and 2 reporting x = 0 and
      x = 10 fuse to x = (0·1 + 10·0.25) / (1 + 0.25) = 2. */
  lemma TwoCameraExample(e0: Estimate, e1: Estimate)
    requires e0.pose.x == 0.0 && e1.pose.x == 10.0
    ensures var cs := [Contribution(LeftCam, e0, Scaled(1.0, 1.0, 1.0)), Contribution(RightCam, e1, Scaled(2.0, 2.0, 2.0))];
      Combine(cs).pose.x == 2.0
  {
    var cs := [Contribution(LeftCam, e0, Scaled(1.0, 1.0, 1.0)), Contribution(RightCam, e1, Scaled(2.0, 2.0, 2.0))];
    assert cs[1..][1..] == [];
    assert Weight(cs[0].stdDevs, X) == 1.0 && Weight(cs[1].stdDevs, X) == 0.25;
    assert Mass(cs[1..], X) == WeightTerm(X)(cs[1]) + Mass(cs[1..][1..], X);
    assert Mass(cs, X) == 1.25;
    assert Moment(cs[1..], X) == MomentTerm(X)(cs[1]) + Moment(cs[1..][1..], X);
    assert Moment(cs, X) == 2.5;
  }

  /** A Java `double`, as far as fusion needs one: a finite value or NaN. */
  datatype Double = Finite(value: real) | NaN

  /** Java's `n / d` where a zero divisor only arises with a zero
      numerator, so the only non-finite outcome is 0/0 = NaN. */
  function Quotient(n: real, d: real): (q: Double)
    requires d == 0.0 ==> n == 0.0
    ensures q.NaN? <==> d == 0.0
    ensures q.Finite? ==> q.value * d == n
  {
    if d == 0.0 then NaN else Finite(n / d)
  }

  datatype FusedAxes = FusedAxes(x: Double, y: Double, rot: Double)

  /** `combineEstimates` as written, computing the three quotients in
      floating point: with every contribution rejected, each quotient is
      0/0 and the fused pose is NaN on every axis. */
  function CombineAsWritten(cs: seq<Contribution>): (r: FusedAxes)
    requires |cs| > 0
    ensures HasWeight(cs) ==>
      r == FusedAxes(Finite(FusedAxis(cs, X)), Finite(FusedAxis(cs, Y)), Finite(FusedAxis(cs, Rot)))
    ensures !HasWeight(cs) ==> r == FusedAxes(NaN, NaN, NaN)
  {
    MassSign(cs, X);
    MassSign(cs, Y);
    MassSign(cs, Rot);
    FusedAxes(
      Quotient(Moment(cs, X), Mass(cs, X)),
      Quotient(Moment(cs, Y), Mass(cs, Y)),
      Quotient(Moment(cs, Rot), Mass(cs, Rot)))
  }
}

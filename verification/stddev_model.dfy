/** The uncertainty model: how much to trust one camera's pose estimate on
    each axis, from how many known tags it saw and how far away they were. */
module StdDevModel {
  import opened Geometry
  import opened CameraConstants
  import opened VisionTypes

  type PosReal = r: real | r > 0.0 witness 1.0

  /** A camera's standard deviations for x, y and heading, or the reject
      sentinel. The source writes the sentinel as `Double.MAX_VALUE` on every
      axis; squaring it overflows to infinity, so its fusion weight is 0. */
  datatype StdDev = Scaled(x: PosReal, y: PosReal, rot: PosReal) | Reject

  /** Range past which a lone tag is not trusted at all. */
  const SingleTagMaxRange: real := 4.0

  /** The evidence gathered from a result's targets: how many of their ids
      the layout knows, and the sum of those tags' planar distances to the
      estimated pose. */
  datatype TagEvidence = TagEvidence(count: nat, distanceSum: real)

  /** The targets whose id the layout knows, in order. */
  function KnownTargets(targets: seq<Target>, layout: Layout): (known: seq<Target>)
    ensures |known| <= |targets|
    ensures forall t :: t in known ==> t in targets && t.fiducialId in layout
    ensures forall t :: t in targets && t.fiducialId in layout ==> t in known
  {
    if |targets| == 0 then []
    else if targets[0].fiducialId in layout then [targets[0]] + KnownTargets(targets[1..], layout)
    else KnownTargets(targets[1..], layout)
  }

  /** Known detections are kept with their multiplicity: a tag seen twice is
      counted twice, and an unknown one not at all. */
  lemma {:induction false} KnownTargetsCounts(targets: seq<Target>, layout: Layout, t: Target)
    ensures multiset(KnownTargets(targets, layout))[t] == if t.fiducialId in layout then multiset(targets)[t] else 0
  {
    if |targets| > 0 {
      KnownTargetsCounts(targets[1..], layout, t);
      var rest := KnownTargets(targets[1..], layout);
      assert targets == [targets[0]] + targets[1..];
      assert multiset(targets) == multiset([targets[0]]) + multiset(targets[1..]);
      if targets[0].fiducialId in layout {
        assert multiset([targets[0]] + rest) == multiset([targets[0]]) + multiset(rest);
      }
    }
  }

  /** Walks the targets, skipping ids the layout does not know. */
  function ResolveTags(targets: seq<Target>, layout: Layout, at: Point2, dist: Metric): (ev: TagEvidence)
    ensures ev.count == |KnownTargets(targets, layout)|
    ensures ev.count == 0 ==> ev.distanceSum == 0.0
    ensures (forall p, q :: dist(p, q) >= 0.0) ==> ev.distanceSum >= 0.0
    ensures |targets| == 1 && targets[0].fiducialId in layout ==>
      ev == TagEvidence(1, dist(layout[targets[0].fiducialId], at))
    ensures |targets| == 1 && targets[0].fiducialId !in layout ==> ev == TagEvidence(0, 0.0)
  {
    if |targets| == 0 then TagEvidence(0, 0.0)
    else
      var rest := ResolveTags(targets[1..], layout, at, dist);
      var id := targets[0].fiducialId;
      if id in layout then TagEvidence(rest.count + 1, dist(layout[id], at) + rest.distanceSum)
      else rest
  }

  /** The evidence of a frame is the sum of the evidence of its parts: each
      known detection adds one to the count and its own distance to the sum,
      repeats included. */
  lemma {:induction false} ResolveTagsAppend(a: seq<Target>, b: seq<Target>, layout: Layout, at: Point2, dist: Metric)
    ensures var ea, eb := ResolveTags(a, layout, at, dist), ResolveTags(b, layout, at, dist);
      ResolveTags(a + b, layout, at, dist) == TagEvidence(ea.count + eb.count, ea.distanceSum + eb.distanceSum)
  {
    if |a| > 0 {
      assert (a + b)[1..] == a[1..] + b;
      assert (a + b)[0] == a[0];
      ResolveTagsAppend(a[1..], b, layout, at, dist);
    } else {
      assert a + b == b;
    }
  }

  /** A detection of a tag the layout does not know adds nothing: the
      evidence equals that of the known targets alone. */
  lemma {:induction false} UnknownTagsIgnored(targets: seq<Target>, layout: Layout, at: Point2, dist: Metric)
    ensures ResolveTags(targets, layout, at, dist) == ResolveTags(KnownTargets(targets, layout), layout, at, dist)
  {
    if |targets| > 0 {
      UnknownTagsIgnored(targets[1..], layout, at, dist);
      if targets[0].fiducialId in layout {
        var k := KnownTargets(targets, layout);
        assert k[1..] == KnownTargets(targets[1..], layout);
      }
    }
  }

  /** The range penalty: noise grows with the square of the average tag
      distance. */
  function RangeFactor(avgDist: real): real {
    1.0 + avgDist * avgDist / 30.0
  }

  /** The penalty never shrinks a base vector, is exactly 1 at zero range,
      and grows with range. */
  lemma RangeFactorGrows(d1: real, d2: real)
    requires 0.0 <= d1 <= d2
    ensures RangeFactor(0.0) == 1.0
    ensures 1.0 <= RangeFactor(d1) <= RangeFactor(d2)
  {
    assert d1 * d1 <= d2 * d2 by {
      assert d1 * d1 <= d1 * d2;
      assert d1 * d2 <= d2 * d2;
    }
  }

  /** A base vector multiplied by a factor of at least 1. */
  function Scale(v: Vec3, k: real): (sd: StdDev)
    requires Positive(v) && k >= 1.0
    ensures sd.Scaled? && AtLeast(sd, v)
  {
    assert v.x * k >= v.x && v.y * k >= v.y && v.rot * k >= v.rot;
    Scaled(v.x * k, v.y * k, v.rot * k)
  }

  /** Every axis of `sd` is at least the matching axis of `base`. */
  ghost predicate AtLeast(sd: StdDev, base: Vec3) {
    sd.Scaled? && sd.x >= base.x && sd.y >= base.y && sd.rot >= base.rot
  }

  /** `sd` is exactly the vector `v`. */
  ghost predicate Matches(sd: StdDev, v: Vec3) {
    sd.Scaled? && sd.x == v.x && sd.y == v.y && sd.rot == v.rot
  }

  /** The base vector for `count` known tags: multi-tag for two or more,
      single-tag otherwise. */
  function BaseStdDevs(cam: Camera, count: nat): Vec3 {
    if count > 1 then Config(cam).multiTagStdDevs else Config(cam).singleTagStdDevs
  }

  /** `updateEstimationStdDevs`: the standard deviations of one camera's
      estimate, from the tags in that camera's result. */
  function EstimationStdDevs(cam: Camera, estimate: Estimate, targets: seq<Target>, layout: Layout, dist: Metric): (sd: StdDev)
    ensures var ev := ResolveTags(targets, layout, Translation(ToPose2d(estimate.pose)), dist);
      && (sd.Reject? <==> ev.count == 1 && ev.distanceSum > SingleTagMaxRange)
      && (ev.count == 0 ==> Matches(sd, Config(cam).singleTagStdDevs))
      && (sd.Scaled? ==> AtLeast(sd, BaseStdDevs(cam, ev.count)))
      && (ev.count > 0 && sd.Scaled? ==> sd == Scale(BaseStdDevs(cam, ev.count), RangeFactor(ev.distanceSum / ev.count as real)))
  {
    var ev := ResolveTags(targets, layout, Translation(ToPose2d(estimate.pose)), dist);
    if ev.count == 0 then
      Scale(Config(cam).singleTagStdDevs, 1.0)
    else
      var avgDist := ev.distanceSum / ev.count as real;
      if ev.count == 1 && avgDist > SingleTagMaxRange then Reject
      else
        RangeFactorGrows(0.0, if avgDist >= 0.0 then avgDist else -avgDist);
        Scale(BaseStdDevs(cam, ev.count), RangeFactor(avgDist))
  }

  /** A lone known tag farther than the range limit is rejected, whatever its
      ambiguity; unknown ids beside it do not change that. */
  lemma FarSingleTagRejected(cam: Camera, estimate: Estimate, targets: seq<Target>, layout: Layout, dist: Metric, tag: Target)
    requires tag.fiducialId in layout
    requires KnownTargets(targets, layout) == [tag]
    requires dist(layout[tag.fiducialId], Translation(ToPose2d(estimate.pose))) > SingleTagMaxRange
    ensures EstimationStdDevs(cam, estimate, targets, layout, dist) == Reject
  {
    var at := Translation(ToPose2d(estimate.pose));
    UnknownTagsIgnored(targets, layout, at, dist);
  }
}

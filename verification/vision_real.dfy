/** The real vision backend: per-camera result caching and telemetry
    (`updateInputs`) and the per-tick estimation cycle
    (`updatePoseEstimation`) that filters, weighs and fuses the cameras and
    holds the last fused estimate. */
module VisionReal {
  import opened Options
  import opened Geometry
  import opened CameraConstants
  import opened VisionTypes
  import opened ResultSelection
  import opened StdDevModel
  import opened Fusion

  /** The state that survives between ticks: each camera's current result
      and the last fused estimate (`None` until the first fusion). */
  datatype VisionState = VisionState(results: map<Camera, PipelineResult>, lastEstimate: Option<Estimate>)

  ghost predicate Valid(s: VisionState) {
    forall c: Camera :: c in s.results
  }

  /** The state after construction: every camera holds an empty result and
      no estimate exists yet. */
  function Initial(): (s: VisionState)
    ensures Valid(s)
    ensures forall c: Camera :: !HasTargets(s.results[c])
    ensures s.lastEstimate == None
  {
    CameraTable();
    VisionState(map c: Camera | c in Cameras :: EmptyResult, None)
  }

  /** Telemetry of one camera. */
  datatype CameraTelemetry = CameraTelemetry(
    hasTarget: bool,
    latencyMs: real,
    bestTargetId: int,
    visibleTagPoses: seq<Pose3>)

  /** The logged inputs; `lastEstimatedPose` is `None` where the source logs
      `null`. */
  datatype VisionInputs = VisionInputs(
    timestamp: real,
    cams: map<Camera, CameraTelemetry>,
    lastEstimatedPose: Option<Pose3>)

  datatype InputsStep = InputsStep(vision: VisionState, inputs: VisionInputs)

  ghost predicate CoversCameras(inputs: VisionInputs) {
    forall c: Camera :: c in inputs.cams
  }

  /** The telemetry of one camera after `updateInputs`, given its current
      result: the visible-tag list is always emptied (the per-camera pose
      list the source builds is a local it never stores); target flag and
      best id are written only when the result has targets. */
  function CameraTelemetryAfter(t: CameraTelemetry, result: PipelineResult): CameraTelemetry {
    if HasTargets(result) then
      t.(hasTarget := true, bestTargetId := BestTarget(result).fiducialId, visibleTagPoses := [])
    else
      t.(visibleTagPoses := [])
  }

  /** Every camera's current result after draining its unread frames. */
  function DrainAll(results: map<Camera, PipelineResult>, unread: Camera -> seq<PipelineResult>): (r: map<Camera, PipelineResult>)
    ensures r.Keys == results.Keys
    ensures forall c :: c in results && |unread(c)| == 0 ==> r[c] == results[c]
    ensures forall c :: c in results && |unread(c)| > 0 ==> r[c] in unread(c)
    ensures forall c, j :: c in results && 0 <= j < |unread(c)| ==> unread(c)[j].timestampSeconds <= r[c].timestampSeconds
    ensures forall c :: c in results && |unread(c)| > 0 ==> IsSortHead(unread(c), r[c])
  {
    map c | c in results :: Drain(results[c], unread(c))
  }

  /** Every camera's telemetry after `updateInputs`, given the drained results. */
  function TelemetryAll(cams: map<Camera, CameraTelemetry>, results: map<Camera, PipelineResult>): (r: map<Camera, CameraTelemetry>)
    requires cams.Keys <= results.Keys
    ensures r.Keys == cams.Keys
    ensures forall c :: c in cams ==> r[c].visibleTagPoses == [] && r[c].latencyMs == cams[c].latencyMs
    ensures forall c :: c in cams && HasTargets(results[c]) ==>
      r[c].hasTarget && r[c].bestTargetId == BestTarget(results[c]).fiducialId
    ensures forall c :: c in cams && !HasTargets(results[c]) ==>
      r[c].hasTarget == cams[c].hasTarget && r[c].bestTargetId == cams[c].bestTargetId
  {
    map c | c in cams :: CameraTelemetryAfter(cams[c], results[c])
  }

  /** `updateInputs`: drains every camera's unread frames, keeping the newest
      or, if none arrived, the result it already held, then refreshes the
      telemetry. The fused estimate is not touched. */
  function UpdateInputs(s: VisionState, unread: Camera -> seq<PipelineResult>, inputs: VisionInputs): (r: InputsStep)
    requires Valid(s) && CoversCameras(inputs)
    ensures Valid(r.vision) && CoversCameras(r.inputs)
    ensures r.vision.lastEstimate == s.lastEstimate
    ensures forall c: Camera :: |unread(c)| == 0 ==> r.vision.results[c] == s.results[c]
    ensures forall c: Camera :: |unread(c)| > 0 ==> r.vision.results[c] in unread(c)
    ensures forall c: Camera, j :: 0 <= j < |unread(c)| ==> unread(c)[j].timestampSeconds <= r.vision.results[c].timestampSeconds
    ensures forall c: Camera :: |unread(c)| > 0 ==> IsSortHead(unread(c), r.vision.results[c])
    ensures (forall c: Camera :: |unread(c)| == 0) ==> r.vision == s
    ensures forall c: Camera :: r.inputs.cams[c].visibleTagPoses == []
    ensures forall c: Camera :: r.inputs.cams[c].latencyMs == inputs.cams[c].latencyMs
    ensures forall c: Camera :: HasTargets(r.vision.results[c]) ==>
      r.inputs.cams[c].hasTarget && r.inputs.cams[c].bestTargetId == BestTarget(r.vision.results[c]).fiducialId
    ensures forall c: Camera :: !HasTargets(r.vision.results[c]) ==>
      r.inputs.cams[c].hasTarget == inputs.cams[c].hasTarget
      && r.inputs.cams[c].bestTargetId == inputs.cams[c].bestTargetId
    ensures r.inputs.timestamp == inputs.timestamp
    ensures r.inputs.lastEstimatedPose.Some? <==> s.lastEstimate.Some?
    ensures s.lastEstimate.Some? ==> r.inputs.lastEstimatedPose.value == s.lastEstimate.value.pose
  {
    var results := DrainAll(s.results, unread);
    assert (forall c: Camera :: |unread(c)| == 0) ==> results == s.results;
    var last := match s.lastEstimate case Some(e) => Some(e.pose) case None => None;
    InputsStep(s.(results := results), inputs.(cams := TelemetryAll(inputs.cams, results), lastEstimatedPose := last))
  }

  /** `c` is a faithful record of what the cycle computes for its camera:
      the camera's result passed the filter, the estimator solved it into
      `c.estimate`, and `c.stdDevs` is the uncertainty model's verdict on it. */
  ghost predicate IsContribution(c: Contribution, results: map<Camera, PipelineResult>, reference: Pose2,
                                 estimator: Estimator, layout: Layout, dist: Metric)
  {
    && c.cam in results
    && PassesFilter(results[c.cam])
    && estimator(c.cam, results[c.cam], reference) == Some(c.estimate)
    && c.stdDevs == EstimationStdDevs(c.cam, c.estimate, results[c.cam].targets, layout, dist)
  }

  /** Whether camera `c` contributes this tick. */
  ghost predicate Contributes(c: Camera, results: map<Camera, PipelineResult>, reference: Pose2, estimator: Estimator)
    requires c in results
  {
    PassesFilter(results[c]) && estimator(c, results[c], reference).Some?
  }

  /** The loop of `updatePoseEstimation`: visits the cameras in `order` and
      collects one contribution for each camera that passes the filter and
      that the estimator can solve. */
  function Gather(order: seq<Camera>, results: map<Camera, PipelineResult>, reference: Pose2,
                  estimator: Estimator, layout: Layout, dist: Metric): (cs: seq<Contribution>)
    requires forall c :: c in order ==> c in results
    ensures |cs| <= |order|
    ensures forall i :: 0 <= i < |cs| ==>
      cs[i].cam in order && IsContribution(cs[i], results, reference, estimator, layout, dist)
    ensures (forall i, j :: 0 <= i < j < |order| ==> order[i] != order[j]) ==>
      forall i, j :: 0 <= i < j < |cs| ==> cs[i].cam != cs[j].cam
  {
    if |order| == 0 then []
    else
      var here := Visit(order[0], results, reference, estimator, layout, dist);
      var rest := Gather(order[1..], results, reference, estimator, layout, dist);
      assert forall i :: 0 <= i < |rest| ==> (here + rest)[|here| + i] == rest[i];
      if forall i, j :: 0 <= i < j < |order| ==> order[i] != order[j] then
        assert forall i :: 0 <= i < |rest| ==> rest[i].cam != order[0] by {
          forall i | 0 <= i < |rest| ensures rest[i].cam != order[0] {
            var k :| 0 <= k < |order[1..]| && order[1..][k] == rest[i].cam;
            assert order[k + 1] == rest[i].cam;
          }
        }
        here + rest
      else here + rest
  }

  /** What the loop body does for one camera: a one-element list when the
      camera contributes, an empty one otherwise. */
  function Visit(cam: Camera, results: map<Camera, PipelineResult>, reference: Pose2,
                 estimator: Estimator, layout: Layout, dist: Metric): (cs: seq<Contribution>)
    requires cam in results
    ensures |cs| == 1 <==> Contributes(cam, results, reference, estimator)
    ensures |cs| <= 1
    ensures |cs| == 1 ==> cs[0].cam == cam && IsContribution(cs[0], results, reference, estimator, layout, dist)
  {
    var result := results[cam];
    if !PassesFilter(result) then []
    else match estimator(cam, result, reference)
      case None => []
      case Some(e) => [Contribution(cam, e, EstimationStdDevs(cam, e, result.targets, layout, dist))]
  }

  /** The cameras of a list of contributions, in order. */
  function CamsOf(cs: seq<Contribution>): (cams: seq<Camera>)
    ensures |cams| == |cs|
    ensures forall i :: 0 <= i < |cs| ==> cams[i] == cs[i].cam
  {
    if |cs| == 0 then [] else [cs[0].cam] + CamsOf(cs[1..])
  }

  lemma CamsOfCons(x: Contribution, rest: seq<Contribution>, c: Camera)
    ensures c in CamsOf([x] + rest) <==> c == x.cam || c in CamsOf(rest)
  {
    var cs := [x] + rest;
    assert cs[1..] == rest;
  }

  /** A camera appears among the contributions exactly when it is visited
      and contributes. */
  lemma {:induction false} GatherComplete(order: seq<Camera>, results: map<Camera, PipelineResult>, reference: Pose2,
                                          estimator: Estimator, layout: Layout, dist: Metric, c: Camera)
    requires forall c :: c in order ==> c in results
    ensures c in CamsOf(Gather(order, results, reference, estimator, layout, dist)) <==>
      c in order && Contributes(c, results, reference, estimator)
  {
    if |order| > 0 {
      GatherComplete(order[1..], results, reference, estimator, layout, dist, c);
      assert c in order <==> c == order[0] || c in order[1..];
      var rest := Gather(order[1..], results, reference, estimator, layout, dist);
      var here := Visit(order[0], results, reference, estimator, layout, dist);
      assert Gather(order, results, reference, estimator, layout, dist) == here + rest;
      if |here| == 1 {
        assert here + rest == [here[0]] + rest;
        CamsOfCons(here[0], rest, c);
      } else {
        assert here + rest == rest;
      }
    }
  }

  /** Contributions follow the visit order: the first one, whose timestamp
      and metadata the fused estimate copies, comes from the first camera in
      the order that contributes. */
  lemma {:induction false} GatherFirst(order: seq<Camera>, results: map<Camera, PipelineResult>, reference: Pose2,
                                       estimator: Estimator, layout: Layout, dist: Metric, k: nat)
    requires forall c :: c in order ==> c in results
    requires k < |order| && Contributes(order[k], results, reference, estimator)
    requires forall j :: 0 <= j < k ==> !Contributes(order[j], results, reference, estimator)
    ensures var cs := Gather(order, results, reference, estimator, layout, dist);
      |cs| > 0 && cs[0].cam == order[k]
  {
    var here := Visit(order[0], results, reference, estimator, layout, dist);
    var rest := Gather(order[1..], results, reference, estimator, layout, dist);
    assert Gather(order, results, reference, estimator, layout, dist) == here + rest;
    if k > 0 {
      assert |here| == 0;
      GatherFirst(order[1..], results, reference, estimator, layout, dist, k - 1);
    }
  }

  /** The order the cameras are visited in: each camera exactly once. The
      source iterates a hash map, so the order is unspecified. */
  ghost predicate IsVisitOrder(order: seq<Camera>) {
    && (forall c: Camera :: c in order)
    && (forall i, j :: 0 <= i < j < |order| ==> order[i] != order[j])
  }

  /** `updatePoseEstimation`. The held estimate is replaced by the fusion of
      this tick's contributions when at least one of them carries weight;
      otherwise it is kept (stale-hold). The cached results are unchanged.
      Where every contribution is a reject the source stores a NaN pose;
      see `AllRejectTickAsWritten`. */
  function UpdatePoseEstimation(s: VisionState, reference: Pose2, order: seq<Camera>,
                                estimator: Estimator, layout: Layout, dist: Metric): (r: VisionState)
    requires Valid(s) && IsVisitOrder(order)
    ensures Valid(r) && r.results == s.results
    ensures (forall c :: c in order ==> !Contributes(c, s.results, reference, estimator)) ==> r == s
    ensures var cs := Gather(order, s.results, reference, estimator, layout, dist);
      HasWeight(cs) ==> r.lastEstimate == Some(Combine(cs))
    ensures var cs := Gather(order, s.results, reference, estimator, layout, dist);
      !HasWeight(cs) ==> r.lastEstimate == s.lastEstimate
  {
    var cs := Gather(order, s.results, reference, estimator, layout, dist);
    if HasWeight(cs) then
      assert IsContribution(cs[0], s.results, reference, estimator, layout, dist);
      s.(lastEstimate := Some(Combine(cs)))
    else s
  }

  /** The estimate the rest of the robot reads (`getEstimatedGlobalPose`). */
  function EstimatedGlobalPose(s: VisionState): Option<Estimate> {
    s.lastEstimate
  }

  /** Wherever the tick's contributions carry weight, the model stores
      exactly the finite pose the source computes, and every contributing
      camera sits in the fusion with its own estimate and uncertainty. */
  lemma AgreesWithSourceWhenWeighted(s: VisionState, reference: Pose2, order: seq<Camera>,
                                     estimator: Estimator, layout: Layout, dist: Metric)
    requires Valid(s) && IsVisitOrder(order)
    requires HasWeight(Gather(order, s.results, reference, estimator, layout, dist))
    ensures var cs := Gather(order, s.results, reference, estimator, layout, dist);
      var e := UpdatePoseEstimation(s, reference, order, estimator, layout, dist).lastEstimate.value;
      CombineAsWritten(cs) == FusedAxes(Finite(e.pose.x), Finite(e.pose.y), Finite(e.pose.yaw))
  {
  }

  /** The source's behaviour on a tick where one camera sees one known tag
      more than 4 m away and no other camera contributes: the lone
      contribution is a reject, so `combineEstimates` divides 0 by 0 on every
      axis and stores a NaN pose, which the drive then forwards. The model
      keeps the previous estimate instead. */
  /** The tick of `AllRejectTickAsWritten`, up to the contributions: the
      left camera alone contributes, and its lone tag 5 m away is rejected. */
  lemma LoneRejectGathered(s: VisionState, e: Estimate, id: int, amb: real,
                           estimator: Estimator, layout: Layout, dist: Metric)
    requires Valid(s)
    requires s.results[LeftCam] == PipelineResult(1.0, [Target(id, amb)])
    requires !HasTargets(s.results[RightCam]) && !HasTargets(s.results[BackLeftCam])
    requires amb <= MaximumAmbiguity
    requires forall c, res, p :: estimator(c, res, p) == if c == LeftCam then Some(e) else None
    requires layout == map[id := Point2(5.0, 0.0)]
    requires forall p, q :: dist(p, q) == 5.0
    ensures Gather(Cameras, s.results, Pose2(0.0, 0.0, 0.0), estimator, layout, dist) == [Contribution(LeftCam, e, Reject)]
  {
    var ref := Pose2(0.0, 0.0, 0.0);
    var tag := Target(id, amb);
    assert KnownTargets([tag], layout) == [tag];
    FarSingleTagRejected(LeftCam, e, [tag], layout, dist, tag);
    assert Visit(LeftCam, s.results, ref, estimator, layout, dist) == [Contribution(LeftCam, e, Reject)];
    assert Visit(RightCam, s.results, ref, estimator, layout, dist) == [];
    assert Visit(BackLeftCam, s.results, ref, estimator, layout, dist) == [];
    assert Cameras[1..] == [RightCam, BackLeftCam] && Cameras[1..][1..] == [BackLeftCam];
    assert [BackLeftCam][1..] == [];
    assert Gather([BackLeftCam], s.results, ref, estimator, layout, dist) == [];
    assert Gather([RightCam, BackLeftCam], s.results, ref, estimator, layout, dist) == [];
  }

  /** The source's behaviour on a tick where one camera sees one known tag
      more than 4 m away and no other camera contributes: the lone
      contribution is a reject, so `combineEstimates` divides 0 by 0 on every
      axis and stores a NaN pose, which the drive then forwards. The model
      keeps the previous estimate instead. */
  lemma AllRejectTickAsWritten(s: VisionState, e: Estimate, id: int, amb: real)
    requires Valid(s)
    requires s.results[LeftCam] == PipelineResult(1.0, [Target(id, amb)])
    requires !HasTargets(s.results[RightCam]) && !HasTargets(s.results[BackLeftCam])
    requires amb <= MaximumAmbiguity
    ensures var order := Cameras;
      var estimator: Estimator := (c, res, p) => if c == LeftCam then Some(e) else None;
      var layout: Layout := map[id := Point2(5.0, 0.0)];
      var dist: Metric := (p, q) => 5.0;
      var cs := Gather(order, s.results, Pose2(0.0, 0.0, 0.0), estimator, layout, dist);
      && cs == [Contribution(LeftCam, e, Reject)]
      && CombineAsWritten(cs) == FusedAxes(NaN, NaN, NaN)
      && UpdatePoseEstimation(s, Pose2(0.0, 0.0, 0.0), order, estimator, layout, dist) == s
  {
    var estimator: Estimator := (c, res, p) => if c == LeftCam then Some(e) else None;
    var layout: Layout := map[id := Point2(5.0, 0.0)];
    var dist: Metric := (p, q) => 5.0;
    LoneRejectGathered(s, e, id, amb, estimator, layout, dist);
    var cs := Gather(Cameras, s.results, Pose2(0.0, 0.0, 0.0), estimator, layout, dist);
    assert cs[1..] == [];
    assert !HasWeight(cs);
  }
}

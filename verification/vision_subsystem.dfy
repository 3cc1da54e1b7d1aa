/** The vision subsystem in the robot loop. `SUB_Vision` owns the vision
    backend and is stepped by the scheduler before the drive subsystem,
    which it was registered before; the drive then calls it for the
    estimation cycle and reads the held estimate. The subsystem's own
    `periodic` is empty, so as written the backend's `updateInputs` is never
    called and no camera frame is ever drained. */
module VisionSubsystem {
  import opened Options
  import opened Geometry
  import opened CameraConstants
  import opened VisionTypes
  import opened ResultSelection
  import opened StdDevModel
  import opened Fusion
  import opened VisionReal
  import opened Swerve

  /** What one robot tick brings for vision: the frames each camera has
      buffered since it was last drained, and the drive's odometry pose. */
  datatype Tick = Tick(unread: Camera -> seq<PipelineResult>, odometry: Pose2)

  /** The robot loop as written: each tick the empty `SUB_Vision.periodic`,
      which leaves the buffered frames unread, then the drive's `periodic`.
      The result lists the measurement forwarded on each tick. */
  function RunAsWritten(s: VisionState, ticks: seq<Tick>, order: seq<Camera>,
                        estimator: Estimator, layout: Layout, dist: Metric): (sent: seq<Option<Measurement>>)
    requires Valid(s) && IsVisitOrder(order)
    ensures |sent| == |ticks|
    decreases |ticks|
  {
    if |ticks| == 0 then []
    else
      var t := DrivePeriodic(s, ticks[0].odometry, order, estimator, layout, dist);
      [t.measurement] + RunAsWritten(t.vision, ticks[1..], order, estimator, layout, dist)
  }

  /** The robot loop as evidently intended: the vision periodic drains the
      cameras and refreshes the telemetry (`io.updateInputs`), then the
      drive's `periodic` runs the estimation cycle on the fresh results. */
  function Run(s: VisionState, inputs: VisionInputs, ticks: seq<Tick>, order: seq<Camera>,
               estimator: Estimator, layout: Layout, dist: Metric): (sent: seq<Option<Measurement>>)
    requires Valid(s) && CoversCameras(inputs) && IsVisitOrder(order)
    ensures |sent| == |ticks|
    ensures |ticks| > 0 && s.lastEstimate.Some? ==> sent[0].Some?
    decreases |ticks|
  {
    if |ticks| == 0 then []
    else
      var step := UpdateInputs(s, ticks[0].unread, inputs);
      var t := DrivePeriodic(step.vision, ticks[0].odometry, order, estimator, layout, dist);
      [t.measurement] + Run(t.vision, step.inputs, ticks[1..], order, estimator, layout, dist)
  }

  /** From construction, every camera holds a result without targets, so no
      camera contributes and the estimation cycle leaves the state as it is. */
  lemma InitialIsQuiet(odometry: Pose2, order: seq<Camera>, estimator: Estimator, layout: Layout, dist: Metric)
    requires IsVisitOrder(order)
    ensures DrivePeriodic(Initial(), odometry, order, estimator, layout, dist) == SwerveTick(Initial(), None)
  {
    var s := Initial();
    forall c | c in order ensures !Contributes(c, s.results, odometry, estimator) {
      assert !HasTargets(s.results[c]);
    }
  }

  /** As written, the drive never receives a vision measurement: whatever
      frames the cameras deliver, on every tick from construction onwards
      nothing is forwarded. */
  lemma {:induction false} NeverForwardedAsWritten(ticks: seq<Tick>, order: seq<Camera>,
                                                  estimator: Estimator, layout: Layout, dist: Metric)
    requires IsVisitOrder(order)
    ensures forall i :: 0 <= i < |ticks| ==> RunAsWritten(Initial(), ticks, order, estimator, layout, dist)[i] == None
  {
    if |ticks| > 0 {
      InitialIsQuiet(ticks[0].odometry, order, estimator, layout, dist);
      NeverForwardedAsWritten(ticks[1..], order, estimator, layout, dist);
      var rest := RunAsWritten(Initial(), ticks[1..], order, estimator, layout, dist);
      assert RunAsWritten(Initial(), ticks, order, estimator, layout, dist) == [None] + rest;
    }
  }

  /** A camera's frames are usable on this tick: each one passes the
      ambiguity filter, the estimator solves it, and the uncertainty model
      does not reject the solution. */
  ghost predicate UsableFrames(c: Camera, tick: Tick, estimator: Estimator, layout: Layout, dist: Metric) {
    && |tick.unread(c)| > 0
    && forall f :: f in tick.unread(c) ==>
         && PassesFilter(f)
         && estimator(c, f, tick.odometry).Some?
         && EstimationStdDevs(c, estimator(c, f, tick.odometry).value, f.targets, layout, dist).Scaled?
  }

  /** A camera whose current result contributes an estimate the
      uncertainty model does not reject gives the fusion weight, so the
      drive's `periodic` forwards a measurement. */
  lemma WeightedContributorForwards(v: VisionState, odometry: Pose2, order: seq<Camera>,
                                    estimator: Estimator, layout: Layout, dist: Metric, c: Camera)
    requires Valid(v) && IsVisitOrder(order)
    requires Contributes(c, v.results, odometry, estimator)
    requires EstimationStdDevs(c, estimator(c, v.results[c], odometry).value, v.results[c].targets, layout, dist).Scaled?
    ensures DrivePeriodic(v, odometry, order, estimator, layout, dist).measurement.Some?
  {
    GatherComplete(order, v.results, odometry, estimator, layout, dist, c);
    var cs := Gather(order, v.results, odometry, estimator, layout, dist);
    var cams := CamsOf(cs);
    var i :| 0 <= i < |cams| && cams[i] == c;
    assert IsContribution(cs[i], v.results, odometry, estimator, layout, dist);
    HasWeightMeans(cs);
  }

  /** With the cameras drained, a tick on which some camera delivers usable
      frames forwards a measurement to the drive. */
  lemma FreshFrameForwarded(s: VisionState, inputs: VisionInputs, tick: Tick, order: seq<Camera>,
                            estimator: Estimator, layout: Layout, dist: Metric, c: Camera)
    requires Valid(s) && CoversCameras(inputs) && IsVisitOrder(order)
    requires UsableFrames(c, tick, estimator, layout, dist)
    ensures Run(s, inputs, [tick], order, estimator, layout, dist)[0].Some?
  {
    var step := UpdateInputs(s, tick.unread, inputs);
    var v := step.vision;
    assert v.results[c] in tick.unread(c);
    WeightedContributorForwards(v, tick.odometry, order, estimator, layout, dist, c);
    var t := DrivePeriodic(v, tick.odometry, order, estimator, layout, dist);
    assert Run(s, inputs, [tick], order, estimator, layout, dist)[0] == t.measurement;
  }

  /** The same first tick in both loops: a camera delivers usable frames;
      as written nothing reaches the drive, as intended a measurement does. */
  lemma UnreadFramesNeverReachOdometry(tick: Tick, inputs: VisionInputs, order: seq<Camera>,
                                       estimator: Estimator, layout: Layout, dist: Metric, c: Camera)
    requires CoversCameras(inputs) && IsVisitOrder(order)
    requires UsableFrames(c, tick, estimator, layout, dist)
    ensures RunAsWritten(Initial(), [tick], order, estimator, layout, dist)[0] == None
    ensures Run(Initial(), inputs, [tick], order, estimator, layout, dist)[0].Some?
  {
    NeverForwardedAsWritten([tick], order, estimator, layout, dist);
    FreshFrameForwarded(Initial(), inputs, tick, order, estimator, layout, dist, c);
  }
}

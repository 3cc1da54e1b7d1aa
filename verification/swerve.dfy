/** The drive subsystem's vision hand-off and its tag helpers: the per-tick
    `periodic` that runs the vision cycle and forwards the held estimate to
    odometry, alliance-dependent tag choice, tag distance and aim lookups,
    and the alliance-aware gyro reset. */
module Swerve {
  import opened Options
  import opened Geometry
  import opened CameraConstants
  import opened VisionTypes
  import opened Fusion
  import opened VisionReal

  datatype Alliance = Red | Blue

  /** A vision measurement handed to the odometry filter. */
  datatype Measurement = Measurement(pose: Pose2, timestampSeconds: real)

  datatype SwerveTick = SwerveTick(vision: VisionState, measurement: Option<Measurement>)

  /** `periodic`'s vision part: first run the estimation cycle with the
      odometry pose as reference, then forward the held estimate, if any, as
      a measurement. There is no freshness check. */
  function DrivePeriodic(v: VisionState, odometry: Pose2, order: seq<Camera>,
                         estimator: Estimator, layout: Layout, dist: Metric): (t: SwerveTick)
    requires Valid(v) && IsVisitOrder(order)
    ensures t.vision == UpdatePoseEstimation(v, odometry, order, estimator, layout, dist)
    ensures t.vision.lastEstimate.None? ==> t.measurement.None?
    ensures t.vision.lastEstimate.Some? ==>
      t.measurement == Some(Measurement(ToPose2d(t.vision.lastEstimate.value.pose),
                                        t.vision.lastEstimate.value.timestampSeconds))
  {
    var vision := UpdatePoseEstimation(v, odometry, order, estimator, layout, dist);
    var measurement := match EstimatedGlobalPose(vision)
      case None => None
      case Some(e) => Some(Measurement(ToPose2d(e.pose), e.timestampSeconds));
    SwerveTick(vision, measurement)
  }

  /** A tick in which no camera contributes forwards the held estimate
      again, with its old timestamp: the odometry filter receives the same
      measurement as on the tick that produced it. */
  lemma StaleEstimateReforwarded(v: VisionState, odometry: Pose2, order: seq<Camera>,
                                 estimator: Estimator, layout: Layout, dist: Metric)
    requires Valid(v) && IsVisitOrder(order)
    requires v.lastEstimate.Some?
    requires forall c :: c in order ==> !Contributes(c, v.results, odometry, estimator)
    ensures DrivePeriodic(v, odometry, order, estimator, layout, dist).measurement
      == Some(Measurement(ToPose2d(v.lastEstimate.value.pose), v.lastEstimate.value.timestampSeconds))
  {
  }

  /** The speaker tag of the driver-station alliance; reading an absent
      alliance throws. */
  function SpeakerTagId(alliance: Option<Alliance>): (r: Result<int>)
    ensures alliance == None ==> r == Thrown(NoSuchElement)
    ensures alliance == Some(Blue) ==> r == Ok(7)
    ensures alliance == Some(Red) ==> r == Ok(4)
  {
    match alliance
    case None => Thrown(NoSuchElement)
    case Some(a) => Ok(if a == Blue then 7 else 4)
  }

  /** The amp tag of the driver-station alliance; reading an absent alliance
      throws. */
  function AmpTagId(alliance: Option<Alliance>): (r: Result<int>)
    ensures alliance == None ==> r == Thrown(NoSuchElement)
    ensures alliance == Some(Blue) ==> r == Ok(6)
    ensures alliance == Some(Red) ==> r == Ok(5)
  {
    match alliance
    case None => Thrown(NoSuchElement)
    case Some(a) => Ok(if a == Blue then 6 else 5)
  }

  /** Each alliance aims at its own speaker and its own amp, and no tag is
      both a speaker and an amp. */
  lemma AllianceTagsDistinct(a: Alliance, b: Alliance)
    ensures a != b ==> SpeakerTagId(Some(a)) != SpeakerTagId(Some(b))
    ensures a != b ==> AmpTagId(Some(a)) != AmpTagId(Some(b))
    ensures SpeakerTagId(Some(a)).value != AmpTagId(Some(b)).value
  {
  }

  /** The field position of a chosen tag; `getTagPose(id).get()` throws when
      the layout does not know the id. */
  function TagPosition(layout: Layout, id: Result<int>): (r: Result<Point2>)
    ensures r.Ok? <==> id.Ok? && id.value in layout
    ensures r.Ok? ==> r.value == layout[id.value]
  {
    match id
    case Thrown(e) => Thrown(e)
    case Ok(i) => if i in layout then Ok(layout[i]) else Thrown(NoSuchElement)
  }

  function DistanceTo(tag: Result<Point2>, robot: Pose2, dist: Metric): (r: Result<real>)
    ensures r.Ok? <==> tag.Ok?
    ensures r.Ok? ==> r.value == dist(Translation(robot), tag.value)
  {
    match tag
    case Thrown(e) => Thrown(e)
    case Ok(p) => Ok(dist(Translation(robot), p))
  }

  function AimAt(tag: Result<Point2>, robot: Pose2, aim: (Point2, Pose2) -> real): (r: Result<real>)
    ensures r.Ok? <==> tag.Ok?
    ensures r.Ok? ==> r.value == aim(tag.value, robot)
  {
    match tag
    case Thrown(e) => Thrown(e)
    case Ok(p) => Ok(aim(p, robot))
  }

  /** `getDistanceToSpeaker`: succeeds exactly when an alliance is set and
      the layout knows that alliance's speaker tag. */
  function DistanceToSpeaker(alliance: Option<Alliance>, layout: Layout, robot: Pose2, dist: Metric): (r: Result<real>)
    ensures r.Ok? <==> alliance.Some? && SpeakerTagId(alliance).value in layout
    ensures r.Ok? ==> r.value == dist(Translation(robot), layout[SpeakerTagId(alliance).value])
  {
    DistanceTo(TagPosition(layout, SpeakerTagId(alliance)), robot, dist)
  }

  /** `getDistanceToAmp`, as for the speaker with the amp tag. */
  function DistanceToAmp(alliance: Option<Alliance>, layout: Layout, robot: Pose2, dist: Metric): (r: Result<real>)
    ensures r.Ok? <==> alliance.Some? && AmpTagId(alliance).value in layout
    ensures r.Ok? ==> r.value == dist(Translation(robot), layout[AmpTagId(alliance).value])
  {
    DistanceTo(TagPosition(layout, AmpTagId(alliance)), robot, dist)
  }

  /** `getSpeakerYaw`: the heading that faces the alliance's speaker tag,
      computed by the geometry library (`aim`). */
  function SpeakerYaw(alliance: Option<Alliance>, layout: Layout, robot: Pose2, aim: (Point2, Pose2) -> real): (r: Result<real>)
    ensures r.Ok? <==> alliance.Some? && SpeakerTagId(alliance).value in layout
    ensures r.Ok? ==> r.value == aim(layout[SpeakerTagId(alliance).value], robot)
  {
    AimAt(TagPosition(layout, SpeakerTagId(alliance)), robot, aim)
  }

  /** `getAmpYaw`: the heading that faces the alliance's amp tag. */
  function AmpYaw(alliance: Option<Alliance>, layout: Layout, robot: Pose2, aim: (Point2, Pose2) -> real): (r: Result<real>)
    ensures r.Ok? <==> alliance.Some? && AmpTagId(alliance).value in layout
    ensures r.Ok? ==> r.value == aim(layout[AmpTagId(alliance).value], robot)
  {
    AimAt(TagPosition(layout, AmpTagId(alliance)), robot, aim)
  }

  /** `getAprilTagYaw`: `None` (the source's `null`) exactly when the layout
      does not know the tag. */
  function AprilTagYaw(layout: Layout, tagId: int, robot: Pose2, aim: (Point2, Pose2) -> real): (r: Option<real>)
    ensures r.None? <==> tagId !in layout
    ensures r.Some? ==> r.value == aim(layout[tagId], robot)
  {
    if tagId !in layout then None else Some(aim(layout[tagId], robot))
  }

  /** `getDistanceToAprilTag`: −1 exactly when the layout does not know the
      tag, otherwise the (non-negative) distance to it. */
  function DistanceToAprilTag(layout: Layout, tagId: int, robot: Pose2, dist: Metric): (r: real)
    requires forall p, q :: dist(p, q) >= 0.0
    ensures r == -1.0 <==> tagId !in layout
    ensures tagId in layout ==> r >= 0.0 && r == dist(Translation(robot), layout[tagId])
  {
    if tagId !in layout then -1.0 else dist(Translation(robot), layout[tagId])
  }

  /** `isRedAlliance`: true only when an alliance is set and it is red. */
  function IsRedAlliance(alliance: Option<Alliance>): (red: bool)
    ensures red <==> alliance == Some(Red)
    ensures alliance == None ==> !red
  {
    match alliance
    case None => false
    case Some(a) => a == Red
  }

  /** A command the drive issues to its hardware layer. Headings are in
      degrees. */
  datatype DriveCommand = ZeroGyro | ResetOdometry(translation: Point2, headingDeg: real)

  /** `zeroGyroWithAlliance`, as the commands it issues. `pose` is the pose
      the drive reports once the gyro is zeroed. The gyro is always zeroed;
      on the red alliance odometry is then reset to the same spot facing
      180°. */
  function ZeroGyroWithAlliance(alliance: Option<Alliance>, pose: Pose2): (cmds: seq<DriveCommand>)
    ensures |cmds| >= 1 && cmds[0] == ZeroGyro
    ensures IsRedAlliance(alliance) ==> cmds == [ZeroGyro, ResetOdometry(Translation(pose), 180.0)]
    ensures !IsRedAlliance(alliance) ==> cmds == [ZeroGyro]
  {
    if IsRedAlliance(alliance) then [ZeroGyro, ResetOdometry(Translation(pose), 180.0)]
    else [ZeroGyro]
  }
}

/** The data the vision pipeline passes around: detected tags, per-camera
    pipeline results, the pose estimator's output, and the tag layout. */
module VisionTypes {
  import opened Options
  import opened Geometry
  import opened CameraConstants

  /** One detected AprilTag: its fiducial id and the ambiguity of its
      single-tag pose solve. */
  datatype Target = Target(fiducialId: int, poseAmbiguity: real)

  /** One camera frame's result. The camera driver orders `targets` best
      first, so the best target is element 0. */
  datatype PipelineResult = PipelineResult(timestampSeconds: real, targets: seq<Target>)

  /** The result a camera holds before its first frame arrives. */
  const EmptyResult: PipelineResult := PipelineResult(0.0, [])

  predicate HasTargets(r: PipelineResult) {
    |r.targets| > 0
  }

  function BestTarget(r: PipelineResult): Target
    requires HasTargets(r)
  {
    r.targets[0]
  }

  /** How the pose estimator solved a frame. */
  datatype Strategy = MultiTagPnpOnCoprocessor | LowestAmbiguity

  /** An estimated robot pose with the metadata the estimator attaches. */
  datatype Estimate = Estimate(
    pose: Pose3,
    timestampSeconds: real,
    targetsUsed: seq<Target>,
    strategy: Strategy)

  /** The field layout: tag id to the tag's planar field position. Ids not in
      the map are tags the layout does not know. */
  type Layout = map<int, Point2>

  /** The pose estimator of one camera, given that camera's frame and the
      current reference pose; `None` when it cannot solve the frame. */
  type Estimator = (Camera, PipelineResult, Pose2) -> Option<Estimate>
}

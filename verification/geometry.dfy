/** Planar and spatial poses over exact reals. Library geometry (square
    roots, rotations, transforms) is not modelled here; where the code needs
    it, the caller passes the library's answer in as a function. */
module Geometry {

  /** A field translation in metres. */
  datatype Point2 = Point2(x: real, y: real)

  /** A planar pose: translation in metres, heading in radians. */
  datatype Pose2 = Pose2(x: real, y: real, heading: real)

  /** A spatial pose: translation in metres, roll/pitch/yaw in radians. */
  datatype Pose3 = Pose3(x: real, y: real, z: real, roll: real, pitch: real, yaw: real)

  /** The planar distance between two points (the library's
      `Translation2d.getDistance`), supplied by the caller. */
  type Metric = (Point2, Point2) -> real

  function Translation(p: Pose2): Point2 {
    Point2(p.x, p.y)
  }

  /** `Pose3d.toPose2d`: drops height, roll and pitch; heading is the yaw. */
  function ToPose2d(p: Pose3): Pose2 {
    Pose2(p.x, p.y, p.yaw)
  }
}

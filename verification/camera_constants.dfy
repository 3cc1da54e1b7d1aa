/** The static camera table: names, robot-relative mounts and base
    standard-deviation vectors of the three cameras, and the single-tag
    ambiguity threshold. */
module CameraConstants {

  /** Largest pose ambiguity a single-tag result may have and still be used. */
  const MaximumAmbiguity: real := 0.25

  /** The cameras, in declaration (and `values()`) order. */
  datatype Camera = LeftCam | RightCam | BackLeftCam

  const Cameras: seq<Camera> := [LeftCam, RightCam, BackLeftCam]

  /** A mount translation in metres. */
  datatype Translation3 = Translation3(x: real, y: real, z: real)

  /** A mount rotation as roll, pitch and yaw in degrees (the source converts
      them to radians, which is a fixed linear scaling). */
  datatype Rotation3 = Rotation3(roll: real, pitch: real, yaw: real)

  /** A standard-deviation vector over the x, y and heading axes. */
  datatype Vec3 = Vec3(x: real, y: real, rot: real)

  datatype CameraConfig = CameraConfig(
    name: string,
    rotation: Rotation3,
    translation: Translation3,
    singleTagStdDevs: Vec3,
    multiTagStdDevs: Vec3)

  /** A camera's position on the robot, as listed in `CAMERA_POSITIONS`. */
  datatype Mount = Mount(translation: Translation3, rotation: Rotation3)

  /** `Units.inchesToMeters`. */
  function InchesToMeters(inches: real): real {
    inches * 0.0254
  }

  ghost predicate Positive(v: Vec3) {
    v.x > 0.0 && v.y > 0.0 && v.rot > 0.0
  }

  ghost predicate StrictlyBelow(a: Vec3, b: Vec3) {
    a.x < b.x && a.y < b.y && a.rot < b.rot
  }

  /** The configuration row of one camera. Every camera trusts a multi-tag
      solve more than a single-tag one, on every axis. */
  function Config(c: Camera): (r: CameraConfig)
    ensures Positive(r.singleTagStdDevs) && Positive(r.multiTagStdDevs)
    ensures StrictlyBelow(r.multiTagStdDevs, r.singleTagStdDevs)
  {
    match c
    case LeftCam =>
      CameraConfig("OV9281_01", Rotation3(0.0, -24.094, 30.0),
        Translation3(InchesToMeters(12.056), InchesToMeters(10.981), InchesToMeters(8.44)),
        Vec3(4.0, 4.0, 8.0), Vec3(0.5, 0.5, 1.0))
    case RightCam =>
      CameraConfig("OV9281_02", Rotation3(0.0, -24.094, -30.0),
        Translation3(InchesToMeters(12.056), InchesToMeters(-10.981), InchesToMeters(8.44)),
        Vec3(4.0, 4.0, 8.0), Vec3(0.5, 0.5, 1.0))
    case BackLeftCam =>
      CameraConfig("OV9281_03", Rotation3(0.0, -155.0, 0.0),
        Translation3(InchesToMeters(-11.25), InchesToMeters(9.0), InchesToMeters(20.5)),
        Vec3(4.0, 4.0, 8.0), Vec3(0.5, 0.5, 1.0))
  }

  /** `CAMERA_POSITIONS`: one mount per camera, in enum order. */
  function CameraPositions(): (r: seq<Mount>)
    ensures |r| == |Cameras|
    ensures forall i :: 0 <= i < |r| ==>
      r[i].translation == Config(Cameras[i]).translation
      && r[i].rotation == Config(Cameras[i]).rotation
  {
    [ Mount(Config(LeftCam).translation, Config(LeftCam).rotation),
      Mount(Config(RightCam).translation, Config(RightCam).rotation),
      Mount(Config(BackLeftCam).translation, Config(BackLeftCam).rotation) ]
  }

  /** The threshold is a probability-like score inside [0, 1]; there are
      exactly three cameras, each listed once, with these names. */
  lemma CameraTable()
    ensures 0.0 <= MaximumAmbiguity <= 1.0
    ensures |Cameras| == 3
    ensures forall c: Camera :: c in Cameras
    ensures forall i, j :: 0 <= i < j < |Cameras| ==> Cameras[i] != Cameras[j]
    ensures Config(LeftCam).name == "OV9281_01"
    ensures Config(RightCam).name == "OV9281_02"
    ensures Config(BackLeftCam).name == "OV9281_03"
    ensures forall c: Camera ::
      Config(c).singleTagStdDevs == Vec3(4.0, 4.0, 8.0)
      && Config(c).multiTagStdDevs == Vec3(0.5, 0.5, 1.0)
  {
    forall c: Camera ensures c in Cameras {
      match c
      case LeftCam => assert Cameras[0] == c;
      case RightCam => assert Cameras[1] == c;
      case BackLeftCam => assert Cameras[2] == c;
    }
  }

  /** The two front cameras are mirror images across the robot's centre
      line: same forward offset, height and pitch, opposite sideways offset
      and opposite yaw. */
  lemma SideCamerasMirror()
    ensures var l, r := Config(LeftCam), Config(RightCam);
      && l.translation.x == r.translation.x
      && l.translation.z == r.translation.z
      && l.translation.y == -r.translation.y
      && l.translation.y == InchesToMeters(10.981)
      && l.rotation.pitch == r.rotation.pitch
      && l.rotation.roll == r.rotation.roll
      && l.rotation.yaw == -r.rotation.yaw
      && l.rotation.yaw == 30.0
  {
  }
}

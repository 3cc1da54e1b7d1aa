# Vision pose fusion and superstructure state machine of a competition robot

This Dafny project models two sequential pieces of the robot's control code
and proves properties of them.

**Multi-camera vision pose fusion.** Three cameras each buffer frames of
detected AprilTags. The vision backend offers two steps. Its input step
drains the cameras: it keeps each camera's newest frame, and if no frame
arrived it keeps the previous one. Its estimation cycle, run on every tick,
does the following with the frames it holds:

- It drops single-tag frames whose pose ambiguity is above 0.25.
- It asks the pose estimator for a robot pose per camera.
- It gives each estimate per-axis standard deviations. These depend on how
  many known tags the frame saw and how far away they were.
- It fuses x, y and yaw by inverse-variance weighted averaging.
- It holds the fused estimate until a later tick replaces it.

The drive subsystem runs the estimation cycle every tick, through the vision
subsystem, and forwards the held estimate to its odometry. Nothing runs the
input step: the vision subsystem's own `periodic` is empty, so as shipped
the cameras are never drained and no estimate is ever formed (see
Findings). The drive also picks alliance-dependent tags,
looks up tag distances and aim headings, and resets the gyro by alliance.

**Superstructure state registry and coral-level stepping.** Mechanism
set-points are immutable `State` objects kept in a global name→state
registry. Creating a state under an existing name replaces that entry. The
superstructure holds the current state and pushes it to the elevator, intake
and LEDs. The coral elevator command steps between scoring levels L1 to L4,
and it recognises a level by *object identity*. The model therefore gives
every state object an identity (`id`), minted by the registry. The registry
also records every object it has minted, so within a valid robot an identity
fixes the object's fields.

Layout:

- `options.dfy`, `geometry.dfy`: optional values and exceptions, poses.
- `camera_constants.dfy`: the camera table and the ambiguity threshold.
- `vision_types.dfy`: targets, pipeline results, estimates, the tag layout.
- `result_selection.dfy`: newest-frame selection and the ambiguity filter.
- `stddev_model.dfy`: the uncertainty model.
- `fusion.dfy`: weighted fusion, plus the source's floating-point version of it.
- `vision_real.dfy`: the vision backend's state, telemetry and estimation cycle.
- `swerve.dfy`: the drive's vision hand-off and tag helpers.
- `vision_subsystem.dfy`: the vision subsystem in the robot loop, as written
  and as evidently intended.
- `superstructure_state.dfy`, `superstructure.dfy`, `elevator.dfy`,
  `elevator_coral.dfy`: the state machine.

Some things are calls into libraries or hardware. The model takes them in as
function parameters:

- the pose estimator (`Estimator`);
- planar distance (`Metric`);
- the heading that faces a tag (`aim`);
- the order in which a hash map visits the cameras (`order`);
- the pose the drive reports after zeroing its gyro.

Three behaviours of the code that are easy to misread:

- A camera with no new frames keeps and reuses its previous result. It does
  not produce an empty observation.
- Dropping a detection whose tag id the layout does not know leaves the
  *uncertainty model* unchanged (`StdDevModel.UnknownTagsIgnored`). It does
  not leave the fused output unchanged in every case. The ambiguity filter counts
  raw detections, so removing an unknown tag from a two-tag frame exposes
  the remaining tag to that filter. The estimator also sees the full frame.
- The fused estimate's timestamp and metadata come from the first
  contribution in the map's iteration order, which is unspecified. The
  fused pose itself does not depend on that order
  (`Fusion.FusionOrderIndependent`).

## Model

| member | source | states |
|---|---|---|
| CameraConstants.Config | src/main/java/frc/robot/constants/CameraConstants.java:22-45 | every camera's base standard deviations are strictly positive, and the multi-tag vector is strictly below the single-tag vector on every axis |
| CameraConstants.CameraPositions | src/main/java/frc/robot/constants/CameraConstants.java:67-71 | there is one mount per camera, and entry i carries exactly the translation and rotation of the i-th camera in enum order |
| CameraConstants.CameraTable | src/main/java/frc/robot/constants/CameraConstants.java:20-45 | the threshold is 0.25 and lies in [0, 1]; there are exactly three distinct cameras, named OV9281_01..03; all share bases (4, 4, 8) and (0.5, 0.5, 1) |
| CameraConstants.SideCamerasMirror | src/main/java/frc/robot/constants/CameraConstants.java:23-38 | the left and right cameras have the same forward offset, height, roll and pitch, with opposite sideways offset (±10.981 in) and opposite yaw (±30°) |
| ResultSelection.NewestIndex | src/main/java/frc/robot/vision/IO_VisionReal.java:81-85 | the chosen frame has the largest timestamp in the batch, and every earlier frame is strictly older, so it is the head of the stable newest-first sort |
| ResultSelection.NewestIsUnique | src/main/java/frc/robot/vision/IO_VisionReal.java:84 | the two ordering conditions identify one frame, so the selection is fully determined by the batch |
| ResultSelection.Drain | src/main/java/frc/robot/vision/IO_VisionReal.java:81-86 | an empty batch leaves the camera's previous result; a non-empty batch yields the head of the stable newest-first sort: a frame at least as new as all the others, and the first of the equally newest |
| ResultSelection.SortHeadDetermined | src/main/java/frc/robot/vision/IO_VisionReal.java:84-85 | a batch has only one sort head, so the frame a drain keeps is determined by the batch |
| ResultSelection.PassesFilter | src/main/java/frc/robot/vision/IO_VisionReal.java:146-156 | a result without targets is dropped; two or more targets always pass; a lone target passes exactly when its ambiguity is at most the threshold |
| ResultSelection.FilterExamples | src/main/java/frc/robot/vision/IO_VisionReal.java:150-156 | a lone tag at ambiguity 0.3 is dropped, one at exactly 0.25 is kept, and a two-tag frame passes at any ambiguity |
| StdDevModel.KnownTargets | src/main/java/frc/robot/vision/IO_VisionReal.java:202-206 | holds exactly the detections whose ids the layout knows, and no more of them than the frame has |
| StdDevModel.KnownTargetsCounts | src/main/java/frc/robot/vision/IO_VisionReal.java:202-207 | each detection with a known id occurs among the known detections exactly as often as in the frame, and one with an unknown id never occurs |
| StdDevModel.ResolveTags | src/main/java/frc/robot/vision/IO_VisionReal.java:199-214 | the tag count equals the number of known detections; with none the distance sum is 0; with non-negative distances the sum is non-negative; a lone known tag gives count 1 and its distance from the estimate, a lone unknown tag gives nothing |
| StdDevModel.ResolveTagsAppend | src/main/java/frc/robot/vision/IO_VisionReal.java:202-213 | the evidence of two runs of detections is the sum of their counts and the sum of their distance sums, so the distance sum adds one distance per known tag |
| StdDevModel.UnknownTagsIgnored | src/main/java/frc/robot/vision/IO_VisionReal.java:202-214 | the evidence from a frame equals the evidence from its known detections alone, so unknown ids contribute neither count nor distance |
| StdDevModel.RangeFactorGrows | src/main/java/frc/robot/vision/IO_VisionReal.java:230 | the range penalty 1 + d²/30 is 1 at zero range, never below 1, and grows with distance |
| StdDevModel.Scale | src/main/java/frc/robot/vision/IO_VisionReal.java:230 | scaling a positive base by a factor of at least 1 gives a usable vector no smaller than the base on any axis |
| StdDevModel.EstimationStdDevs | src/main/java/frc/robot/vision/IO_VisionReal.java:188-234 | the result is Reject exactly when one known tag averages over 4 m; with no known tag it is the single-tag base unscaled; otherwise it is the base for the tag count times 1 + avg²/30, so each axis is at least the base's |
| StdDevModel.FarSingleTagRejected | src/main/java/frc/robot/vision/IO_VisionReal.java:227-228 | a frame whose only known tag is more than 4 m away is rejected, whatever its ambiguity and whatever unknown tags sit beside it |
| Fusion.Weight | src/main/java/frc/robot/vision/IO_VisionReal.java:261-263 | a reject has weight 0 on every axis; any other standard deviation σ has weight 1/σ² on that axis, which is positive |
| Fusion.MassSign | src/main/java/frc/robot/vision/IO_VisionReal.java:270-277 | the total weight is never negative; it is positive exactly when some contribution is not a reject; with only rejects the weighted sum is 0 as well |
| Fusion.FusedAxis | src/main/java/frc/robot/vision/IO_VisionReal.java:275-277 | the fused value times the total weight equals the weighted sum, so it is the weighted mean |
| Fusion.Combine | src/main/java/frc/robot/vision/IO_VisionReal.java:245-287 | the fused pose has z, roll and pitch 0 and x, y and yaw at their weighted means; timestamp, targets and strategy come from the first contribution |
| Fusion.SingleContributor | src/main/java/frc/robot/vision/IO_VisionReal.java:256-280 | a single weighted contribution is reproduced exactly, on the floor and level |
| Fusion.MomentBounds | src/main/java/frc/robot/vision/IO_VisionReal.java:256-273 | if every weighted value lies in [lo, hi], the weighted sum lies between lo and hi times the total weight |
| Fusion.FusedWithinBounds | src/main/java/frc/robot/vision/IO_VisionReal.java:256-277 | each fused axis lies between the smallest and largest value among the contributions that carry weight |
| Fusion.RejectsCarryNoWeight | src/main/java/frc/robot/vision/IO_VisionReal.java:261-277 | fusing all contributions gives the same value on every axis as fusing only the non-reject ones |
| Fusion.FusionOrderIndependent | src/main/java/frc/robot/vision/IO_VisionReal.java:254-277 | any reordering of the contributions gives the same fused pose; only the copied metadata depends on iteration order |
| Fusion.TwoCameraExample | src/main/java/frc/robot/vision/IO_VisionReal.java:261-277 | cameras with standard deviations 1 and 2 reporting x = 0 and x = 10 fuse to x = 2 |
| Fusion.Quotient | src/main/java/frc/robot/vision/IO_VisionReal.java:275-277 | a double division with a zero divisor (and so a zero numerator) is NaN; otherwise it is the finite quotient |
| Fusion.CombineAsWritten | src/main/java/frc/robot/vision/IO_VisionReal.java:275-277 | as the source computes it: with a weighted contribution the axes are the finite weighted means, and with only rejects every axis is NaN |
| VisionReal.Initial | src/main/java/frc/robot/vision/IO_VisionReal.java:42-56 | after construction every camera holds a result without targets, and no estimate is held |
| VisionReal.DrainAll | src/main/java/frc/robot/vision/IO_VisionReal.java:77-87 | each camera independently keeps its old result on an empty batch, and otherwise takes the sort head of its batch: as new as any, and the first of the equally newest |
| VisionReal.TelemetryAll | src/main/java/frc/robot/vision/IO_VisionReal.java:89-131 | visible-tag lists are always empty and latency is untouched; target flag and best id are set only for cameras whose result has targets, and otherwise keep their old values |
| VisionReal.UpdateInputs | src/main/java/frc/robot/vision/IO_VisionReal.java:71-134 | results are drained per camera to the sort head of each non-empty batch and the held estimate is unchanged; with no new frames the vision state is unchanged; telemetry as above; the logged estimate is absent exactly when none is held |
| VisionReal.Visit | src/main/java/frc/robot/vision/IO_VisionReal.java:142-169 | a camera yields a contribution exactly when its result passes the filter and the estimator solves it, and the contribution records that estimate and its standard deviations |
| VisionReal.Gather | src/main/java/frc/robot/vision/IO_VisionReal.java:141-170 | every collected contribution comes from a visited camera that passed the filter, with the estimator's pose and the uncertainty model's verdict; when the visit order names each camera once, each camera contributes at most once |
| VisionReal.GatherFirst | src/main/java/frc/robot/vision/IO_VisionReal.java:141-170 | the first contribution is that of the first camera in visit order that contributes, which is the one whose timestamp and metadata the fused estimate copies |
| VisionReal.GatherComplete | src/main/java/frc/robot/vision/IO_VisionReal.java:141-170 | a camera is among the contributions exactly when it is visited and contributes |
| VisionReal.UpdatePoseEstimation | src/main/java/frc/robot/vision/IO_VisionReal.java:137-176 | cached results are unchanged; when no camera contributes the state is unchanged (stale-hold); the held estimate is replaced by the fusion exactly when a contribution carries weight (see Findings) |
| VisionReal.AgreesWithSourceWhenWeighted | src/main/java/frc/robot/vision/IO_VisionReal.java:172-175 | whenever some contribution carries weight, the stored estimate has exactly the finite x, y and yaw the source's floating-point fusion computes |
| VisionReal.AllRejectTickAsWritten | src/main/java/frc/robot/vision/IO_VisionReal.java:172-175 | one camera seeing one known tag 5 m away gives a lone reject contribution; the source fuses it to NaN on every axis, while the model keeps the previous state |
| Swerve.DrivePeriodic | src/main/java/frc/robot/swerve/SUB_Swerve.java:56-66 | the vision cycle runs first; a measurement is forwarded exactly when an estimate is then held, carrying its planar pose and timestamp |
| Swerve.StaleEstimateReforwarded | src/main/java/frc/robot/swerve/SUB_Swerve.java:62-66 | when an estimate is held and no camera contributes this tick, that same estimate is forwarded again with its old timestamp, so odometry receives a stale measurement once per tick |
| VisionSubsystem.RunAsWritten | src/main/java/frc/robot/vision/SUB_Vision.java:22-32 | the robot loop as written, one forwarded measurement or none per tick, with the vision subsystem's empty `periodic` before the drive's (see Findings) |
| VisionSubsystem.Run | src/main/java/frc/robot/vision/IO_VisionReal.java:71-87 | the robot loop with the cameras drained before the drive's `periodic`, one entry per tick; once an estimate is held, the next tick forwards a measurement |
| VisionSubsystem.InitialIsQuiet | src/main/java/frc/robot/vision/IO_VisionReal.java:42-56 | from construction no camera holds a target, so the drive's tick changes nothing and forwards nothing |
| VisionSubsystem.NeverForwardedAsWritten | src/main/java/frc/robot/vision/SUB_Vision.java:22-23 | as written, from construction, no tick ever forwards a vision measurement, whatever the cameras deliver |
| VisionSubsystem.WeightedContributorForwards | src/main/java/frc/robot/swerve/SUB_Swerve.java:56-66 | when some camera contributes an estimate that the uncertainty model does not reject, the drive's tick forwards a measurement |
| VisionSubsystem.FreshFrameForwarded | src/main/java/frc/robot/vision/IO_VisionReal.java:71-87 | with the cameras drained, a tick on which a camera delivers usable frames forwards a measurement |
| VisionSubsystem.UnreadFramesNeverReachOdometry | src/main/java/frc/robot/vision/SUB_Vision.java:22-23 | for the same first tick with usable frames, the loop as written forwards nothing while the drained loop forwards a measurement |
| Swerve.SpeakerTagId | src/main/java/frc/robot/swerve/SUB_Swerve.java:91 | the speaker tag is 7 on blue and 4 on red; with no alliance the read throws |
| Swerve.AmpTagId | src/main/java/frc/robot/swerve/SUB_Swerve.java:115 | the amp tag is 6 on blue and 5 on red; with no alliance the read throws |
| Swerve.AllianceTagsDistinct | src/main/java/frc/robot/swerve/SUB_Swerve.java:90-130 | the two alliances aim at different speaker tags and different amp tags, and no speaker tag is an amp tag |
| Swerve.TagPosition | src/main/java/frc/robot/swerve/SUB_Swerve.java:92 | a tag lookup succeeds exactly when the tag id was chosen and the layout knows it |
| Swerve.DistanceToSpeaker | src/main/java/frc/robot/swerve/SUB_Swerve.java:90-94 | succeeds exactly when an alliance is set and its speaker tag is known, with the robot-to-tag distance |
| Swerve.SpeakerYaw | src/main/java/frc/robot/swerve/SUB_Swerve.java:101-107 | succeeds exactly when an alliance is set and its speaker tag is known, with the heading that faces it |
| Swerve.DistanceToAmp | src/main/java/frc/robot/swerve/SUB_Swerve.java:114-118 | succeeds exactly when an alliance is set and its amp tag is known, with the robot-to-tag distance |
| Swerve.AmpYaw | src/main/java/frc/robot/swerve/SUB_Swerve.java:125-130 | succeeds exactly when an alliance is set and its amp tag is known, with the heading that faces it |
| Swerve.AprilTagYaw | src/main/java/frc/robot/swerve/SUB_Swerve.java:138-146 | absent (null) exactly when the layout does not know the tag; otherwise the heading that faces it |
| Swerve.DistanceToAprilTag | src/main/java/frc/robot/swerve/SUB_Swerve.java:154-161 | −1 exactly when the layout does not know the tag; otherwise the non-negative distance to it |
| Swerve.IsRedAlliance | src/main/java/frc/robot/swerve/SUB_Swerve.java:229-232 | true exactly when the alliance is present and red, so false with no alliance |
| Swerve.ZeroGyroWithAlliance | src/main/java/frc/robot/swerve/SUB_Swerve.java:220-227 | the gyro is always zeroed first; only on red is odometry then reset to the same translation facing 180° |
| SuperstructureState.SameObjectIsEqual | src/main/java/frc/robot/superstructure/SuperstructureState.java:70-74 | among objects the registry minted, reference equality and field equality coincide |
| SuperstructureState.CreateState | src/main/java/frc/robot/superstructure/SuperstructureState.java:70-74 | the new object has the given fields and a fresh identity unlike any earlier object, and is recorded as minted; earlier objects stay minted; its name now maps to it; every other name is unchanged; registry validity is kept |
| SuperstructureState.GetState | src/main/java/frc/robot/superstructure/SuperstructureState.java:76-78 | absent (null) exactly for a name never registered; a found state carries that name and is a minted object |
| SuperstructureState.GetAllStates | src/main/java/frc/robot/superstructure/SuperstructureState.java:80-82 | the returned map has exactly the registered names, each with the state `GetState` returns |
| SuperstructureState.Register | src/main/java/frc/robot/superstructure/SuperstructureState.java:53-68 | creating a list of distinct names in order leaves each listed state registered as itself, with the ids minted in order, and other names unchanged |
| SuperstructureState.InitialRegistry | src/main/java/frc/robot/superstructure/SuperstructureState.java:53-68 | after class initialisation all twelve predefined states are registered under their names and minted, and the registry is valid |
| SuperstructureState.PredefinedHeights | src/main/java/frc/robot/superstructure/SuperstructureState.java:53-61 | L1 0.5 < L2 0.8 < L3 1.4 < L4 2.415 m; IDLE is 0.1 m, 18°, speed 0 |
| Elevator.InitialElevator | src/main/java/frc/robot/elevator/SUB_Elevator.java:16 | the elevator starts with the IDLE object as its local state |
| Elevator.UpdateLocalState | src/main/java/frc/robot/elevator/SUB_Elevator.java:28-34 | after an update, the local state read back is the state passed in |
| Elevator.Periodic | src/main/java/frc/robot/elevator/SUB_Elevator.java:23-26 | a tick commands exactly the local state's height and leaves the subsystem unchanged |
| Elevator.TicksCommandLastUpdate | src/main/java/frc/robot/elevator/SUB_Elevator.java:23-30 | after an update, any number of ticks keeps the local state and commands the updated height |
| Superstructure.InitialSuperstructure | src/main/java/frc/robot/superstructure/SUB_Superstructure.java:17 | the current state and the local states of elevator, intake and LEDs all start as IDLE |
| Superstructure.InitialRobot | src/main/java/frc/robot/superstructure/SUB_Superstructure.java:17 | the initial registry and superstructure satisfy the identity invariant |
| Superstructure.UpdateSuperstructureState | src/main/java/frc/robot/superstructure/SUB_Superstructure.java:28-33 | the new state becomes current, and the same object becomes the local state of the elevator, intake and LEDs |
| Superstructure.CurrentIsLastUpdate | src/main/java/frc/robot/superstructure/SUB_Superstructure.java:28-45 | after a sequence of updates, the current state is the last one passed in, or IDLE if none, and the elevator holds the same object |
| Superstructure.GetCurrentStateWithNewWheelSpeed | src/main/java/frc/robot/superstructure/SUB_Superstructure.java:35-41 | returns a new object with the current name, height and angle and the given speed; the current state is kept; the registry entry for that name now holds an object that is not the current one; other names are unchanged |
| ElevatorCoral.Level | src/main/java/frc/robot/commands/coral/CMD_ElevatorCoral.java:30-44 | identity-based level recognition is 1 to 4 for the level objects and 0 for any other object |
| ElevatorCoral.NextLevel | src/main/java/frc/robot/commands/coral/CMD_ElevatorCoral.java:25-47 | the result is always one of L1..L4; up goes one level higher and wraps from L4 to L1; down goes one lower and stays at L1; any non-level object goes to L1 |
| ElevatorCoral.LevelsMinted | src/main/java/frc/robot/commands/coral/CMD_ElevatorCoral.java:30-44 | the four level objects the command compares against are objects of the robot's registry |
| ElevatorCoral.LevelIsPredefinedObject | src/main/java/frc/robot/commands/coral/CMD_ElevatorCoral.java:30-44 | for a minted object, being recognised as level k is being the predefined level-k state, fields included |
| ElevatorCoral.StepsUndo | src/main/java/frc/robot/commands/coral/CMD_ElevatorCoral.java:29-45 | up then down returns to the same level object from L1..L3, and down then up returns from L2..L4 |
| ElevatorCoral.StepsMoveElevator | src/main/java/frc/robot/commands/coral/CMD_ElevatorCoral.java:29-45 | stepping up from L1..L3 raises the commanded height, and stepping down from L2..L4 lowers it |
| ElevatorCoral.Initialize | src/main/java/frc/robot/commands/coral/CMD_ElevatorCoral.java:25-48 | one superstructure update to the next level; the registry is untouched and the identity invariant is kept |
| ElevatorCoral.ReMintedCopyFallsToL1 | src/main/java/frc/robot/commands/coral/CMD_ElevatorCoral.java:27-45 | a re-minted copy of the current state, made current, is not a level object, so stepping from it in either direction lands on L1 |

## Left out

- The simulated vision backend is left out. It duplicates newest-frame selection, and the robot builds the real backend.
- `VisionReal.EstimatedGlobalPose`, `Superstructure.GetCurrentSuperstructureState` and `Elevator.GetCurrentLocalState` carry no contract of their own. They are plain field reads, and the contracts of `Swerve.DrivePeriodic`, `Superstructure.UpdateSuperstructureState`, `Superstructure.CurrentIsLastUpdate` and `Elevator.UpdateLocalState` state what they return.
- The pose estimator is a parameter. This covers PhotonVision's `PhotonPoseEstimator.update`, its reference pose, and its multi-tag/lowest-ambiguity fallback. Only its optional output is modelled.
- Library geometry is left out: `Translation2d.getDistance`, `Pose3d.transformBy`, and the `Rotation2d` heading that faces a tag. Distance and aim are parameters, and no square roots are modelled.
- Camera mount angles stay in degrees. The source's conversion to radians is a fixed linear scaling, so it keeps the mirror relations.
- Floating point is not modelled except in two places. A reject has zero weight, and `Fusion.CombineAsWritten` covers 0/0. Timestamps compare as reals, so `Double.compare` ordering of NaN and −0.0 is not modelled.
- Yaw is fused as a plain weighted mean. The source makes no correction for wrap-around at ±180°.
- The persistent per-camera standard-deviation map is not modelled. Fusion reads it only for cameras rewritten in the same call, so each contribution carries its own vector instead.
- The empty-estimate branch of `updateEstimationStdDevs` is left out. It is unreachable, because the method is only called with a present estimate.
- `lastCurrentPose` and the per-camera list of tag and camera poses in `updateInputs` are left out. Both feed only a local list that is discarded.
- The latency telemetry fields are not modelled beyond being preserved, because `updateInputs` never writes them.
- The camera global-pose array in the drive's `periodic` is left out. It is computed and discarded. The drive's own `updateInputs` is a hardware call.
- Loading the field layout is left out. The vision backend uses the 2025 field and the drive uses the 2024 field. Each layout is a parameter.
- `State` getters and `toString` are not separate members. They are datatype fields, and `toString` is the `name` field.
- The intake subsystem is not part of this model. The intake and the LEDs are reduced to the local state the superstructure hands them.
- Command-scheduler plumbing is left out: `execute`, `end` and `addRequirements` have no behaviour here. `isFinished` is the constant `ElevatorCoral.IsFinished`, which always reports finished.
- VisionReal.UpdatePoseEstimation: on a tick where every contribution is a reject, the model keeps the previous estimate. The source stores a NaN pose instead (see Findings). On every other tick it overwrites exactly when the source does.
- Fusion.Combine: it requires a contribution that carries weight. With only rejects, the source's result is covered by `Fusion.CombineAsWritten`.
- Swerve.ZeroGyroWithAlliance: the pose read after zeroing the gyro is a parameter, because its value comes from the drive hardware layer.

## Findings

| source | as written | input that shows it | evidently intended | confidence | as-written member | corrected member |
|---|---|---|---|---|---|---|
| src/main/java/frc/robot/vision/IO_VisionReal.java:227-228 | a rejected camera gets `Double.MAX_VALUE` deviations, so its weight is 1/∞ = 0; if every contributing camera is rejected, `combineEstimates` divides 0 by 0 on every axis and stores, then forwards, a NaN pose | one camera sees one known tag 5 m from its estimate at ambiguity ≤ 0.25, and no other camera contributes | a rejected camera should add nothing, so a tick with only rejected cameras should keep the previous estimate | not executed; follows from IEEE 754 double arithmetic | Fusion.CombineAsWritten | VisionReal.UpdatePoseEstimation |
| src/main/java/frc/robot/vision/SUB_Vision.java:23 | the vision subsystem's `periodic` is empty, and only it could reach the backend's `updateInputs`; the backend's results stay the empty results of construction, so no camera ever contributes and the drive never receives a vision measurement | any run from construction in which a camera delivers frames that pass the filter, are solved and are not rejected | `periodic` calls `io.updateInputs`, so the frames are drained before the drive's estimation cycle | not executed; follows from the call graph, since the backend is reachable only through the subsystem's private field | VisionSubsystem.RunAsWritten | VisionSubsystem.Run |

`VisionReal.AllRejectTickAsWritten` exhibits the first input. `Fusion.CombineAsWritten` returns NaN on every axis for it, while `VisionReal.UpdatePoseEstimation` keeps the previous state. As shipped, this NaN is latent, because of the second finding: no frame is ever drained, so no camera ever contributes.

`VisionSubsystem.NeverForwardedAsWritten` shows the second finding for every run from construction. `VisionSubsystem.UnreadFramesNeverReachOdometry` compares both loops on the same first tick. `VisionSubsystem.FreshFrameForwarded` proves that the corrected loop forwards a measurement on such a tick.

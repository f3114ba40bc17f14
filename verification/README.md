# A verified model of the camera and robot nodes

A Dafny model of the stateful and arithmetic parts of a ROS workspace: the RealSense camera node
(inertial fusion, time base, point cloud, filters, sensor bookkeeping), the Orbbec camera node (frame
references, sensor table, coloured point cloud, stream life cycle), the hand-eye arithmetic of the
grasping script, and the two trajectory senders of the Hikrobot drivers.

Run `dafny verify dfyconfig.toml` to check all of it.

| module | what it is about |
|---|---|
| `Common` | an option type and two facts that several modules use |
| `ImuSpec` | what the two inertial merging methods output for a whole stream: as a fold over the stream (`Fused`, `Copied`) and, independently, sample by sample (`OnePass`) |
| `ImuFuser` | the incremental mergers with their retained history, proved against `ImuSpec` |
| `TimeBase` | ROS stamps from a hardware clock that may be reset |
| `ImuNode` | the hold-back publisher and the united IMU topic from camera frame to delivered message |
| `ImuSchedule` | the same topic with one Publish as the step: image frames begin and end between the messages of a batch |
| `RigidTransform` | the quaternion-to-matrix formula, camera to base, TCP to flange, over the reals |
| `FrameRefs` | reference counting of OpenNI frames |
| `SensorCache` | the device's fixed-size table of sensor descriptions |
| `StrideWalk` | the coloured cloud built by walking pointers through two image buffers |
| `PointCloud` | compaction of valid vertices and texel addressing |
| `Filters` | the post-processing pipeline built from a list of names |
| `SensorGroups` | profile selection, grouping by hardware module, switching modules on and off |
| `StreamLifecycle` | enabling, mode selection, starting and stopping of Orbbec streams |
| `Senders` | the lenient and the strict trajectory loop over an unreliable link |

Each module has the same two layers. Functions on values say what the code does to its state; lemmas
prove what that means over every input or every run. Classes and methods follow the code statement by
statement, and each method's `ensures` equates the state it leaves with the function. A loop of the
code that is long to reason about is a method of its own, called where the loop stands.

## What the model found

* Linear interpolation equals its one-pass definition on every stream: neither positive nor ordered
  times are needed (`FusedIsOnePass`, `FillImuDataLinearInterpolation`). Where two accelerometer samples
  around a gyro sample to be output carry the same time the code divides by zero: the acceleration is
  then `NonFinite`, there and nowhere else (`FiniteIff`, `OneTimeIsNotFinite`).
* `realsense-ros/README.md` (194-195) says that every gyro message gets an accelerometer reading. With
  linear interpolation that holds exactly when each gyro sample stands between two accelerometer samples
  and is no older than the first (`EveryGyroFusedIff`), so never when the stream ends with a gyro sample
  (`LastGyroIsMissed`); with the copy method exactly when each comes after an accelerometer sample
  (`EveryGyroCopiedIff`). The code is followed. `MethodsAgree` compares the two methods.
* A message that does not fit in the held-back queue makes `Publish` throw while the IMU callback holds
  a mutex it locked by hand. The model keeps this as `Stuck`, or `locked` for whole callbacks: `StuckRun`
  says over all runs exactly when, `FloodLocks` that it can happen at every limit, and `WithoutHoldBack`
  that a node that does not hold messages back never gets there.
* The calibration quaternion is of unit length only to one part in 10^15, so the camera-to-base map is
  rigid only to that relative error and not exactly (`CameraToBaseIsNearlyRigid`, `CalibrationIsNotUnit`).
* Assigning a `VideoFrameRef` to itself touches a freed frame exactly when it is the sole holder
  (`SetFrameBreaksIff`, `ApplyBalances`, `SelfAssignmentBreaks`).
* A depth image whose row step is not a multiple of the element size is walked at the wrong offsets
  below the first row, still inside the buffer (`WalkIsDirectIff`, `OddRowsAreMissed`,
  `PixelInBounds`); for every such shape some image comes out wrong (`OddStepsDiffer`).
* A texture coordinate of exactly one can address past the texture (`TexelInBoundsIff`, `CornerIsOutside`).
* `"point cloud"`, with a space, is recognised as a filter name but not by the switch that reads the raw
  list, so the assertion fails (`AssertionFailsIff`, `SpacedNameAsserts`).
* Toggling a stream off leaves it running (`ToggleOffDoesNotStop`, `ToggledOffStillRuns`). Toggling on a
  stream for which set-up stored no video mode aborts the node when someone subscribes to it, then or later
  (`ToggleOnAbortsIff`, `ToggleOnCanAbort`, `LaterSubscribeAborts`). Nothing else does (`ServedRun`), and
  some run does exactly if the choice of video modes disabled a stream that has a service (`CanAbortIff`).
* The lenient sender can report success with nothing delivered (`LenientSuccessCanBeEmpty`). Its success
  is complete exactly when no point was dropped, that is, when no second sending failed right after a
  reconnection (`LenientCompleteIff`, `DroppedIff`).

## Model

| member | source | states |
|---|---|---|
| `ImuSpec.FusedIsOnePass` | realsense-ros/realsense2_camera/src/base_realsense_node.cpp:1371-1414 | for every stream, the fold that pairs each closed interval with its gyro samples equals one look at every sample: a gyro sample is output exactly if it stands between two accelerometer samples, the first of them set and no later than it, interpolated between those two, in arrival order |
| `ImuSpec.FusedMember` | realsense-ros/realsense2_camera/src/base_realsense_node.cpp:1388-1410 | every output message comes from one gyro sample and the two accelerometer samples adjacent to it in arrival order: it carries that sample's time and reading, and the mean of the two accelerations weighted by its place between their times |
| `ImuSpec.DueIff` | realsense-ros/realsense2_camera/src/base_realsense_node.cpp:1388-1410 | a sample is output if and only if it is a gyro sample with an accelerometer sample next to it on either side, the first of positive time and no later than it |
| `ImuSpec.FusedInOrder` | realsense-ros/realsense2_camera/src/base_realsense_node.cpp:1371-1414 | message r of the output carries the time and the reading of the r-th sample that is due, and there are no others |
| `ImuSpec.CopiedInOrder` | realsense-ros/realsense2_camera/src/base_realsense_node.cpp:1416-1430 | message r of the copy method carries the time and the reading of the r-th gyro sample that has an accelerometer sample of nonnegative time before it, and the acceleration of the nearest one |
| `ImuSpec.FiniteIff` | realsense-ros/realsense2_camera/src/base_realsense_node.cpp:1395-1403 | every output acceleration is finite if and only if no gyro sample is output between two accelerometer samples of the same time, where the code divides by zero |
| `ImuSpec.OneTimeIsNotFinite` | realsense-ros/realsense2_camera/src/base_realsense_node.cpp:1395-1403 | accelerometer, gyro, accelerometer at one positive time: the gyro sample is output with no finite acceleration |
| `ImuSpec.CutAtAccel` | realsense-ros/realsense2_camera/src/base_realsense_node.cpp:1412 | the stream may be cut at any accelerometer sample: the output of the whole is the output up to and including it, then the output from it on; this is why the history may be dropped there |
| `ImuSpec.ShortIsSilent` | realsense-ros/realsense2_camera/src/base_realsense_node.cpp:1378-1379 | fewer than three samples never have anything to output, which is why an early return loses nothing |
| `ImuSpec.InterpolationBound` | realsense-ros/realsense2_camera/src/base_realsense_node.cpp:1395-1403 | on an ordered stream every finite output acceleration was made with a weight in [0, 1] and lies, component by component, between the two samples it was made from; stamp and angular velocity are the gyro sample's own |
| `ImuSpec.LerpBetween` | realsense-ros/realsense2_camera/src/base_realsense_node.cpp:1367-1369 | with a weight in [0, 1] the interpolated value lies between its end points |
| `ImuSpec.AffineIsExact` | realsense-ros/realsense2_camera/src/base_realsense_node.cpp:1367-1369 | if acceleration is an affine function of time, every finite output, hence every output unless one falls between two accelerometer samples of one time, is that function at the gyro's time |
| `ImuSpec.FusedSorted` | realsense-ros/realsense2_camera/src/base_realsense_node.cpp:1371-1414 | on an ordered stream the interpolated stamps never go back over the whole run and never pass the last accelerometer sample |
| `ImuSpec.CopiedSorted` | realsense-ros/realsense2_camera/src/base_realsense_node.cpp:1416-1430 | on an ordered stream the copied stamps never go back and never pass the last sample |
| `ImuSpec.Comparison` | realsense-ros/realsense2_camera/src/base_realsense_node.cpp:1371-1430 | interpolation never outputs more gyro readings than copying; counting those still waiting, the two are level if and only if no gyro sample was skipped, and then they carry the same readings in the same order |
| `ImuSpec.MethodsAgree` | realsense-ros/realsense2_camera/src/base_realsense_node.cpp:1371-1430 | at an accelerometer sample the two methods have output the same gyro readings if and only if no gyro sample was older than the accelerometer sample before it |
| `ImuSpec.InterpolationLags` | realsense-ros/realsense2_camera/src/base_realsense_node.cpp:1371-1430 | on ordered positive times the interpolated gyro readings are always a prefix of the copied ones, short by exactly the gyro samples since the last accelerometer sample |
| `ImuSpec.EveryGyroFusedIff` | realsense-ros/realsense2_camera/src/base_realsense_node.cpp:1371-1414 | with linear interpolation every gyro message gets an accelerometer reading if and only if each stands between two accelerometer samples, the first of them set and no later than it |
| `ImuSpec.LastGyroIsMissed` | realsense-ros/realsense2_camera/src/base_realsense_node.cpp:1384-1413 | a stream that ends with a gyro sample always misses that one |
| `ImuSpec.EveryGyroCopiedIff` | realsense-ros/realsense2_camera/src/base_realsense_node.cpp:1416-1430 | with the copy method every gyro message gets one if and only if each comes after an accelerometer sample whose time is not negative |
| `ImuFuser.NewlyFused` | realsense-ros/realsense2_camera/src/base_realsense_node.cpp:1371-1414 | what one more sample adds to the interpolated output of the stream so far |
| `ImuFuser.NewlyCopied` | realsense-ros/realsense2_camera/src/base_realsense_node.cpp:1416-1430 | what one more sample adds to the copied output of the stream so far |
| `ImuFuser.LinearFuser.Local` | realsense-ros/realsense2_camera/src/base_realsense_node.cpp:1373-1379 | what the next sample adds to the output of the whole stream is what the retained history and that sample alone have to output |
| `ImuFuser.LinearFuser.DrainGyros` | realsense-ros/realsense2_camera/src/base_realsense_node.cpp:1397-1404 | closing an interval appends the blend of each waiting gyro sample in order |
| `ImuFuser.LinearFuser.DrainHistory` | realsense-ros/realsense2_camera/src/base_realsense_node.cpp:1381-1411 | emptying the history outputs its one-pass fusion and remembers the last sample popped |
| `ImuFuser.LinearFuser.FillImuDataLinearInterpolation` | realsense-ros/realsense2_camera/src/base_realsense_node.cpp:1371-1414 | each call outputs exactly what its sample adds to the fusion of the entire stream, so nothing is lost or output twice although only a suffix is retained; after an accelerometer sample at most two samples are kept |
| `ImuFuser.CopyFuser.FillImuDataCopy` | realsense-ros/realsense2_camera/src/base_realsense_node.cpp:1416-1430 | each call outputs exactly what its sample adds to the copied output of the entire stream |
| `TimeBase.NeverBeforeBase` | realsense-ros/realsense2_camera/src/base_realsense_node.cpp:1802-1835 | for any mixture of clocks the camera base never passes the previous frame time, so no hardware stamp is before the ROS base it is counted from |
| `TimeBase.BetweenResets` | realsense-ros/realsense2_camera/src/base_realsense_node.cpp:1826-1829 | between two resets every stamp is one fixed ROS base plus camera time since one fixed camera base over 1000 |
| `TimeBase.NeverBackIff` | realsense-ros/realsense2_camera/src/base_realsense_node.cpp:1816-1835 | on the hardware clock stamps never go back if and only if ROS time has reached the last stamp at every reset |
| `TimeBase.StampStep` | realsense-ros/realsense2_camera/src/base_realsense_node.cpp:1818-1829 | at a reset the stamp is ROS time itself; otherwise it is no earlier than the last one |
| `TimeBase.SteadyStamps` | realsense-ros/realsense2_camera/src/base_realsense_node.cpp:1802-1829 | on a hardware clock whose times never go back every stamp is the ROS time of the first frame plus the camera time since it over 1000 |
| `TimeBase.SteadyStampIs` | realsense-ros/realsense2_camera/src/base_realsense_node.cpp:1826-1829 | the latest stamp of such a run, in numbers |
| `TimeBase.ResetIff` | realsense-ros/realsense2_camera/src/base_realsense_node.cpp:1820-1829 | a stamped hardware frame gets exactly its own arrival's ROS time if it is older than the one stamped before it, and is stamped from the same base as that one otherwise |
| `TimeBase.OtherClocks` | realsense-ros/realsense2_camera/src/base_realsense_node.cpp:1831-1834 | a frame of system or global time is stamped with its own time over 1000 and leaves the base alone |
| `TimeBase.Base.SetBaseTime` | realsense-ros/realsense2_camera/src/base_realsense_node.cpp:1802-1814 | takes the base from a hardware-clock frame and reports failure, changing nothing, for any other clock |
| `TimeBase.Base.Notice` | realsense-ros/realsense2_camera/src/base_realsense_node.cpp:1456-1460 | the first hardware-clock frame sets the base, and no later frame sets it again here |
| `TimeBase.Base.FrameSystemTimeSec` | realsense-ros/realsense2_camera/src/base_realsense_node.cpp:1816-1835 | rebases on a backward clock and returns the stamp of the resulting clock |
| `ImuNode.SentAll` | realsense-ros/realsense2_camera/src/base_realsense_node.cpp:1480-1488 | a batch is accepted whole if the publisher is not paused or it fits; otherwise exactly as many messages as fit are accepted, in order |
| `ImuNode.SyncedImuPublisher.Publish` | realsense-ros/realsense2_camera/src/base_realsense_node.cpp:31-48 | delivers at once, or queues while paused, or throws when the queue is at its limit, changing nothing |
| `ImuNode.SyncedImuPublisher.Pause` | realsense-ros/realsense2_camera/src/base_realsense_node.cpp:50-55 | holds back only if holding back is enabled |
| `ImuNode.SyncedImuPublisher.Resume` | realsense-ros/realsense2_camera/src/base_realsense_node.cpp:57-62 | delivers everything pending in order, leaves nothing pending and is no longer paused |
| `ImuNode.SyncedImuPublisher.PublishPendingMessages` | realsense-ros/realsense2_camera/src/base_realsense_node.cpp:64-74 | delivers the pending messages in order, each once |
| `ImuNode.SyncedImuPublisher.Destroy` | realsense-ros/realsense2_camera/src/base_realsense_node.cpp:26-29 | leaves nothing pending: everything accepted has been delivered |
| `ImuNode.ExpectedNumbers` | realsense-ros/realsense2_camera/src/base_realsense_node.cpp:1480-1488 | the numbers of the expected messages never decrease |
| `ImuNode.ExpectedReadings` | realsense-ros/realsense2_camera/src/base_realsense_node.cpp:1480-1488 | the expected messages have exactly the stamps, angular velocities and accelerations of the merging method's output, one for one |
| `ImuNode.ExpectedNumberIs` | realsense-ros/realsense2_camera/src/base_realsense_node.cpp:1462-1483 | each carries the number of the call whose sample it was output for |
| `ImuNode.LocksIff` | realsense-ros/realsense2_camera/src/base_realsense_node.cpp:1450-1490 | the callback is left locked exactly when, while paused, a nonempty batch does not fit beside what is held |
| `ImuNode.FloodLocks` | realsense-ros/realsense2_camera/src/base_realsense_node.cpp:31-39 | for every queue limit, a run that locks the callback: one image frame, one accelerometer sample, one gyro sample more than the limit |
| `ImuNode.Node.FillImuData` | realsense-ros/realsense2_camera/src/base_realsense_node.cpp:1470-1479 | the chosen merging method adds its new output for the sample |
| `ImuNode.Node.PublishAll` | realsense-ros/realsense2_camera/src/base_realsense_node.cpp:1480-1488 | the publishing loop numbers and publishes the batch, ending at the first exception |
| `ImuNode.Node.Merge` | realsense-ros/realsense2_camera/src/base_realsense_node.cpp:1464-1489 | stamps the sample, merges it and publishes the result with this call's number |
| `ImuNode.Node.ImuCallbackSync` | realsense-ros/realsense2_camera/src/base_realsense_node.cpp:1445-1491 | the callback as written takes the step of the state machine the run lemmas are about |
| `ImuNode.Node.FrameCallbackBegin` | realsense-ros/realsense2_camera/src/base_realsense_node.cpp:1631-1640 | an entering image frame pauses the publisher and reads the clock: the step of the state machine |
| `ImuNode.Node.FrameCallbackEnd` | realsense-ros/realsense2_camera/src/base_realsense_node.cpp:1777-1782 | a leaving image frame resumes the publisher, whether or not it threw |
| `ImuSchedule.QueueRun` | realsense-ros/realsense2_camera/src/base_realsense_node.cpp:31-62 | over every run of Publish, Pause and Resume, including after a throw: delivered followed by pending is the messages taken, in order; the number pending is read off the requests alone and never exceeds the limit; nothing is pending when not paused |
| `ImuSchedule.AfterKeepsSound` | realsense-ros/realsense2_camera/src/base_realsense_node.cpp:1480-1488 | each single Publish, Pause, Resume, clock reading, entry and exit keeps delivered, pending and the rest of the batch in hand equal to the messages expected |
| `ImuSchedule.EveryMove` | realsense-ros/realsense2_camera/src/base_realsense_node.cpp:1480-1488 | so it holds after every sequence of such moves, an image frame beginning or ending between two messages of one batch included |
| `ImuSchedule.StuckIff` | realsense-ros/realsense2_camera/src/base_realsense_node.cpp:1450-1490 | an exception leaves the callback with its mutex held exactly when it publishes to a full queue; then exactly the rest of its batch is lost |
| `ImuSchedule.SeenAre` | realsense-ros/realsense2_camera/src/base_realsense_node.cpp:1450-1468 | under the callback's mutex, the samples merged and the clock are functions of the moves alone |
| `ImuSchedule.EveryInterleaving` | realsense-ros/realsense2_camera/src/base_realsense_node.cpp:1445-1491 | for every interleaving the mutex allows, message by message: the delivered messages have the stamps, angular velocities and accelerations of the first messages of the one-pass output on the samples that arrived, and are all of it when not paused and no batch is outstanding; numbers never decrease |
| `ImuSchedule.DeliveredNumber` | realsense-ros/realsense2_camera/src/base_realsense_node.cpp:1462-1485 | every delivered message is numbered by the IMU frames that had entered when its sample was merged |
| `ImuSchedule.StampsNeverBack` | realsense-ros/realsense2_camera/src/base_realsense_node.cpp:1816-1835 | on a hardware clock that ROS time keeps up with at resets, delivered stamps never go back, whatever the interleaving |
| `ImuSchedule.StuckRun` | realsense-ros/realsense2_camera/src/base_realsense_node.cpp:36-39 | over every run the mutex allows, the callback is stuck if and only if some message was published while paused with as many waiting as the queue holds, counted from the moves alone |
| `ImuSchedule.WithoutHoldBack` | realsense-ros/realsense2_camera/src/base_realsense_node.cpp:50-55 | a node that does not hold messages back never gets stuck and never pauses; it has delivered the first messages of the output, and between batches all of them |
| `ImuSchedule.CallbackIsASequence` | realsense-ros/realsense2_camera/src/base_realsense_node.cpp:1445-1491 | the step the methods of the node are shown to take is a sequence of such moves: for a callback enter, publish each message, leave; for an image frame pause and read the clock, or resume |
| `ImuSchedule.EndToEnd` | realsense-ros/realsense2_camera/src/base_realsense_node.cpp:1445-1491 | hence, over every sequence of whole callbacks and of image frames entering and leaving: the delivered messages have the stamps and readings of the first messages of the one-pass output on the samples read off the events, and are all of it when neither locked nor paused; numbers never decrease; pending only while paused and within the limit |
| `ImuSchedule.DeliveredStamps` | realsense-ros/realsense2_camera/src/base_realsense_node.cpp:1816-1835 | and the delivered stamps never go back, on a hardware clock that ROS time keeps up with at resets |
| `RigidTransform.Rodrigues` | YOLOv8-Visual-Recognition/vi_grab/scripts/vision_grab_moveit.py:24-28 | for every quaternion the matrix sends p to p + 2w(v x p) + 2 v x (v x p) |
| `RigidTransform.RotationDefect` | YOLOv8-Visual-Recognition/vi_grab/scripts/vision_grab_moveit.py:24-28 | for every quaternion and point, ‖Mp‖^2 = ‖p‖^2 + 4(‖q‖^2 - 1)‖v x p‖^2 |
| `RigidTransform.LengthWitness` | YOLOv8-Visual-Recognition/vi_grab/scripts/vision_grab_moveit.py:24-28 | a quaternion that is not of unit length and has an axis changes some length, and a point is given |
| `RigidTransform.PreservesLengthsIff` | YOLOv8-Visual-Recognition/vi_grab/scripts/vision_grab_moveit.py:24-28 | the matrix preserves all lengths if and only if the quaternion has unit length or no axis |
| `RigidTransform.Gram` | YOLOv8-Visual-Recognition/vi_grab/scripts/vision_grab_moveit.py:24-28 | inner products change by 4(‖q‖^2 - 1)(v x a).(v x b) |
| `RigidTransform.DeterminantFormula` | YOLOv8-Visual-Recognition/vi_grab/scripts/vision_grab_moveit.py:24-28 | the determinant is 1 + 4(‖q‖^2 - 1)‖v‖^2 |
| `RigidTransform.UnitIsRotation` | YOLOv8-Visual-Recognition/vi_grab/scripts/vision_grab_moveit.py:24-28 | for a unit quaternion the matrix keeps inner products, is undone by its transpose and has determinant 1 |
| `RigidTransform.QuarterTurn` | YOLOv8-Visual-Recognition/vi_grab/scripts/vision_grab_moveit.py:24-28 | the sense of the rotation: a quarter turn about z takes x to y and y to minus x |
| `RigidTransform.DistanceDefect` | YOLOv8-Visual-Recognition/vi_grab/scripts/vision_grab_moveit.py:135-139 | squared distances change by exactly the rotation defect of the difference, and not at all for a unit quaternion |
| `RigidTransform.CameraBackFromBase` | YOLOv8-Visual-Recognition/vi_grab/scripts/vision_grab_moveit.py:135-139 | with a unit quaternion the conversion is undone by taking the translation away and turning back |
| `RigidTransform.OriginGoesToTranslation` | YOLOv8-Visual-Recognition/vi_grab/scripts/vision_grab_moveit.py:30-30 | the camera's origin goes to the translation, for the script's calibration to its three numbers |
| `RigidTransform.CameraAxes` | YOLOv8-Visual-Recognition/vi_grab/scripts/vision_grab_moveit.py:19-28 | where the calibrated camera's axes point, to four decimals |
| `RigidTransform.RelativeError` | YOLOv8-Visual-Recognition/vi_grab/scripts/vision_grab_moveit.py:135-139 | squared distances are off by at most 4 abs(‖q‖^2 - 1) ‖v‖^2 times themselves |
| `RigidTransform.CalibrationIsNearlyUnit` | YOLOv8-Visual-Recognition/vi_grab/scripts/vision_grab_moveit.py:19-22 | the calibration constants of the script are unit to one part in 10^15 |
| `RigidTransform.CalibrationIsNotUnit` | YOLOv8-Visual-Recognition/vi_grab/scripts/vision_grab_moveit.py:19-30 | the calibration quaternion is not of unit length, and a pair of points whose distance the conversion changes is given |
| `RigidTransform.CameraToBaseIsNearlyRigid` | YOLOv8-Visual-Recognition/vi_grab/scripts/vision_grab_moveit.py:135-139 | the script's own conversion keeps every squared distance to a relative error of at most one part in 10^15 |
| `RigidTransform.NearlyRigid` | YOLOv8-Visual-Recognition/vi_grab/scripts/vision_grab_moveit.py:135-139 | with a quaternion unit to a bound every squared distance is kept within that relative error |
| `RigidTransform.FlangeReachesTarget` | YOLOv8-Visual-Recognition/vi_grab/scripts/vision_grab_moveit.py:141-171 | flange plus rotated tool offset is the TCP target; the squared distance between them is the squared offset times 1 + 4(‖q‖^2 - 1)(x^2 + y^2), hence exactly the offset if and only if the orientation has unit length or turns about the tool axis only |
| `RigidTransform.FlangeIs` | YOLOv8-Visual-Recognition/vi_grab/scripts/vision_grab_moveit.py:155-166 | the flange position in numbers: the target less 0.27 along the flange's own z axis |
| `FrameRefs.HoldingUpdate` | ros_astra_camera/include/openni2/OpenNI.h:617-639 | changing what one reference holds moves it between the holders of two frames and touches no others |
| `FrameRefs.ReleaseBalances` | ros_astra_camera/include/openni2/OpenNI.h:607-614 | releasing keeps every count equal to the number of holders, even while one count is on its way to a reader |
| `FrameRefs.SetReferenceBalances` | ros_astra_camera/include/openni2/OpenNI.h:634-639 | a count handed out by the driver is taken over by the reference, and the books balance |
| `FrameRefs.SetFrameBreaksIff` | ros_astra_camera/include/openni2/OpenNI.h:617-624 | sharing a frame touches a freed frame if and only if the reference is already its only holder; otherwise the books balance |
| `FrameRefs.TwoHolders` | ros_astra_camera/include/openni2/OpenNI.h:461-465 | two references to one frame keep its count at two or more, so assigning one to the other is safe |
| `FrameRefs.ApplyBalances` | ros_astra_camera/include/openni2/OpenNI.h:433-465 | one operation touches a freed frame if and only if it assigns a sole holder to itself; otherwise every count is again the number of holders |
| `FrameRefs.HeldAfter` | ros_astra_camera/include/openni2/OpenNI.h:433-465 | who holds what after each operation: the reference it names holds what the operation says, and no other changes |
| `FrameRefs.CountAfter` | ros_astra_camera/include/openni2/OpenNI.h:433-465 | the count of each frame after each operation is the number of references that then hold it |
| `FrameRefs.SelfAssignmentBreaks` | ros_astra_camera/include/openni2/OpenNI.h:461-465 | the exception occurs: for any reference and frame, create, read, assign to itself touches a freed frame |
| `FrameRefs.Conservation` | ros_astra_camera/include/openni2/OpenNI.h:433-465 | over every run of create, copy, assign, release, destroy and read on any number of references, each count is the number of holders, a frame is freed exactly when no reference holds it, and no freed frame is touched |
| `FrameRefs.AnyRun` | ros_astra_camera/include/openni2/OpenNI.h:433-465 | over every run whatever, a freed frame has been touched if and only if some operation assigned a sole holder to itself; until then every count is the number of holders |
| `FrameRefs.VideoFrameRef.ReleaseFrame` | ros_astra_camera/include/openni2/OpenNI.h:607-614 | gives up the held frame, once, and holds nothing |
| `FrameRefs.VideoFrameRef.SetFrameReference` | ros_astra_camera/include/openni2/OpenNI.h:634-639 | releases the old frame, then takes over the new one without counting it |
| `FrameRefs.VideoFrameRef.SetSharedFrame` | ros_astra_camera/include/openni2/OpenNI.h:617-624 | releases the old frame first, then holds and counts the new one |
| `FrameRefs.VideoFrameRef.AssignFrom` | ros_astra_camera/include/openni2/OpenNI.h:461-465 | assignment leaves the reference holding what the other holds, by the operation the run lemma is about |
| `FrameRefs.CopyOf` | ros_astra_camera/include/openni2/OpenNI.h:451-454 | a copy is a new reference holding the frame the other holds, and counting it |
| `FrameRefs.VideoStream.ReadFrame` | ros_astra_camera/include/openni2/OpenNI.h:847-859 | an invalid stream changes nothing; otherwise the driver's answer replaces the old frame, which is released, and its status is returned |
| `FrameRefs.UncountedReadUnbalances` | ros_astra_camera/include/openni2/OpenNI.h:854-858 | a frame left in the pointer without a count for the reader, as by a driver call that failed, would put the books out of balance |
| `SensorCache.NeverFills` | ros_astra_camera/include/openni2/OpenNI.h:1376-1387 | a table of distinct kinds of sensor has at most three entries of its ten, so the full-table branch is never taken |
| `SensorCache.LookupAgrees` | ros_astra_camera/include/openni2/OpenNI.h:1373-1433 | every answer is the driver's own, whatever was asked before, and entries handed out earlier stay where they are |
| `SensorCache.LookupLists` | ros_astra_camera/include/openni2/OpenNI.h:1389-1398 | a lookup adds the kind asked for if the driver has it, and nothing else |
| `SensorCache.TableIsWhatWasAsked` | ros_astra_camera/include/openni2/OpenNI.h:1373-1433 | after any run of queries the table lists exactly the kinds asked for that the driver has, each once with the driver's description |
| `SensorCache.Device.ClearSensors` | ros_astra_camera/include/openni2/OpenNI.h:1677-1683 | empties every slot |
| `SensorCache.Device.Find` | ros_astra_camera/include/openni2/OpenNI.h:1376-1382 | the scan stops at the entry of that kind or at the end of the filled prefix |
| `SensorCache.Device.HasSensor` | ros_astra_camera/include/openni2/OpenNI.h:1373-1399 | answers true exactly when the driver has the sensor |
| `SensorCache.Device.GetSensorInfo` | ros_astra_camera/include/openni2/OpenNI.h:1408-1433 | returns a slot exactly when the driver has the sensor; the slot holds the driver's description, and no slot filled earlier changes |
| `StrideWalk.WalkIsDirectIff` | ros_astra_camera/src/point_cloud_proc/point_cloud_xyzrgb.cpp:248-261 | rows advanced in whole elements address the byte offsets of the image exactly in row 0 or when the row step is a multiple of the element size |
| `StrideWalk.OddRowsAreMissed` | ros_astra_camera/src/point_cloud_proc/point_cloud_xyzrgb.cpp:248-261 | rows of three bytes with elements of two: the second row is read one byte early |
| `StrideWalk.PixelInBounds` | ros_astra_camera/src/point_cloud_proc/point_cloud_xyzrgb.cpp:261-281 | for every pixel the depth element and all colour channels read lie inside their buffers |
| `StrideWalk.CloudAt` | ros_astra_camera/src/point_cloud_proc/point_cloud_xyzrgb.cpp:261-283 | in the finished cloud, pixel (v, u) is at v * width + u and is the point of the depth element and colour bytes the pointers address there |
| `StrideWalk.PixelColors` | ros_astra_camera/src/point_cloud_proc/point_cloud_xyzrgb.cpp:276-280 | in the finished cloud every pixel has the red, green and blue bytes of its own place in the colour image and is opaque |
| `StrideWalk.PixelCoordinates` | ros_astra_camera/src/point_cloud_proc/point_cloud_xyzrgb.cpp:264-274 | an invalid reading is NaN in all three coordinates; a valid one has its depth in metres as z, and x and y that project back to its own column and row |
| `StrideWalk.CloudIsOfImages` | ros_astra_camera/src/point_cloud_proc/point_cloud_xyzrgb.cpp:248-283 | the finished cloud is, pixel by pixel, the one the two images define at their own row steps: always in the first row, and in every row when the depth row step is a multiple of the element size |
| `StrideWalk.OddStepsDiffer` | ros_astra_camera/src/point_cloud_proc/point_cloud_xyzrgb.cpp:248-283 | conversely, for every shape with a second row whose step is not a multiple of the element size, some depth image of that shape comes out different |
| `StrideWalk.ReadPixel` | ros_astra_camera/src/point_cloud_proc/point_cloud_xyzrgb.cpp:264-280 | the point computed through the moving pointers is the point of pixel (v, u) |
| `StrideWalk.WalkRow` | ros_astra_camera/src/point_cloud_proc/point_cloud_xyzrgb.cpp:262-281 | one row of the walk appends that row of points and leaves the colour pointer past its last pixel |
| `StrideWalk.Convert` | ros_astra_camera/src/point_cloud_proc/point_cloud_xyzrgb.cpp:233-283 | the walk through the moving pointers writes the whole cloud, row after row, for every size, stride and channel layout |
| `StrideWalk.PreparedIsReady` | ros_astra_camera/src/point_cloud_proc/point_cloud_xyzrgb.cpp:112-193 | whatever the size and encoding of the colour image, the image handed on has the depth image's size and is read by the channel layout of its encoding; it is long enough for every read if and only if it is not the incoming image itself or that one is long enough |
| `StrideWalk.PreparedFrom` | ros_astra_camera/src/point_cloud_proc/point_cloud_xyzrgb.cpp:112-193 | which image is handed on: the incoming one, its RGB8 copy, the resized one or the RGB8 copy of that, by size and encoding |
| `PointCloud.PixelRange` | realsense-ros/realsense2_camera/src/base_realsense_node.cpp:2268-2271 | a valid texture coordinate addresses a column in 0..width and a row in 0..height, the last value only when it is exactly one |
| `PointCloud.TexelInBoundsIff` | realsense-ros/realsense2_camera/src/base_realsense_node.cpp:2258-2273 | the texel read is inside the texture if and only if v < 1 and either u < 1 or there is a further row; always so for u, v in [0, 1) |
| `PointCloud.CornerIsOutside` | realsense-ros/realsense2_camera/src/base_realsense_node.cpp:2258-2273 | for every texture the coordinate u = v = 1 is accepted as valid and addresses a texel outside it |
| `PointCloud.SelectedIsExact` | realsense-ros/realsense2_camera/src/base_realsense_node.cpp:2254-2279 | the published indices are increasing, each once, and exactly those of the vertices in front of the camera whose coordinate, if there is a texture, lies on it or need not; in ordered mode all |
| `PointCloud.OrderedKeepsIndex` | realsense-ros/realsense2_camera/src/base_realsense_node.cpp:2260 | in ordered mode every vertex is published at its own index |
| `PointCloud.ReverseMemcpy` | realsense-ros/realsense2_camera/src/base_realsense_node.cpp:2167-2174 | the target bytes are the source bytes reversed, and no other byte changes |
| `PointCloud.WritePoint` | realsense-ros/realsense2_camera/src/base_realsense_node.cpp:2262-2277 | one point to be kept: its position and, with a coordinate on the texture, its texel go to the next place, and nothing else changes |
| `PointCloud.TexelOf` | realsense-ros/realsense2_camera/src/base_realsense_node.cpp:2268-2273 | each colour byte is that of the texel the coordinate falls on, column by u and row by v, last byte first; without a valid coordinate it is what it was |
| `PointCloud.PublishTextured` | realsense-ros/realsense2_camera/src/base_realsense_node.cpp:2253-2279 | the buffer begins with the kept vertices in order; each colour field holds its texel reversed, or what it held before if the coordinate is invalid, a texel outside the texture being whatever lies there in memory; later colour bytes are unchanged; width is the number kept, or the camera's in ordered mode |
| `PointCloud.PublishUntextured` | realsense-ros/realsense2_camera/src/base_realsense_node.cpp:2291-2303 | the buffer begins with the vertices in front of the camera in order, all of them in ordered mode, and width counts them |
| `Filters.NoOffence` | realsense-ros/realsense2_camera/src/base_realsense_node.cpp:1193-1237 | the loop reaches the end if and only if every token is allowed, and otherwise stops at one that is not |
| `Filters.BuiltIff` | realsense-ros/realsense2_camera/src/base_realsense_node.cpp:1193-1237 | a pipeline is built if and only if every token is known or empty and the name pointcloud comes only with the point cloud enabled |
| `Filters.UnknownIff` | realsense-ros/realsense2_camera/src/base_realsense_node.cpp:1232-1236 | an unknown name is reported exactly when it is the first thing wrong with the list |
| `Filters.Names` | realsense-ros/realsense2_camera/src/base_realsense_node.cpp:1197-1232 | the names that are recognised, letter by letter |
| `Filters.OneCharacter` | realsense-ros/realsense2_camera/src/base_realsense_node.cpp:1195-1195 | the six characters that are removed as spaces |
| `Filters.SplitJoined` | realsense-ros/realsense2_camera/src/base_realsense_node.cpp:1187-1188 | a list written of pieces without commas is read as those pieces |
| `Filters.JoinedSplit` | realsense-ros/realsense2_camera/src/base_realsense_node.cpp:1187-1188 | the pieces of any list, joined by commas, are the list, and none contains a comma |
| `Filters.TokensOf` | realsense-ros/realsense2_camera/src/base_realsense_node.cpp:1187-1197 | each piece is read with its spaces removed |
| `Filters.ClosedForm` | realsense-ros/realsense2_camera/src/base_realsense_node.cpp:1238-1281 | the pipeline written out: decimation?, (sequence id, hdr merge)?, disparity start?, stages, disparity end?, align?, colorizer?, pointcloud? |
| `Filters.StageOf` | realsense-ros/realsense2_camera/src/base_realsense_node.cpp:1205-1219 | each token that names a stage adds that stage after those of the tokens before it, and no other token adds one |
| `Filters.PipelineDetermines` | realsense-ros/realsense2_camera/src/base_realsense_node.cpp:1238-1281 | the pipeline gives back the stages in their given order and whether each flag was set |
| `Filters.SamePipelineIff` | realsense-ros/realsense2_camera/src/base_realsense_node.cpp:1238-1281 | two lists give the same pipeline if and only if they name the same stages in the same order and set the same flags: place and repetition of flags never matter |
| `Filters.ScanTokens` | realsense-ros/realsense2_camera/src/base_realsense_node.cpp:1193-1237 | the loop collects the stages and flags of the tokens before the first one that is not allowed |
| `Filters.Assemble` | realsense-ros/realsense2_camera/src/base_realsense_node.cpp:1238-1281 | the insertions at both ends produce decimation?, (sequence id, hdr merge)?, disparity start?, stages, disparity end?, align?, colorizer?, pointcloud? |
| `Filters.SetupFilters` | realsense-ros/realsense2_camera/src/base_realsense_node.cpp:1185-1283 | for every string: the closed-form pipeline, or the first offending token's error |
| `Filters.UnspacedNeverAsserts` | realsense-ros/realsense2_camera/src/base_realsense_node.cpp:1224-1227 | if every piece recognised as pointcloud spells it without spaces the assertion cannot fail, because the switch has found the name in the raw list |
| `Filters.AssertionFailsIff` | realsense-ros/realsense2_camera/src/base_realsense_node.cpp:1224-1227 | the assertion fails if and only if the point cloud was not asked for, its name is not in the raw list, and the tokens reach one that is that name before any unknown one |
| `Filters.SpacedNameAsserts` | realsense-ros/realsense2_camera/src/base_realsense_node.cpp:1195-1227 | for the list "point cloud" it fails |
| `SensorGroups.ChosenProfile` | realsense-ros/realsense2_camera/src/base_realsense_node.cpp:1067-1108 | the profile chosen belongs to the stream and meets every nonzero request whenever some profile does, is otherwise a default, and is missing only when the stream has neither |
| `SensorGroups.ChosenAt` | realsense-ros/realsense2_camera/src/base_realsense_node.cpp:1067-1108 | the choice by position: the first profile of the stream that is as asked, or else its last default |
| `SensorGroups.ScanProfiles` | realsense-ros/realsense2_camera/src/base_realsense_node.cpp:1067-1108 | the loop finds the first match, else the last default |
| `SensorGroups.OneProfileEach` | realsense-ros/realsense2_camera/src/base_realsense_node.cpp:1058-1183 | each listed stream still enabled has exactly one profile, the chosen one; a stream is disabled exactly when there is nothing to choose |
| `SensorGroups.StreamTable.EnableDevices` | realsense-ros/realsense2_camera/src/base_realsense_node.cpp:1058-1183 | both loops, over image and motion streams, as one pass over the streams in order |
| `SensorGroups.GroupingConserves` | realsense-ros/realsense2_camera/src/base_realsense_node.cpp:1857-1866 | grouping by module neither loses nor duplicates a profile: each module has the multiset of all its streams' profiles |
| `SensorGroups.GroupedInFront` | realsense-ros/realsense2_camera/src/base_realsense_node.cpp:1862-1864 | within a module the profiles of the stream met last come first |
| `SensorGroups.Modules.GroupProfiles` | realsense-ros/realsense2_camera/src/base_realsense_node.cpp:179-188 | the grouping loop computes the grouping the conservation lemma is about |
| `SensorGroups.ChosenAreOpenedOnce` | realsense-ros/realsense2_camera/src/base_realsense_node.cpp:1857-1873 | from requests to hardware: opening every module once opens exactly one profile for each stream still enabled, the chosen one, in its sensor's module, and no other, in whatever order the tables are walked |
| `SensorGroups.Modules.OpenAndStart` | realsense-ros/realsense2_camera/src/base_realsense_node.cpp:194-195 | a module is opened with its profiles, then started; refused if it is open |
| `SensorGroups.Modules.StopAndClose` | realsense-ros/realsense2_camera/src/base_realsense_node.cpp:211-212 | a module is stopped, then closed; refused if it is not open |
| `SensorGroups.Modules.OpenAll` | realsense-ros/realsense2_camera/src/base_realsense_node.cpp:190-200 | the modules reached are opened and started exactly once, with their profiles: all of them unless one is open already |
| `SensorGroups.Modules.SwitchOn` | realsense-ros/realsense2_camera/src/base_realsense_node.cpp:1855-1878 | start-up and switching on open and start each module of an enabled stream once with all its profiles; a module already open is refused and ends the loop, and then exactly the modules reached before it have been opened |
| `SensorGroups.Modules.CloseAll` | realsense-ros/realsense2_camera/src/base_realsense_node.cpp:204-214 | the modules reached are stopped and closed exactly once, however many streams share them: all of them unless one is not open |
| `SensorGroups.Modules.SwitchOff` | realsense-ros/realsense2_camera/src/base_realsense_node.cpp:202-215 | switching off stops and closes exactly the modules that switching on opens, once each; a module that is not open ends the loop, and then exactly those before it have been closed |
| `SensorGroups.TogglesBalanced` | realsense-ros/realsense2_camera/src/base_realsense_node.cpp:173-216 | after start-up no module is opened or stopped twice if and only if the run of switches alternates starting with off; then all modules are streaming with all profiles, or none |
| `StreamLifecycle.ChoiceIsSupported` | ros_astra_camera/src/ob_camera_node.cpp:311-337 | the chosen mode is in the supported list with the requested size and format, is the requested mode exactly when that is supported, and is missing exactly when no mode has that size and format |
| `StreamLifecycle.LastOneIsChosen` | ros_astra_camera/src/ob_camera_node.cpp:317-332 | when the mode asked for is not supported the last one of its size and format is chosen |
| `StreamLifecycle.ScanModes` | ros_astra_camera/src/ob_camera_node.cpp:309-343 | the loop finds the requested mode, else the last one that differs only in rate |
| `StreamLifecycle.VideoModesAreSupported` | ros_astra_camera/src/ob_camera_node.cpp:283-351 | every stream left enabled has a stored mode from its supported list with the requested size and format |
| `StreamLifecycle.VideoModesEnable` | ros_astra_camera/src/ob_camera_node.cpp:283-351 | the choice of modes leaves a stream enabled exactly if it does not give way to colour and, unless it is UVC colour, the device has a mode of the size and format asked for |
| `StreamLifecycle.SetUpIsOrderly` | ros_astra_camera/src/ob_camera_node.cpp:178-228 | after set-up, whatever was asked for and whatever the device has: started is what runs, and every enabled stream of ours has an object and a stored mode |
| `StreamLifecycle.SetUpEnables` | ros_astra_camera/src/ob_camera_node.cpp:178-228 | set-up leaves enabled exactly the streams asked for that the device has, that do not give way to colour and that have a mode or are UVC colour |
| `StreamLifecycle.SetUpFailsIff` | ros_astra_camera/src/ob_camera_node.cpp:199-207 | set-up fails exactly if some such stream that is not UVC colour cannot be created |
| `StreamLifecycle.NextKeepsOrder` | ros_astra_camera/src/ob_camera_node.cpp:366-474 | every step except the toggle service keeps that |
| `StreamLifecycle.RunStaysOrderly` | ros_astra_camera/src/ob_camera_node.cpp:366-474 | so over every run of subscribe, unsubscribe, start, stop and reconfigure steps the node's belief equals the driver's truth, only enabled streams with an object run, and no internal check fails |
| `StreamLifecycle.StopEveryStops` | ros_astra_camera/src/ob_camera_node.cpp:468-474 | stopping all streams stops exactly the enabled ones |
| `StreamLifecycle.OrderlyStop` | ros_astra_camera/src/ob_camera_node.cpp:468-474 | on such runs nothing runs after stopping all streams |
| `StreamLifecycle.SubscribeStarts` | ros_astra_camera/src/ob_camera_node.cpp:578-589 | a subscription starts its stream exactly if that is possible, and no other |
| `StreamLifecycle.UnsubscribeStops` | ros_astra_camera/src/ob_camera_node.cpp:591-601 | the end of a subscription stops its stream exactly if nobody is left and the stream is enabled |
| `StreamLifecycle.StartAndStopOne` | ros_astra_camera/src/ob_camera_node.cpp:366-458 | a start starts its stream exactly if that is possible, a stop stops it exactly if it is enabled, and neither touches another |
| `StreamLifecycle.StartEveryStarts` | ros_astra_camera/src/ob_camera_node.cpp:460-466 | starting all streams starts exactly those that can be |
| `StreamLifecycle.ReconfigureRestarts` | ros_astra_camera/src/ob_camera_node.cpp:933-939 | after reconfiguring an orderly node exactly the streams run that stay enabled, are started here, have subscribers and can start |
| `StreamLifecycle.ToggleRestarts` | ros_astra_camera/src/ros_service.cpp:686-706 | after a toggle that does not abort, the disabled streams run on and exactly those of the others run that can be started |
| `StreamLifecycle.ToggleOffDoesNotStop` | ros_astra_camera/src/ros_service.cpp:686-706 | a stream toggled off runs afterwards if and only if it ran before |
| `StreamLifecycle.ToggledOffStillRuns` | ros_astra_camera/src/ros_service.cpp:698-704 | a run in which it does: set up with depth, subscribe, toggle off, still running |
| `StreamLifecycle.StartAllAborts` | ros_astra_camera/src/ob_camera_node.cpp:460-466 | starting all streams aborts if and only if some enabled, subscribed, unstarted stream has no stored mode |
| `StreamLifecycle.ToggleOnAbortsIff` | ros_astra_camera/src/ros_service.cpp:686-706 | in every state a run can reach, toggling a stream on aborts if and only if the node runs and that stream or another enabled one is ours, has subscribers and never got a mode; from a node not toggled before it can only be that stream |
| `StreamLifecycle.AbortsIff` | ros_astra_camera/src/ob_camera_node.cpp:366-474 | each step, the toggle service included, aborts exactly when it is one of the named fatal ones: starting a stream that has no stored mode, or choosing modes for an enabled stream that has no object; started remains what runs |
| `StreamLifecycle.PickAllAborts` | ros_astra_camera/src/ob_camera_node.cpp:290-298 | choosing modes fails exactly at an enabled stream without an object, and otherwise leaves every enabled stream with a mode |
| `StreamLifecycle.LaterSubscribeAborts` | ros_astra_camera/src/ob_camera_node.cpp:388-396 | after a stream of ours that never got a mode has been toggled on with nobody listening, the next subscription leaves the node aborted; from an orderly node it is the subscription that does |
| `StreamLifecycle.SetUpIsMade` | ros_astra_camera/src/ob_camera_node.cpp:547-558 | after set-up only streams with a toggle service and an image topic are enabled, every one of them that is not UVC has an object, and every stream with a mode is still enabled |
| `StreamLifecycle.ServedRun` | ros_astra_camera/src/ob_camera_node.cpp:366-474 | over every run from set-up in which the outside toggles and subscribes to streams that have a service, started is exactly what the driver runs, no object is lost, no reconfiguration aborts, and the node has aborted if and only if some step started a stream without a stored mode |
| `StreamLifecycle.CanAbortIff` | ros_astra_camera/src/ob_camera_node.cpp:283-351 | some such run aborts the node if and only if the choice of video modes at set-up disabled a stream that has a service and is started through this node |
| `StreamLifecycle.ToggleOnCanAbort` | ros_astra_camera/src/ros_service.cpp:698-704 | a set-up in which it does: infrared disabled for colour, then toggled on |
| `StreamLifecycle.ObCameraNode.SetupAllDevices` | ros_astra_camera/src/ob_camera_node.cpp:193-225 | the set-up loop as written, including the exception for a stream that cannot be created |
| `StreamLifecycle.ObCameraNode.SetupVideoModes` | ros_astra_camera/src/ob_camera_node.cpp:283-351 | setupVideoMode as written |
| `StreamLifecycle.ObCameraNode.SetupOneMode` | ros_astra_camera/src/ob_camera_node.cpp:292-349 | the body of its loop |
| `StreamLifecycle.ObCameraNode.StartOne` | ros_astra_camera/src/ob_camera_node.cpp:366-440 | startStream as written, guard by guard |
| `StreamLifecycle.ObCameraNode.StopOne` | ros_astra_camera/src/ob_camera_node.cpp:442-458 | stopStream as written |
| `StreamLifecycle.ObCameraNode.StartStreams` | ros_astra_camera/src/ob_camera_node.cpp:460-466 | the loop starts the enabled streams not yet started, in order |
| `StreamLifecycle.ObCameraNode.StopStreams` | ros_astra_camera/src/ob_camera_node.cpp:468-474 | the loop stops the started streams, in order |
| `StreamLifecycle.ObCameraNode.ImageSubscribedCallback` | ros_astra_camera/src/ob_camera_node.cpp:578-589 | the subscribe step |
| `StreamLifecycle.ObCameraNode.ImageUnsubscribedCallback` | ros_astra_camera/src/ob_camera_node.cpp:591-601 | the unsubscribe step: stops only when no subscriber is left |
| `StreamLifecycle.ObCameraNode.ReconfigureCallback` | ros_astra_camera/src/ob_camera_node.cpp:933-939 | stop, choose modes again, start, from any state, with every failing check on the way; an orderly node stays orderly |
| `StreamLifecycle.ObCameraNode.ToggleSensor` | ros_astra_camera/src/ros_service.cpp:686-706 | the toggle service as written |
| `Senders.AttemptsOutcome` | probot_driver/src/probot_driver/tcp_client.py:135-142 | reconnecting succeeds exactly if one of the next three attempts does, stops at the first that does, and leaves the link up exactly then |
| `Senders.LinkMoves` | probot_driver/src/probot_driver/tcp_client.py:28-95 | what connecting, disconnecting and sending do to a link, by the network's next outcome |
| `Senders.PointOutcome` | probot_driver/src/probot_driver/trajectory_handler.py:80-93 | a point is delivered exactly if sent at once, or if one of the next three connection attempts and then the operation after it succeed; the other side is unreachable exactly if it is not sent at once and none of the three succeeds |
| `Senders.NothingAtOnce` | probot_driver/src/probot_driver/trajectory_handler.py:45-51 | on a link that is down, and for an empty trajectory, either sender fails at once and touches nothing |
| `Senders.StoppedBefore` | probot_driver/src/probot_driver/trajectory_handler.py:63-66 | a run stopped by the time a point is reached fails, and neither that point nor a later one is sent |
| `Senders.PointConnects` | probot_driver/src/probot_driver/trajectory_handler.py:80-93 | one point costs at most three connection attempts, none if its first sending gets through |
| `Senders.StrictWithinLenient` | probot_hk_demo/src/probot_hk_demo/robot_controller.py:61-110 | for the same trajectory, interruptions and network, what the strict loop delivers is a prefix of what the lenient loop delivers; on strict success the two do exactly the same |
| `Senders.DeliveredInOrder` | probot_driver/src/probot_driver/trajectory_handler.py:62-93 | either loop delivers six-joint points only, in trajectory order, each at most once, for at most three connection attempts per six-joint point |
| `Senders.DeliveredIff` | probot_driver/src/probot_driver/trajectory_handler.py:62-93 | exactly those six-joint points are delivered that are reached without a stop, the link having come back after every point before (each delivered, for the strict sender), and that get through themselves |
| `Senders.StrictSuccessIff` | probot_hk_demo/src/probot_hk_demo/robot_controller.py:88-110 | strict success if and only if lenient success with every six-joint point delivered; and then the strict loop has delivered them all |
| `Senders.DroppedIff` | probot_driver/src/probot_driver/trajectory_handler.py:83-93 | a point is dropped exactly when it is not sent at once, one of the next three connection attempts succeeds, and the operation after the first that does fails |
| `Senders.LenientCompleteIff` | probot_driver/src/probot_driver/trajectory_handler.py:62-103 | lenient success if and only if never stopped and the link always came back; it is complete if and only if no point was dropped |
| `Senders.StrictSuccessByGuards` | probot_hk_demo/src/probot_hk_demo/robot_controller.py:61-110 | strict success if and only if never stopped, the link always came back and no point was dropped |
| `Senders.LenientSuccessCanBeEmpty` | probot_driver/src/probot_driver/trajectory_handler.py:90-103 | a run in which the lenient loop reports success and has delivered nothing |
| `Senders.LinkStaysValid` | probot_driver/src/probot_driver/tcp_client.py:28-95 | a link that counts as connected has a socket, after every run of either loop |
| `Senders.HkTcpClient.ConnectOnce` | probot_driver/src/probot_driver/tcp_client.py:28-44 | one attempt: connected exactly if it succeeds |
| `Senders.HkTcpClient.Close` | probot_driver/src/probot_driver/tcp_client.py:46-57 | drops the socket and the connection |
| `Senders.HkTcpClient.SendJointPositions` | probot_driver/src/probot_driver/tcp_client.py:59-95 | sends nothing when down or not given six positions; a failed send takes the link down; a successful one reaches the robot |
| `Senders.HkTcpClient.TryReconnect` | probot_driver/src/probot_driver/tcp_client.py:135-142 | the retry loop: at most three attempts, ending at the first success |
| `Senders.LenientHandler.StopExecution` | probot_driver/src/probot_driver/trajectory_handler.py:105-108 | a stopped handler is not executing |
| `Senders.LenientHandler.ExecuteTrajectory` | probot_driver/src/probot_driver/trajectory_handler.py:35-103 | the lenient loop as written: what the robot receives, the result and the link it leaves |
| `Senders.StrictHandler.StopExecution` | probot_hk_demo/src/probot_hk_demo/robot_controller.py:112-115 | a stopped handler is not executing |
| `Senders.StrictHandler.ExecuteTrajectory` | probot_hk_demo/src/probot_hk_demo/robot_controller.py:36-110 | the strict loop as written: what the robot receives, the result and the link it leaves |

## Left out

- Floating point: all arithmetic is over the reals; rounding, infinities and not-a-number appear only as
  `NonFinite` and `NaN`.
- Integer widths: sequence numbers, image sizes and offsets are unbounded.
- Threads: every mutex-protected method is one atomic step, and so are stamping and merging a frame, which
  the code does not protect from the clock readings of an image frame; preemption, condition variables, the
  detached thread of the first frame and the list of update functions it shares are not modelled.
- `ros::Time` refuses negative stamps; the model lets them through.
- ROS publishers, services, parameters, transforms, dynamic reconfiguration, logging and diagnostics: only
  what is handed to a publisher is kept, as a sequence.
- librealsense, OpenNI, libuvc, OpenCV and the Hikrobot controller: their answers are parameters (whether a
  stream can be created or started, the frame handed out by a read, the outcome of each network operation,
  the resized image).
- Order of `std::map` iteration: hardware modules are opened in an arbitrary order; a module is identified
  by its name.
- The byte layout of `PointCloud2` messages: positions and colours are separate buffers, and resizing the
  message is not modelled.
- Scaling of the camera intrinsics when the colour image is resized, and the cropped row range of that
  resize.
- The time waited between points and between connection attempts, the text format of joint positions,
  partial sends, and the acknowledgement arguments of the strict sender, which the TCP client does not
  accept.
- `assert` is taken to be enabled, and `throw;` outside a handler to end the construction of the pipeline.
- The methods of `VideoFrameRef` and `VideoStream` carry ghost sets naming the program's references and
  frames, for bookkeeping only; the destructor is the operation `Destroy`, which releases.
- The UVC colour driver, the gripper, motion planning, object detection, Modbus, calibration scripts, PLY
  writers and enum tables: foreign calls or finite tables.
- FrameRefs.VideoStream.ReadFrame: takes the pointer that `readFrame` leaves uninitialised when the driver
  fails without writing it to be null or a frame, because an unwritten pointer has no value here; what a
  stale frame would do is `UncountedReadUnbalances`.

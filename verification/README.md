# RobotArmPJ core in Dafny

This project models the deterministic core of the RobotArmPJ robot arm.

**Servo wire protocol, both ends.** The Raspberry Pi's `ArduinoCommunicator.send_command` validates a servo index and an angle. It then writes the 4-byte packet `[0xFF, index, angle, checksum]`. The firmware's `processRobotArmByte` decodes that stream one byte at a time. It checks the checksum and the ranges, drives the servo, and answers with one reply line per packet.

**Firmware servo controller.** `setAngle` applies the per-servo trim, clamps to 0..180, and converts the angle to a PWM pulse with Arduino `map`. It stores the angle as commanded, without the trim. `init`, `getAngle` and `disableAll` complete the controller.

**Real-time task state machine** (`RealTimeControlProcess`). Each iteration does two things:
- it polls the task queue once, with the `IDLE_HOLDING` filter;
- it runs the PICKUP, SEARCH, GRAB, LIFT, PLACE, STOP or IDLE routine.

Each iteration emits its servo sends in order. Camera, detector and IR results are a per-iteration `Percept`. The detector's `find_target_in_results` and the pixel-to-arm transform are modelled in their own modules.

**Inverse kinematics** (`KinematicsSolver.calculate_ik`) is modelled over `real`. `sqrt`, `atan2` and `acos` are parameters, and a predicate states the only facts about them the proofs use.

**Language-model reply parser** (`parse_llm_response`). The model cuts the reply from the first `{` to the last `}`, with an abstract JSON decoder, and keeps the `"command"` check.

**Setup tools**:
- the two copies of `apply_servo_constraints`;
- the IR raw-reading-to-cm rule, which appears in three files;
- the positive-only update of the shared IR value;
- the tooling `ArduinoCom` packet builders, reply checks, ready flag and `close`;
- the status that `api_move` reports.

Modules: `Wrappers` and `Num` (shared helpers), `ServoController`, `RobotArm`, `RobotArmStreams`, `PiLink`, `Wire` (both protocol ends together), `ArmConfig`, `Kinematics`, `Perception`, `Transform`, `Control`, `LlmParser`, `ServoConstraints`, `IrSensing`, `ToolingLink`.

## Model

| member | source | states |
|---|---|---|
| RobotArm.Judge | Arduino/src/arm/RobotArm.cpp:116-151 | A completed packet is accepted exactly when `(b0+b1+b2) & 0xFF` equals the fourth byte, the index is below SERVO_COUNT and the angle is at most 180. A checksum mismatch is reported exactly when the sums differ; range errors are reported only after a good checksum. |
| RobotArm.Step | Arduino/src/arm/RobotArm.cpp:71-155 | While waiting, a non-header byte leaves the decoder unchanged and the header byte starts a packet. The next two bytes are stored as index and angle unconditionally. The fourth byte returns the decoder to waiting with the verdict on the four bytes. A verdict is produced exactly on the fourth byte. |
| RobotArm.Reply | Arduino/src/arm/RobotArm.cpp:137-150 | Each verdict prints exactly its one line ("OK", "ERR: Invalid data range" or "ERR: Checksum mismatch"), and an incomplete packet prints nothing. |
| RobotArm.ProcessByte | Arduino/src/arm/RobotArm.cpp:118-154 | Only an accepted packet touches the servo controller; every other byte leaves the servo table unchanged and writes no PWM channel. |
| RobotArm.ArmInit | Arduino/src/arm/RobotArm.cpp:52-66 | After `robotArmInit` every servo holds INIT_ANGLES[i], channel i is written in order with the pulse of its trimmed, clamped initial angle, nothing is printed, and the decoder waits for a header. |
| RobotArm.InitFrom | Arduino/src/arm/RobotArm.cpp:58-62 | The initialisation loop from servo i sets servos i.. to their initial angles, leaves earlier ones alone, and writes one PWM entry per servo in channel order. |
| RobotArmStreams.NoiseIsIgnored | Arduino/src/arm/RobotArm.cpp:79-87 | A run of non-0xFF bytes fed to a waiting decoder changes nothing and emits nothing. |
| RobotArmStreams.ResyncAfterNoise | Arduino/src/arm/RobotArm.cpp:79-87 | Leading non-header noise does not change what a following stream does. |
| RobotArmStreams.FeedFour | Arduino/src/arm/RobotArm.cpp:71-165 | Feeding four bytes is four decoder steps in sequence, with the emitted lines and writes concatenated in order. |
| RobotArmStreams.OnePacketOneReply | Arduino/src/arm/RobotArm.cpp:110-155 | A packet starting with the header is consumed whole: the decoder waits again, there is exactly one reply line, "OK" exactly when checksum and ranges pass, "ERR: Checksum mismatch" exactly when the checksum fails, and a servo moves only on "OK" (and then as `setAngle(index, angle)`). |
| RobotArmStreams.HeaderByteInsidePacketIsData | Arduino/src/arm/RobotArm.cpp:92-96 | A 0xFF after the header is taken as the servo index; there is no resynchronisation mid-packet. |
| ServoController.AngleToPulse | Arduino/src/arm/ServoController.cpp:97-102 | For angles 0..180 the pulse lies in [MIN_PULSE, MAX_PULSE], with 0 mapped to MIN_PULSE and 180 to MAX_PULSE. |
| ServoController.AngleToPulseMonotone | Arduino/src/arm/ServoController.cpp:97-102 | A larger angle never gives a shorter pulse. |
| ServoController.AngleToPulseIsLinear | Arduino/src/arm/ServoController.cpp:97-102 | The integer `map` result is the exact linear interpolation rounded down, at most one driver step below it. |
| ServoController.Init | Arduino/src/arm/ServoController.cpp:24-35 | After `init` every stored angle is 90. |
| ServoController.SafeAngle | Arduino/src/arm/ServoController.cpp:49-56 | The driven angle is the commanded angle plus the servo's trim, clamped to 0..180. |
| ServoController.SetAngle | Arduino/src/arm/ServoController.cpp:41-67 | An index of SERVO_COUNT or more changes nothing and writes nothing. A valid index writes exactly one PWM entry on that channel, with the pulse of the trimmed, clamped angle. It stores the untrimmed angle and leaves every other servo's entry unchanged. |
| ServoController.GetAfterSet | Arduino/src/arm/ServoController.cpp:64-78 | Reading back after `setAngle(i, a)` on a valid i gives a; other servos read as before; an invalid index reads 0. |
| ServoController.DisableAll | Arduino/src/arm/ServoController.cpp:84-91 | `disableAll` writes pulse 0 to channels 0..SERVO_COUNT-1, in channel order. |
| PiLink.Checksum | raspberrypi/src/hardware/arduino_com.py:39-40 | The checksum is congruent to header + index + angle modulo 256, and equals the sum when the sum fits in a byte. |
| PiLink.SendCommand | raspberrypi/src/hardware/arduino_com.py:42-75 | A closed port returns False and writes nothing. Anything written is the four-byte packet whose first byte is the header and whose last is the checksum of the first three; its index and angle bytes equal the numbers passed in. The call returns True exactly when a packet was written and the write did not raise; no reply is read. |
| PiLink.LowByteUnchangedIff | raspberrypi/src/hardware/arduino_com.py:47-48 | `int(x) & 0xFF == x` holds exactly for the integers 0..255. |
| PiLink.SendValidation | raspberrypi/src/hardware/arduino_com.py:43-55 | A packet is written exactly when the port is open, the index is an integer in 0..5 and the angle an integer in 0..180; negative, fractional or too large values are refused. |
| PiLink.SendValidPacket | raspberrypi/src/hardware/arduino_com.py:57-71 | For a valid index and angle the written packet is exactly `[0xFF, index, angle, (0xFF+index+angle) & 0xFF]` and a clean write returns True. |
| Wire.RoundTrip | Arduino/src/arm/RobotArm.cpp:118-138 | The bytes the Pi writes for a valid (index, angle) make a waiting firmware reply "OK" exactly once, store the angle for that servo, and drive it with the trimmed, clamped pulse. |
| Wire.CorruptionDetected | Arduino/src/arm/RobotArm.cpp:118-151 | Changing the index, angle or checksum byte of a valid packet in transit is always caught: the reply is "ERR: Checksum mismatch", and no servo or PWM channel changes. |
| Wire.MismatchRejected | Arduino/src/arm/RobotArm.cpp:146-151 | A packet whose last byte is not the checksum of the first three is answered with the mismatch line and has no other effect. |
| ArmConfig.PosesAreServoAngles | raspberrypi/config.py:60-92 | The home and search poses have one legal servo angle per channel, and the six joint ids are exactly the channels 0..5. |
| Kinematics.ServoAngle | raspberrypi/src/processing/kinematics.py:95-99 | Every output angle is an integer in [0, 180]. |
| Kinematics.Solve | raspberrypi/src/processing/kinematics.py:65-99 | For a target that passed the reach tests, base, shoulder and elbow are integers in [0, 180]. |
| Kinematics.CalculateIk | raspberrypi/src/processing/kinematics.py:29-105 | A returned solution has all three angles in [0, 180]; every failure is None, never an exception. |
| Kinematics.MeasureLawful | raspberrypi/src/processing/kinematics.py:46-55 | With an exact square root, `d_squared` is the squared shoulder-to-target distance and `d` its non-negative root. |
| Kinematics.IkSucceedsIffReachable | raspberrypi/src/processing/kinematics.py:47-63 | The solver returns a solution exactly when the target lies in the shell Inner <= d <= Reach, both ends included, stated on squared distances, and no cosine-law quotient is 0/0. |
| Kinematics.RejectsIffUnreachable | raspberrypi/src/processing/kinematics.py:57-63 | The tests `d > l1+l2` and `d < abs(l1-l2)` on the root reject exactly the squared distances outside the shell. |
| Kinematics.ZeroDenominatorIsNaN | raspberrypi/src/processing/kinematics.py:67-69 | Whenever the reach tests pass but a cosine-law denominator is zero, the numerator is zero too, so the quotient is NaN, `int()` raises, and the result is None. |
| Kinematics.ElbowInRangeBeforeClip | raspberrypi/src/processing/kinematics.py:71-75 | With `acos` in [0, pi], the elbow `180 - degrees(acos(c))` is already in [0, 180] before the final clip. |
| Kinematics.BaseAngleRange | raspberrypi/src/processing/kinematics.py:41-42 | The base angle `degrees(atan2(y, x))` lies in [-180, 180], and the clip sends every negative value to 0. |
| Perception.FirstMatch | raspberrypi/src/core/real_time_control.py:102-108 | The class search returns the first class whose name equals the target ignoring ASCII case, and no class exactly when no name matches. |
| Perception.BestSoFar | raspberrypi/src/core/real_time_control.py:110-117 | The scan keeps the box of the class with the greatest confidence above 0.0, the earliest one on ties, and none when no box of the class has positive confidence. |
| Perception.Center | raspberrypi/src/core/real_time_control.py:115-117 | Each coordinate of the centre is the midpoint of the box's edges truncated toward zero: within one pixel of it, on the side nearer zero. |
| Perception.FindTarget | raspberrypi/src/core/real_time_control.py:97-118 | A missing target raises exactly when the class table is non-empty. A returned centre is that of the first-best box of the first matching class. None means no such box exists. |
| Perception.FirstMatchUnique | raspberrypi/src/core/real_time_control.py:104-107 | There is only one first matching class. |
| Perception.FirstBestUnique | raspberrypi/src/core/real_time_control.py:112-117 | There is only one kept box, so the returned centre is determined. |
| Perception.SameNameIgnoresCase | raspberrypi/src/core/real_time_control.py:105 | A name matches its own lower-cased form. |
| Transform.PixelToArm | raspberrypi/src/core/real_time_control.py:121-144 | The corrected transform puts the point at camera depth equal to the IR range, and maps the image centre onto the optical axis. |
| Transform.ReprojectRecoversPixel | raspberrypi/src/core/real_time_control.py:128-141 | Back-projecting a pixel at a non-zero range and projecting the result again gives back the same pixel. |
| Transform.PixelToArmAsWritten | raspberrypi/src/core/real_time_control.py:130 | As written, every call raises NameError. |
| Transform.AsWrittenNeverReturns | raspberrypi/src/core/real_time_control.py:129-130 | On no input does the written transform return the intended point. |
| Control.Initial | raspberrypi/src/core/real_time_control.py:29-33 | The loop starts in STOP with the sweep at the home base angle, moving upwards. |
| Control.Poll | raspberrypi/src/core/real_time_control.py:77-95 | At most one message is consumed. An empty queue changes nothing. In IDLE_HOLDING only PLACE is adopted and other messages are dropped. Otherwise the message becomes the current task and the sweep angle is reset. The sweep direction never changes here. |
| Control.Sweep | raspberrypi/src/core/real_time_control.py:161-168 | After a step the base angle lies in [45, 135]. Reaching the top turns the sweep downward and reaching the bottom turns it upward; in between the angle moves one step and the direction is kept. |
| Control.SearchSends | raspberrypi/src/core/real_time_control.py:170-185 | A search iteration sends the search pose to gripper, shoulder, elbow, wrist and wrist rotation, in that order, then `int(search_angle)` (rounded toward zero) to the base. Each channel gets exactly one send, and all are valid servo angles. |
| Control.HomeSends | raspberrypi/src/core/real_time_control.py:224-226 | The stop routine sends HOME_POSITION_ANGLES[i] to channel i for i = 0..5, in order. |
| Control.ApproachSends | raspberrypi/src/core/real_time_control.py:271-279 | An approach sends the three solved joints first (base, shoulder, elbow). It then sets the wrist level at 90, the wrist rotation home at 90 and the gripper open. Each channel gets exactly one send, and all are valid. |
| Control.Pickup | raspberrypi/src/core/real_time_control.py:245-293 | Without a target: STOP. A frame or range fault: no change and no sends. The target not seen: SEARCH with the same target. Solved and within the threshold: GRAB with the same target after six sends. An escaped exception leaves the state as it was, with nothing sent. Any sends are six and end with the gripper open. Nothing else changes the task, and the sweep is untouched. |
| Control.Search | raspberrypi/src/core/real_time_control.py:295-309 | Every SEARCH iteration sweeps and sends the search pose for the new sweep angle. It switches to PICKUP exactly when a good frame shows the target. It raises exactly when the frame is good, the target is missing and the class table is non-empty. |
| Control.Grab | raspberrypi/src/core/real_time_control.py:312-322 | GRAB closes the gripper with one send and moves to LIFT. |
| Control.Lift | raspberrypi/src/core/real_time_control.py:324-338 | LIFT sends home angles to shoulder, elbow and wrist, in that order, leaving base and gripper alone. It then moves to IDLE_HOLDING. |
| Control.Place | raspberrypi/src/core/real_time_control.py:187-218 | PLACE ends in STOP either way. It sends nothing exactly when the place target cannot be solved. Otherwise it sends six commands: the solved base, shoulder and elbow, the wrist home, the gripper closed, and finally the gripper open. |
| Control.Stop | raspberrypi/src/core/real_time_control.py:220-229 | STOP sends the home pose and moves to IDLE. |
| Control.Execute | raspberrypi/src/core/real_time_control.py:243-352 | Every send of an iteration is valid and the sweep invariant is kept. Only PICKUP and SEARCH can raise. IDLE, IDLE_HOLDING and unknown commands do nothing. |
| Control.Tick | raspberrypi/src/core/real_time_control.py:240-355 | One iteration consumes at most the head of the queue, emits only valid sends, and keeps the sweep invariant. |
| Control.Run | raspberrypi/src/core/real_time_control.py:239-361 | A run of iterations emits only sends that `send_command` accepts. |
| Control.CrashEndsAtHome | raspberrypi/src/core/real_time_control.py:357-361 | An exception that escapes the loop ends the run through the stop routine: the current task is IDLE and the last six sends are the home pose. |
| Control.RunKeepsSweep | raspberrypi/src/core/real_time_control.py:161-168 | Over any number of iterations the base angle stays in [45, 135] and the step stays +-0.5. |
| Control.RunConsumesQueue | raspberrypi/src/core/real_time_control.py:82-89 | Messages are taken from the front in order; what is left is a suffix of the queue. |
| Control.SendAccepted | raspberrypi/src/hardware/arduino_com.py:47-61 | Every send the controller makes passes the encoder's validation and goes out as a checksummed packet. |
| Control.StopPreempts | raspberrypi/src/core/real_time_control.py:87-95 | Outside IDLE_HOLDING a STOP message takes effect in the same iteration: home pose, IDLE, sweep angle reset. |
| Control.HoldingIgnores | raspberrypi/src/core/real_time_control.py:81-86 | While holding, a message other than PLACE is consumed with no other effect. |
| Control.HoldingAcceptsPlace | raspberrypi/src/core/real_time_control.py:81-86 | While holding, PLACE is adopted. With a lawful numeric library the arm then moves to the solved place pose with the wrist home and the gripper closed, then opens the gripper, and the task becomes STOP. |
| Control.PlaceReachable | raspberrypi/config.py:99 | The place target (15, 0, 5) is inside the reachable shell of the configured arm, so a lawful solver finds it. |
| Control.GrabLiftHold | raspberrypi/src/core/real_time_control.py:312-338 | GRAB then LIFT closes the gripper, raises shoulder, elbow and wrist, and ends holding the object. |
| Control.PickupWaitsOnFault | raspberrypi/src/core/real_time_control.py:252-255 | A bad frame or negative range skips the PICKUP iteration with nothing sent. |
| Control.PickupWithoutTargetStops | raspberrypi/src/core/real_time_control.py:246-249 | PICKUP without a target name goes to STOP, and the next iteration drives home and goes IDLE. |
| Control.PickupLosesTarget | raspberrypi/src/core/real_time_control.py:290-293 | A frame without the target turns PICKUP into SEARCH for the same target. |
| Control.PickupGrabs | raspberrypi/src/core/real_time_control.py:261-285 | A seen, solved target within the grab threshold sends the approach and switches to GRAB for the same target. |
| Control.PickupTransformRaises | raspberrypi/src/core/real_time_control.py:261-264 | A seen target whose back-projection raises ends the iteration with the exception, the state unchanged and nothing sent. |
| Control.PickupOutOfReachWaits | raspberrypi/src/core/real_time_control.py:267-289 | A seen target the solver cannot reach changes nothing and sends nothing. |
| Control.PickupApproaches | raspberrypi/src/core/real_time_control.py:261-285 | A seen, solved target beyond the grab threshold sends the approach and keeps the PICKUP task. |
| Control.SearchFinds | raspberrypi/src/core/real_time_control.py:307-309 | A SEARCH iteration that sees the target switches to PICKUP for the same target after the sweep sends. |
| Control.SearchSweeps | raspberrypi/src/core/real_time_control.py:295-309 | A SEARCH iteration with a bad frame, or without the target in view, only sweeps and sends the search pose. |
| Control.SweepClimbs | raspberrypi/src/core/real_time_control.py:162 | Away from the range ends, n steps move the base angle by n * 0.5. |
| Control.SweepBounces | raspberrypi/src/core/real_time_control.py:163-165 | At the top of the range the sweep turns around and the next step moves down. |
| Control.PickupCrashesAsWritten | raspberrypi/src/core/real_time_control.py:130 | With the transform as written, the first PICKUP iteration that sees its target raises and the loop ends at home. With the corrected transform the same iteration does not raise. |
| LlmParser.Find | raspberrypi/src/processing/llm_parser.py:19 | `find` gives the first position of the character, or -1 exactly when it is absent. |
| LlmParser.RFind | raspberrypi/src/processing/llm_parser.py:20 | `rfind` gives the last position of the character, or -1 exactly when it is absent. |
| LlmParser.Span | raspberrypi/src/processing/llm_parser.py:19-25 | No span exactly when `{` or `}` is missing or the last `}` comes before the first `{`; otherwise the span runs from the first `{` to the last `}`. |
| LlmParser.CleanText | raspberrypi/src/processing/llm_parser.py:27 | The decoded text is a substring of the reply that starts with `{` and ends with `}`. |
| LlmParser.HasCommand | raspberrypi/src/processing/llm_parser.py:32 | For an object the test is key membership; for a number, boolean or null it raises TypeError. |
| LlmParser.ParseLlmResponse | raspberrypi/src/processing/llm_parser.py:14-44 | A result always came from decoding the cut text and passes the `"command"` test. A reply without a brace pair gives None. Nothing escapes. |
| LlmParser.ObjectAcceptedIffCommand | raspberrypi/src/processing/llm_parser.py:29-36 | A well-formed object is returned exactly when it has a `"command"` key. |
| LlmParser.SurroundingTextIgnored | raspberrypi/src/processing/llm_parser.py:15-27 | Text before the first `{` and after the last `}` does not reach the decoder. |
| LlmParser.NoBracesNoDecode | raspberrypi/src/processing/llm_parser.py:22-25 | A reply missing `{` or `}` is refused without decoding. |
| ServoConstraints.Limits | setup_programs/test_integrated_sys/orchestrator_process.py:43-50 | Every joint range lies within [0, 180]. |
| ServoConstraints.ConstrainOne | setup_programs/test_integrated_sys/orchestrator_process.py:59-72 | One output is a servo angle inside the joint's range, or inside the range's mirror for a reversed joint. |
| ServoConstraints.Apply | setup_programs/test_integrated_sys/app.py:42-64 | One output per input, each in [0, 180], each the constrained value of its own joint. |
| ServoConstraints.UnconstrainRecoversClamp | setup_programs/test_integrated_sys/app.py:53-60 | Undoing the mirror gives back exactly the clamped request. |
| ServoConstraints.InRangeRoundTrip | setup_programs/test_integrated_sys/app.py:53-60 | A request inside every joint's range is recovered unchanged. |
| ServoConstraints.ClampIdempotent | setup_programs/test_integrated_sys/orchestrator_process.py:61-63 | Pre-clamping a request changes nothing. |
| ServoConstraints.OrchestratorMirrorsOnlyJointTwo | setup_programs/test_integrated_sys/orchestrator_process.py:33-40 | In the orchestrator tool only joint 2 is mirrored. |
| ServoConstraints.AppMirrors | setup_programs/test_integrated_sys/app.py:23-30 | In the web app joints 0, 2, 3 and 4 are mirrored; 1 and 5 pass the clamped value through. |
| ServoConstraints.AppJointZeroRange | setup_programs/test_integrated_sys/app.py:24-34 | The web app's joint 0 output lies in [0, 90]. |
| ServoConstraints.VariantsDiffer | setup_programs/test_integrated_sys/app.py:23-30 | The two copies differ exactly on joints 0, 3 and 4, where one output is the mirror of the other. |
| IrSensing.RawToDistance | setup_programs/test_irsensor_camera/real_time_gui.py:136-150 | The distance always lies in [10, 80]. Readings below 80 give 80 and readings above 550 give 10. An in-band value of the inverse model is returned unchanged. |
| IrSensing.DivisorAtLeast71 | setup_programs/test_integrated_sys/orchestrator_process.py:127-133 | In the model branch the divisor is at least 71, so the ZeroDivisionError fallback never runs. |
| IrSensing.RawToDistanceAntitone | setup_programs/test_integrated_sys/app.py:162-172 | A stronger reading never gives a larger distance. |
| IrSensing.BandEndsClip | setup_programs/test_integrated_sys/orchestrator_process.py:123-133 | The inverse model already lies beyond the band at both thresholds, so the rule has no jump there. |
| IrSensing.UpdateLastIr | setup_programs/test_irsensor_camera/real_time_gui.py:59-64 | The shared value is overwritten only by a reading above 0.0. |
| IrSensing.LastPositive | setup_programs/test_integrated_sys/app.py:110-115 | The last positive reading, or none exactly when no reading is positive. |
| IrSensing.LastIrIsLastPositive | setup_programs/test_integrated_sys/app.py:110-115 | After any run of readings the shared value is the last positive one, or the initial value if all timed out. |
| IrSensing.PositiveStaysPositive | setup_programs/test_irsensor_camera/real_time_gui.py:59-64 | Once positive, the shared value stays positive. |
| ToolingLink.Initial | setup_programs/test_integrated_sys/arduino_com.py:21-22 | A new link has no port and is not ready. |
| ToolingLink.Open | setup_programs/test_integrated_sys/arduino_com.py:24-79 | A ready link returns True at once. Otherwise it succeeds exactly when both opens work and a "Ready." line is seen, and then the link is ready with a port. A wait without "Ready." drops the port. Failure never leaves the link ready. |
| ToolingLink.SendServoCommand | setup_programs/test_integrated_sys/arduino_com.py:81-115 | Without a ready port: False and no write. An index outside 0..255 raises before the write. A written packet is `[0xFF, 0x01, index, clamp(angle)]`. Success holds exactly when the reply starts with "Executing: Servo {index}". |
| ToolingLink.SendMultiServoCommand | setup_programs/test_integrated_sys/arduino_com.py:118-159 | Without a ready port, or without exactly six angles: False and no write. Otherwise the 8-byte packet `[0xFF, 0x03, clamped a0..a5]` is written. Success holds exactly when the reply starts with "All servos set:". |
| ToolingLink.Close | setup_programs/test_integrated_sys/arduino_com.py:161-165 | With a port, `close` clears the ready flag and keeps the port object; without one nothing changes. |
| ToolingLink.ApiMove | setup_programs/test_integrated_sys/app.py:240-256 | NOT_READY exactly when the link is not ready, and then nothing is written. SUCCESS exactly when it is ready and the send succeeded, COMM_FAIL otherwise. A ready link sends the web-app-constrained angles through the six-servo command. |
| ToolingLink.ApiMoveSucceeds | setup_programs/test_integrated_sys/app.py:240-256 | A ready link given six angles and the six-servo acknowledgement reports SUCCESS. |
| ToolingLink.ApiMoveRejectsWrongCount | setup_programs/test_integrated_sys/app.py:240-256 | A ready link given a list that is not six angles writes nothing and reports COMM_FAIL. |
| ToolingLink.ConstrainedAnglesPassClamp | setup_programs/test_integrated_sys/arduino_com.py:131-132 | Constrained angles pass the sender's clamp unchanged. |
| ToolingLink.DefaultMoveIsMidPose | setup_programs/test_integrated_sys/app.py:242-251 | A move without angles sends `[0xFF, 0x03, 90, 90, 90, 90, 90, 90]`. |
| ToolingLink.MultiNeedsSixAngles | setup_programs/test_integrated_sys/arduino_com.py:127-129 | A list not of length six is refused without a write. |
| ToolingLink.SingleSendNeedsReady | setup_programs/test_irsensor_camera/arduino_com.py:80-82 | Nothing is written until the handshake has seen "Ready.". |
| ToolingLink.ClosedLinkRefuses | setup_programs/test_irsensor_camera/arduino_com.py:114-117 | After `close` every send is refused. |
| ToolingLink.SingleSendPacket | setup_programs/test_irsensor_camera/arduino_com.py:85-93 | Out-of-range angles are pinned to 0 or 180 in the packet. |
| ToolingLink.ReplyPrefixAcceptsOtherServo | setup_programs/test_irsensor_camera/arduino_com.py:103 | The prefix test lets the reply for servo 10 pass as the reply for servo 1. |
| ToolingLink.FailedOpenDropsPort | setup_programs/test_irsensor_camera/arduino_com.py:63-67 | A handshake without "Ready." leaves no port and returns False. |
| ToolingLink.OpenWhenReady | setup_programs/test_irsensor_camera/arduino_com.py:26-27 | Opening a ready link is a no-op that returns True. |

## Left out

- Serial, camera, IR, I2C and PWM drivers: reading a port, a frame or a range and writing a pulse are inputs or outputs of the model, not simulated.
- YOLO inference: a frame's detections arrive as `Perception.Detections`. The class table is a sequence indexed by class id, and the boxes of all results are flattened in order.
- Timing: every `time.sleep`, the 15 s ready timeout, FPS printing and the loop's wall clock are left out. The ready wait is reduced to the lines read before the timeout.
- Processes and threads: the task queue is a sequence with one poll per iteration. The shared IR value and its lock are a plain value updated reading by reading. Tasks in the queue are never `None`, because the orchestrator enqueues only valid tasks.
- The Flask routes, HTML templates, MJPEG streaming and drawing in the setup tools; `audio.py`; the orchestrator's network calls; `main.py`; `get_finetune_seed_images.py`; the servo test CLI.
- `CommandParser.cpp` is commented out in the repository and is not modelled.
- There is no round trip between the setup tools' `[0xFF, 0x01, ...]` / `[0xFF, 0x03, ...]` packets and the 4-byte checksummed protocol: they target a different firmware.
- Kinematics.CalculateIk: floating-point rounding, NaN and infinity are not modelled beyond the 0/0 cases that end in None. `sqrt`, `atan2` and `acos` are parameters, and only their ranges are assumed, so no claim is made about the actual angles or forward-kinematics accuracy.
- Perception.Lower: lower-casing covers ASCII letters only; Python's full Unicode `lower()` is not modelled.
- Perception.FindTarget: a non-string target other than `None` is not modelled.
- LlmParser.ParseLlmResponse: `json.loads` is an abstract decoder parameter, and every decode failure is one `None`.
- ToolingLink.Open: a second open that raises after `ser` was assigned is treated like one that raises before. In both cases the link stays not ready.
- ToolingLink.SendServoCommand: the Python type hints are taken at face value (integer index and angle); a string or float angle is not modelled.
- Control.Run: the loop is modelled over a finite prefix of iterations. `KeyboardInterrupt` is not an input, and the `finally` block's disconnect and camera release are left out.
- `raspberrypi/config.py` lines 86-91 refer to `config.` inside `config` itself, which would raise at import. The model uses the intended values: the home gripper, wrist rotation and base angles.
- `GRAB_DISTANCE_THRESHOLD_CM` is read by the PICKUP branch but not defined in `raspberrypi/config.py`; it is the `grabThresholdCm` parameter of `Control.Env`. As written, a solved PICKUP iteration would raise `AttributeError` after its six sends. That failure is not modelled, and it is only reachable once the `Z_cm` defect under Findings is fixed.
- ServoConstraints.Apply: angles are integers. A float slider value is truncated toward zero by `int(final_angle)` (app.py line 62, orchestrator_process.py line 72), and that truncation is not modelled.
- PiLink.SendCommand: the index and angle are reals, so NaN and infinity cannot be passed. For those values `int()` at arduino_com.py lines 47-48 raises outside the `try`; that exception is not modelled.
- `real_time_control.py` imports the solver from `src.hardware.kinematics`, while the file sits in `src/processing`. The model takes the solver the import evidently means.

## Findings

| source | as written | input that shows it | evidently intended | confidence | as-written member | corrected member |
|---|---|---|---|---|---|---|
| raspberrypi/src/core/real_time_control.py:130 | `Y_cam` is computed from `Z_cm`, a name defined nowhere. Every call of `pixel_to_arm_coords` raises `NameError`. Only `KeyboardInterrupt` is caught, so the first PICKUP iteration that sees its target ends the control loop through `finally`. | a PICKUP task for "cup", with one "cup" detection centred at pixel (320, 240) and an IR range of 20 cm | use the depth `Z_cam` on both image axes, so that projecting the point back gives the same pixel | not executed | Transform.PixelToArmAsWritten, Control.PickupCrashesAsWritten | Transform.PixelToArm, Transform.ReprojectRecoversPixel |

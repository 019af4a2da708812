# Motion-triggered actuator: a verified model

This project models the two pieces of decision logic in the "undercity"
motion-triggered prop.

1. **The per-frame loop of the motion detector** (`goodCode/motionDetection.py`).
   - The 6 s paused / 6 s active duty cycle.
   - The reset on a phase change: contour groups are emptied, and a fresh
     background model is made for the entered phase only.
   - The buffer flag.
   - The contour validity filter.
   - The greedy seed-based proximity grouping of `group_nearby_contours`.
   - The per-group area-weighted centroids and the total area.
   - The trigger rule: area threshold plus a 2 s cooldown.
   - The clamped windows of `get_object_depth` and of the motion box.
2. **The microcontroller's command handler** (`goodCode/firmware.py`,
   `process_command`).
   - The command is stripped, then matched against exact names and
     `prefix:integer` forms.
   - Each branch produces its reply text and drives the actuators: servo
     angle, ESC throttle, and the A4988 DIR/STEP pins with their pulse train.

Files and modules:

- `text.dfy` (`Text`): Python's `str.strip`, `str(int)`, and a signed-decimal
  parser standing in for `int()`. The round trip `ParseInt(IntToString(i)) == Some(i)`
  is proved, and so is its converse: any accepted text, written without sign
  `+` or leading zeros, is `str` of the value read.
- `firmware.dfy` (`Firmware`):
  - the start-up configuration `Hardware`;
  - the actuator outputs `Actuators`;
  - specification functions per branch, and `Dispatch` for the whole handler;
  - the class `Controller`. Its fields are the actuator outputs. Its methods
    update them in place, with a loop that emits STEP pulses. Each method is
    proved equal to its specification function.
- `firmware_props.dfy` (`FirmwareProperties`): what each command does, stated
  over `Dispatch`.
- `contours.dfy` (`Contours`):
  - the contour record (OpenCV measurements as fields);
  - the validity filter, as a function plus the loop that implements it;
  - the grouping, as a specification `Scan`/`GroupIndices` plus the nested
    loops that implement it;
  - aggregation.
- `windows.dfy` (`Windows`): the depth window and the box clamp.
- `motion.dfy` (`MotionLoop`):
  - the loop-carried state `Carry`;
  - the per-frame specification `StepSpec`;
  - the class `Detector`. Its fields are the loop variables, and its `Step`
    method is one loop iteration.
- `motion_props.dfy` (`MotionProperties`): single-frame properties, and the
  gap between triggers over any run of frames.

Modelling choices:

- **Time.** Time is integer milliseconds since the start: 60 s is 60000, a
  cycle 6000, the buffer and the cooldown 2000 each. The modulus and the
  cooldown comparison are therefore exact.
- **Distance.** `sqrt(dx^2 + dy^2) <= 150` is compared on squares: `<= 22500`.
- **Truncation.** Python's `int()` of a float truncates toward zero; this is `Contours.Trunc`.
- **Background models.** Each background model is a generation counter that
  goes up when the model is created afresh.
- **Depth.** The depth map is a present/absent flag. Whether depth estimation
  succeeds on a frame is an input.
- **Frame inputs.** The camera read, the elapsed time, the frame's
  foreground contours and whether 'q' is pressed while the frame is shown
  are inputs to `Step`. A 'q' ends the loop after that frame.
- **Peripherals.** The firmware's peripherals are fixed at start-up
  (`Controller.hw` is a `const`), so no command can change them. The
  adafruit_motor range checks are not visible here. They are the predicates
  `angleAccepted` and `throttleAccepted`. A rejected write raises before it
  takes effect, so the branch answers with its error text, and in
  `servoThenMotor` the writes before the rejected one are kept.
- **Exception messages.** Python's exception messages are replaced by fixed
  texts per fault: unpacking, not an integer, rejected by the driver.

The buffer period is one frame long. The loop sets `state_change_time` to
the current time on the very frame that detects a phase change. So
`elapsed - state_change_time` is 0 on that frame, and the buffer test
(`motionDetection.py:247`) holds exactly on the change frame. The 2 s figure
and the comments suggest a longer grace window, but the model follows the
code: `MotionProperties.ProcessedFrame` proves `inBuffer == changed`.

## Model

| member | source | states |
|---|---|---|
| Text.TrimStart | goodCode/firmware.py:72 | removes exactly the leading run of whitespace: the result is a suffix, everything removed is whitespace, and the result does not start with whitespace |
| Text.TrimEnd | goodCode/firmware.py:72 | removes exactly the trailing run of whitespace |
| Text.Strip | goodCode/firmware.py:72 | the stripped command neither starts nor ends with whitespace |
| Text.StripNoSpace | goodCode/firmware.py:72 | a text with no whitespace at either end is left unchanged by strip |
| Text.StripIdempotent | goodCode/firmware.py:72 | stripping an already stripped command changes nothing |
| Text.NatToString | goodCode/firmware.py:112 | the decimal rendering of a non-negative number is non-empty, all digits, with no leading zero unless it is 0 |
| Text.IntToString | goodCode/firmware.py:112 | `str(n)` has no surrounding whitespace, starts with '-' iff n < 0, and is otherwise digits |
| Text.ParseInt | goodCode/firmware.py:108 | `int()` accepts only a non-empty stripped text, and a negative value only after a leading '-'; what the value is, is stated by `Text.ParseIntCanonical` |
| Text.ParseIntToString | goodCode/firmware.py:107-108 | the integer parser reads back every decimal rendering `str(n)` as `n`, negative numbers included |
| Text.ParseNegative | goodCode/firmware.py:108 | `int("-" + digits)` of a rendered negative number gives that number back |
| Text.ParseNonNegative | goodCode/firmware.py:108 | `int(digits)` of a rendered non-negative number gives that number back |
| Text.DigitsValueOfNat | goodCode/firmware.py:108 | the value of the digits `str(n)` prints is `n` |
| Text.DropZeros | goodCode/firmware.py:108 | removes exactly the leading zeros of a digit string and keeps at least one digit |
| Text.ParseIntCanonical | goodCode/firmware.py:108 | every text `int()` accepts, written without `+`, leading zeros or `-0`, is `str` of the value returned: `" +05"` reads 5, `"-007"` reads -7 |
| Text.SignedCanonical | goodCode/firmware.py:108 | a signed digit string reads as the number its canonical spelling prints |
| Text.UnsignedCanonical | goodCode/firmware.py:108 | an unsigned digit string reads as the number its canonical spelling prints |
| Text.CanonicalDigits | goodCode/firmware.py:108 | a digit string without its leading zeros is `str` of its value |
| Text.ZerosValue | goodCode/firmware.py:108 | leading zeros do not change the value read |
| Text.LeadingZero | goodCode/firmware.py:108 | a leading 0 adds nothing to the value |
| Text.LeadingNonZero | goodCode/firmware.py:108 | a digit string starting with a non-zero digit has a positive value |
| Text.NatToStringOfDigits | goodCode/firmware.py:108 | a digit string without leading zeros is exactly what `str` prints for its value |
| Firmware.Controller.constructor | goodCode/firmware.py:11-69 | start-up: peripherals fixed, servo angle unset, throttle 0.0, DIR and STEP low, no pulses |
| Firmware.Controller.EmitPulses | goodCode/firmware.py:131-135 | the pulse loop adds exactly `count` pulses at the current DIR level, leaves STEP low after any pulse, touches nothing else |
| Firmware.Controller.ProcessCommand | goodCode/firmware.py:71-251 | the reply and the new actuator state are those of `Dispatch` (strip, classify, execute) |
| Firmware.Controller.Run | goodCode/firmware.py:74-251 | each recognised command runs its own branch, and an unrecognised one answers "Unknown command" |
| Firmware.Controller.RunServo | goodCode/firmware.py:104-117 | servo branch: parse first, then write the angle, or answer with the error or "not available" |
| Firmware.Controller.RunStepper | goodCode/firmware.py:119-142 | stepper branch: DIR := N > 0, then abs(N) pulses, reply "A4988 moved N steps"; a malformed argument changes nothing |
| Firmware.Controller.RunStepperTest | goodCode/firmware.py:144-172 | 50 pulses with DIR high, then 50 with DIR low |
| Firmware.Controller.RunBrushMotor | goodCode/firmware.py:174-191 | throttle := N/100 when the driver accepts it; reply by sign of N |
| Firmware.Controller.RunServoThenMotor | goodCode/firmware.py:193-219 | servo 90, throttle 0.2, throttle 0.0, servo 0, stopping at the first rejected write |
| Firmware.Controller.RunStepperDebug | goodCode/firmware.py:221-248 | DIR high then low, then 10 pulses |
| FirmwareProperties.PrefixedNumber | goodCode/firmware.py:104-108 | `prefix + str(N)` is unchanged by strip, starts with the prefix, and its argument parses back to N |
| FirmwareProperties.ServoPrefixed | goodCode/firmware.py:74-104 | every command starting with `servo:` reaches the servo branch, with the text after the prefix as its argument |
| FirmwareProperties.StepperPrefixed | goodCode/firmware.py:74-119 | every command starting with `stepper:` reaches the stepper branch (the earlier `servo:` test does not catch it) |
| FirmwareProperties.BrushPrefixed | goodCode/firmware.py:74-174 | every command starting with `brushMotor:` reaches the brushMotor branch |
| FirmwareProperties.ClassifyServo | goodCode/firmware.py:72-107 | `servo:N` is classified as a servo command with argument `str(N)` |
| FirmwareProperties.ClassifyStepper | goodCode/firmware.py:72-122 | `stepper:N` is classified as a stepper command with argument `str(N)` |
| FirmwareProperties.ClassifyBrush | goodCode/firmware.py:72-177 | `brushMotor:N` is classified as a brushMotor command with argument `str(N)` |
| FirmwareProperties.LibraryTestReply | goodCode/firmware.py:74-75 | `library_test` answers "Motor: True, Audio: True" and moves nothing |
| FirmwareProperties.ClassifyHardwareTest | goodCode/firmware.py:72-77 | `hardware_test` is recognised after stripping |
| FirmwareProperties.HardwareTestName | goodCode/firmware.py:74-77 | `hardware_test` matches the second test |
| FirmwareProperties.ClassifyPinTest | goodCode/firmware.py:72-83 | `pin_test` is recognised after stripping |
| FirmwareProperties.PinTestName | goodCode/firmware.py:74-83 | `pin_test` matches the third test |
| FirmwareProperties.ClassifyStepperTest | goodCode/firmware.py:72-144 | `stepperTest` is recognised after stripping |
| FirmwareProperties.StepperTestName | goodCode/firmware.py:74-144 | `stepperTest` matches none of the earlier tests |
| FirmwareProperties.ClassifyServoThenMotor | goodCode/firmware.py:72-193 | `servoThenMotor` is recognised after stripping |
| FirmwareProperties.ServoThenMotorName | goodCode/firmware.py:74-193 | `servoThenMotor` matches none of the earlier tests |
| FirmwareProperties.ClassifyStepperDebug | goodCode/firmware.py:72-221 | `stepper_debug` is recognised after stripping |
| FirmwareProperties.StepperDebugName | goodCode/firmware.py:74-221 | `stepper_debug` matches none of the earlier tests |
| FirmwareProperties.UnknownCommand | goodCode/firmware.py:250-251 | a stripped command that is no exact name and has no known prefix answers "Unknown command" and moves nothing |
| FirmwareProperties.CommandIsStripped | goodCode/firmware.py:72 | a command and its stripped form get the same reply and effect |
| FirmwareProperties.HardwareTestReport | goodCode/firmware.py:77-81 | the report names the three start-up flags; no actuator changes |
| FirmwareProperties.ServoDispatched | goodCode/firmware.py:74-104 | a stripped command starting with `servo:` is executed by the servo branch on the text after the prefix |
| FirmwareProperties.ServoArgumentEffect | goodCode/firmware.py:72-117 | any command that strips to `servo:` plus an argument `int()` reads as N (signs, leading zeros and inner spaces included): present and accepted → angle N, "Servo moved to N degrees"; absent → "Servo not available", unchanged; rejected → error, unchanged |
| FirmwareProperties.ServoCommandEffect | goodCode/firmware.py:104-117 | `servo:N` written as `str(N)`: the same three cases, with the argument read back as N |
| FirmwareProperties.MalformedArgumentChangesNothing | goodCode/firmware.py:104-191 | an argument with a second ':' or not an integer gives the branch's error (or "not available") and changes no actuator |
| FirmwareProperties.MotorReplyMeaning | goodCode/firmware.py:182-187 | "Motor stopped" iff N = 0; "Motor forward at N%" for N > 0; "Motor reverse at abs(N)%" for N < 0 |
| FirmwareProperties.BrushDispatched | goodCode/firmware.py:74-174 | a stripped command starting with `brushMotor:` is executed by the brushMotor branch on the text after the prefix |
| FirmwareProperties.BrushArgumentEffect | goodCode/firmware.py:72-191 | any command that strips to `brushMotor:` plus an argument `int()` reads as N: throttle N/100 and a reply naming the direction ("Motor stopped" iff N = 0); "ESC not available" without the ESC; a rejection changes nothing |
| FirmwareProperties.BrushMotorEffect | goodCode/firmware.py:174-191 | `brushMotor:N` written as `str(N)`: the same cases, with the argument read back as N |
| FirmwareProperties.BrushMotorReverseScenario | goodCode/firmware.py:174-187 | `brushMotor:-50` gives throttle -0.5 and "Motor reverse at 50%" |
| FirmwareProperties.BrushMotorStopScenario | goodCode/firmware.py:174-183 | `brushMotor:0` gives throttle 0.0 and "Motor stopped" |
| FirmwareProperties.ServoOutOfRangeScenario | goodCode/firmware.py:77-117 | `servo:200`, rejected by the driver, answers the error, leaves the actuators alone, and `hardware_test` afterwards reports as before |
| FirmwareProperties.StepperDispatched | goodCode/firmware.py:74-119 | a stripped command starting with `stepper:` is executed by the stepper branch on the text after the prefix |
| FirmwareProperties.StepperArgumentEffect | goodCode/firmware.py:72-142 | any command that strips to `stepper:` plus an argument `int()` reads as N: DIR := N > 0, exactly abs(N) pulses at that level after the old ones, STEP low after any pulse and untouched when N = 0, servo and throttle kept, reply "A4988 moved N steps"; without the stepper nothing changes |
| FirmwareProperties.StepperCommandEffect | goodCode/firmware.py:119-142 | `stepper:N` written as `str(N)`: the same effect, with the argument read back as N |
| FirmwareProperties.StepperTestEffect | goodCode/firmware.py:144-172 | `stepperTest`: 50 pulses DIR high, then 50 DIR low, ending with DIR and STEP low, servo and throttle kept; without the stepper "A4988 stepper not available" and nothing changes |
| FirmwareProperties.ServoThenMotorEffect | goodCode/firmware.py:193-219 | with both peripherals and every write accepted: servo 0, throttle 0.0, "Servo-then-motor sequence completed"; a rejected second write keeps the first; without both, "Servo or motor not available" and nothing moves; stepper pins never touched |
| FirmwareProperties.StepperDebugEffect | goodCode/firmware.py:221-248 | `stepper_debug`: DIR ends low, exactly 10 pulses at DIR low, STEP low |
| FirmwareProperties.StepLowAndPulsesGrow | goodCode/firmware.py:119-248 | once STEP is low it stays low after every command, and no command removes an emitted pulse |
| Windows.DepthWindow | goodCode/motionDetection.py:116-124 | no depth map gives no window; otherwise the window lies inside the map and each side is at most `window_size` |
| Windows.DepthWindowHoldsCentre | goodCode/motionDetection.py:116-126 | for `window_size >= 2` and a centre inside the map, the window is non-empty and contains the centre (with `window_size` 1 it is empty) |
| Windows.DepthWindowInterior | goodCode/motionDetection.py:120-124 | away from the edges the window is a full square of side `2 * (window_size // 2)` |
| Windows.ClampedSqrtFrom | goodCode/motionDetection.py:357 | the search returns the largest side in [150, k] whose square fits |
| Windows.BoxSize | goodCode/motionDetection.py:357 | the box side lies in [150, 300] |
| Windows.BoxSizeIsClampedSqrt | goodCode/motionDetection.py:357 | the box side is `int(sqrt(area / 10))` clamped to [150, 300] |
| Windows.Box | goodCode/motionDetection.py:357-363 | the box lies inside the 1280x720 frame, and each side is at most 300 |
| Windows.BoxHoldsPoint | goodCode/motionDetection.py:357-363 | a point inside the frame lies inside its box, which reaches at least 75 px left, right, above and below it as far as the frame leaves room |
| Contours.Filter | goodCode/motionDetection.py:274-293 | the kept contours are exactly those that pass the test; never more than the input |
| Contours.FilterAppend | goodCode/motionDetection.py:274-293 | the filter keeps the input order |
| Contours.ValidMeans | goodCode/motionDetection.py:276-293 | a contour is kept iff area > 7000, h > 0 and 0.3 < w/h < 3.0, solidity > 0.5, perimeter > 0, circularity > 0.3 |
| Contours.Select | goodCode/motionDetection.py:274-293 | the appending loop computes the filter |
| Contours.FilterValid | goodCode/motionDetection.py:274-293 | `valid_contours` holds exactly the valid contours, in order |
| Contours.MembersSpec | goodCode/motionDetection.py:311-321 | a seed's group takes exactly the later unclaimed indices within 150 px of the seed, in increasing order |
| Contours.NewGroupShape | goodCode/motionDetection.py:311-321 | a fresh group holds only unclaimed indices, starts at its seed, increases, and stays within reach of the seed |
| Contours.ClaimKeepsInvariant | goodCode/motionDetection.py:323-325 | claiming indices of a dropped group keeps the groups retained and disjoint |
| Contours.AppendKeepsInvariant | goodCode/motionDetection.py:323-325 | appending a retained group of unclaimed indices keeps the groups retained and disjoint |
| Contours.ScanKeepsInvariant | goodCode/motionDetection.py:308-329 | after every seed the kept groups are retained, claimed and pairwise disjoint |
| Contours.GroupingProperties | goodCode/motionDetection.py:296-331 | every returned group is non-empty, seeded at its lowest index, within 150 px of the seed, with area > 3500; groups are disjoint; no contours give no groups |
| Contours.SeedTakesAllUnclaimedNeighbours | goodCode/motionDetection.py:311-321 | an unclaimed contour within reach of a seed is claimed by that seed |
| Contours.ContourGroups | goodCode/motionDetection.py:296-331 | every returned contour group is non-empty, within reach of its first member, and has area above half the threshold |
| Contours.ClaimNeighbours | goodCode/motionDetection.py:313-321 | the inner loop builds the seed's group and marks its members used |
| Contours.GroupNearby | goodCode/motionDetection.py:296-331 | the nested loops return the groups of the specification over the contours with `m00 != 0`; no contours, no groups |
| Contours.Trunc | goodCode/motionDetection.py:343 | `int()` of a float truncates toward zero |
| Contours.Aggregate | goodCode/motionDetection.py:335-345 | motion is detected iff some group exists; the total is the sum of group areas; each point is the group's truncated area-weighted centroid |
| Contours.TotalAreaBound | goodCode/motionDetection.py:323-345 | k kept groups add up to at least 3500·k, and to more than 3500 when k > 0 |
| MotionLoop.Detect | goodCode/motionDetection.py:274-345 | the detected groups are all well formed |
| MotionLoop.DetectMotion | goodCode/motionDetection.py:274-345 | filter, grouping and aggregation together compute `Detect` |
| MotionLoop.Detector.constructor | goodCode/motionDetection.py:170-180 | the loop variables start as the script initialises them |
| MotionLoop.Detector.Step | goodCode/motionDetection.py:182-446 | one iteration updates the loop variables and reports the frame as `StepSpec` says, keeping the stored groups well formed; a 'q' key press ends the loop after the frame |
| MotionLoop.Detector.EnterFrame | goodCode/motionDetection.py:193-247 | frame count, depth refresh, phase, change reset and buffer flag |
| MotionLoop.Detector.ConcludeFrame | goodCode/motionDetection.py:252-378 | detection and trigger when active and settled; otherwise groups emptied; phase remembered |
| MotionProperties.ActivePeriodic | goodCode/motionDetection.py:216-217 | the phase at t equals the phase at t + 12 s |
| MotionProperties.PhaseInPeriod | goodCode/motionDetection.py:216-217 | in every 12 s period the first 6 s are paused and the last 6 s active |
| MotionProperties.ProcessedIff | goodCode/motionDetection.py:182-190 | a frame is processed iff the loop runs, the camera delivered it, and elapsed < 60 s; the loop keeps running after it iff in addition 'q' was not pressed (lines 444-446) |
| MotionProperties.FinishedIsFinal | goodCode/motionDetection.py:182-190 | after the loop breaks, nothing changes |
| MotionProperties.ProcessedFrame | goodCode/motionDetection.py:193-247 | phase is `elapsed mod 12 s >= 6 s`, the change flag compares with the previous frame, the counter goes up by one, and the buffer flag equals the change flag |
| MotionProperties.PhaseChangeResets | goodCode/motionDetection.py:220-244 | on a change: change time recorded, groups emptied, no detection, and only the entered phase's model recreated |
| MotionProperties.SteadyPhaseKeepsModels | goodCode/motionDetection.py:220-244 | without a change no model is recreated and the change time stays |
| MotionProperties.PausedFrameDetectsNothing | goodCode/motionDetection.py:373-376 | a paused frame empties the groups, learns at 0.01, and never fires |
| MotionProperties.FireRule | goodCode/motionDetection.py:348-352 | fires iff active and settled, motion detected, total > 10000, and more than 2 s since the last trigger; firing records the time |
| MotionProperties.DetectionTotals | goodCode/motionDetection.py:335-345 | motion iff some group; total = sum of group areas ≥ 3500 per group; one point per group |
| MotionProperties.MotionMeansGroups | goodCode/motionDetection.py:335-345 | what a processed frame reports agrees with the groups it stores |
| MotionProperties.StepKeepsGroupsOk | goodCode/motionDetection.py:296-376 | the stored contour groups stay well formed from frame to frame |
| MotionProperties.DetectedContoursAreValid | goodCode/motionDetection.py:274-331 | every grouped contour is a frame contour that passed the filter and has a centroid |
| MotionProperties.FiringStep | goodCode/motionDetection.py:348-352 | a frame either leaves the last trigger alone, or fires in an active phase after the cooldown and becomes the last trigger |
| MotionProperties.TriggersSpaced | goodCode/motionDetection.py:348-352 | over any run: every trigger comes more than 2 s after the previous one, falls in an active phase within the minute, and the state remembers the last one |
| MotionProperties.TriggersFromStart | goodCode/motionDetection.py:175-176 | from the start, the first trigger comes after 2 s and triggers are more than 2 s apart |
| MotionProperties.NoModelNoDepth | goodCode/motionDetection.py:211-214 | without a depth model no depth map ever appears |

## Left out

- Serial I/O on the detector side is left out: port discovery, the reset handshake, `send_motor_command` and `trigger_motor_and_servo`. A trigger is the `fired` flag of the frame's outcome.
- `goodCode/communication.py` is left out: it is a linear serial debug script.
- The MiDaS depth model, its inference, `cv2.normalize` and `np.median` are left out. A depth map is present or absent, and whether estimation succeeds on a frame is an input. `get_object_depth` is modelled for its window only: the median is floating-point numerics over an image, and the loop never calls the function.
- The OpenCV calls are not modelled: MOG2, morphology, `findContours`, `moments`, `contourArea`, `boundingRect`, `convexHull`, `arcLength`. Their results are the fields of `Contours.Contour`. The π-based circularity value is the boolean `circularityOk`, and the positive perimeter is `perimeterOk`.
- The detector's drawing, video writing, `imshow`, console output and music (`goodCode/music.py`, `CycleMusic`) are left out. They produce output only and feed nothing back into the decisions. The one key that does, 'q', is the `quit` input of `Step`.
- `time.sleep` is left out, including the 0.3 s pause before a trigger and the firmware's pulse timing. Elapsed time is an input to each frame, and pulses are counted, not timed.
- Floating point is left out: elapsed time is exact milliseconds, and group areas and centroids are exact reals. Float rounding of the division, of `sqrt` and of `int()` is not modelled.
- Contours.Trunc: does not model rounding of `m10/m00` or of the weighted mean before truncation, because exact reals replace floats.
- MotionLoop.Detect: does not state bounds on the centroid coordinates (that they lie between the group's extreme centroids), because that proof was too expensive for the solver.
- The firmware's stdin read loop is left out: reading a line, skipping empty lines, printing the reply.
- The firmware's own console prints are left out. There are two kinds: the start-up messages (`goodCode/firmware.py:24-66`) and the progress and error lines that `process_command` prints inside its branches (`goodCode/firmware.py:109-238`, e.g. "Moving servo to 90 degrees"). They go out on the same serial console before the reply, so a host that takes the first non-echo line as the answer reads one of them, not the reply. The model states only the returned reply (`Dispatch`), not the printed line sequence.
- Windows.DepthWindow: does not follow numpy when an end bound is negative. With `cx + window_size // 2 < 0` (or the same for `cy`), numpy counts the slice stop from the far edge and takes a non-empty region. The model's window is then empty. The function is never called in the loop, and a centroid inside the frame never gives a negative bound.
- The adafruit_motor range checks are the abstract `angleAccepted` and `throttleAccepted`. Pin writes in the stepper branches cannot fail in the model, so the "A4988 test error" and "Debug test error" replies are not modelled.
- `pin_test`'s probing of GP0–GP28 is left out: the free and busy pin lists are start-up configuration.
- Python's `int()` also accepts `_` separators and non-ASCII digits, which the parser rejects. Exception message texts are fixed per fault, not Python's own messages.
- Python's `str.strip()` removes all Unicode whitespace; `Text.Strip` removes ASCII whitespace only.

# Person-Tracker pan-tilt core, modelled in Dafny

Person-Tracker points a camera on a pan-tilt head, driven by two hobby servos, at
a target. Each video frame goes to one of three detectors: a colour mask, the HOG
person detector, or the Haar face cascade. A detector chooses one target
rectangle and reports how far the rectangle's centre is from the frame centre, in
pixels, after a deadband. The controller turns that pixel error into bounded,
rate-limited pulse-width corrections for the two servos. A monocular distance
estimator converts the target's width into centimetres with a pinhole model and
smooths the result.

The project models the following parts:

- `Numbers` holds Python's integer and real operators whose Dafny counterpart
  needs stating:
  - `int()` on a float truncates toward zero;
  - `// 2` floors.
- `Targets` holds what all three detectors share:
  - rectangles and points;
  - the centre of a box and the centre of the frame;
  - the deadband;
  - first-maximum selection, which is Python's `max(..., key=...)`. It returns the
    earliest of several equal maxima.
- `Servos` holds:
  - the servo driver, modelled as a class whose pulse width `us` is updated in
    place;
  - the pigpio connection, modelled as a class `Pigpio` that logs every pulse
    width written and records whether the connection was released.
- `Controller` holds:
  - the step schedule, with its slow zone near the centre;
  - the per-axis step;
  - the `PanTiltController` class: its constructor, `Update` and `Close`.
- `PersonTracker` holds the detection filter loop and the result record.
- `FaceTracker` and `ColourTracker` each hold their detector's result record.
  Each detector works on the detections it is given.
- `Tracker` holds the factory that selects a detector by name.
- `Distance` holds the `DistanceEstimator` class: calibration, the pinhole
  estimate and the moving average.

Time (`time.time()`) is a parameter of `Update`. The detectors' OpenCV calls
(HOG, Haar cascade, HSV mask, contours) are represented by their outputs, which
the modelled functions take as inputs.

## Model

| member | source | states |
|---|---|---|
| Numbers.Trunc | servo/controller.py:88-89 | `int()` on a float truncates toward zero: for x >= 0 the result is the largest integer at most x; for x < 0 it is the smallest integer at least x |
| Numbers.TruncShrinks | servo/controller.py:88-89 | truncation never increases magnitude, and a value of magnitude below 1 truncates to 0 |
| Numbers.FloorHalf | vision/person_tracker.py:121-127 | `n // 2` is the floor of n/2: 2h <= n < 2h + 2, also for negative n |
| Targets.Center | vision/face_tracker.py:53-54 | the centre of a box is its corner plus half its width and height, rounded down |
| Targets.FrameCenter | vision/person_tracker.py:126-127 | the frame centre is half the width and half the height, rounded down |
| Targets.Deadband | vision/person_tracker.py:133-136 | the result is either 0 or the error unchanged; it is 0 exactly when the error is 0 or its magnitude is below the deadband; a deadband <= 0 never changes the error |
| Targets.FirstMax | vision/face_tracker.py:51 | the selected index is in range, no key is greater than its key, and every earlier element's key is strictly smaller (the first maximum, as Python's `max` returns it) |
| Targets.FirstMaxUnique | vision/colour_tracker.py:42 | exactly one index is both maximal and first among equals, so the selection is determined |
| Servos.Clamp | servo/servos.py:4-5 | the result lies in [lo, hi] when lo <= hi; a value already in range is unchanged; a value below lo gives lo and one above hi gives hi; when hi < lo the result is lo |
| Servos.ClampIdempotent | servo/servos.py:23-25 | clamping a clamped width again changes nothing |
| Servos.ClampedMoveFollowsSign | servo/controller.py:88-89 | from a position in range, subtracting a step and clamping moves against the step's sign, never past the original position, and by at most the step's magnitude |
| Servos.Pigpio.SetServoPulsewidth | servo/servos.py:25 | the connection records one more pulse write, for that pin and width; whether it is released is unchanged |
| Servos.Pigpio.Stop | servo/controller.py:94 | the connection is released and no pulse is written |
| Servos.Servo.constructor | servo/servos.py:13-21 | the servo starts at the centre width clamped into its range, and that width is written to its pin |
| Servos.Servo.SetUs | servo/servos.py:23-25 | the new width is the requested width clamped into [usMin, usMax]; a width already in range is kept exactly; exactly one write of the new width goes to the servo's pin |
| Servos.Servo.Stop | servo/servos.py:27-29 | a zero-width write disables the pulses; the stored width and the connection state are unchanged |
| Controller.Clamp | servo/controller.py:8-9 | on reals: the result lies in [lo, hi] when lo <= hi, and a value in range, below lo or above hi gives itself, lo or hi |
| Controller.Magnitude | servo/controller.py:51 | the magnitude is the larger of the two absolute errors |
| Controller.ScaledMaxStep | servo/controller.py:47-61 | the cap is the configured maximum times 1.0 at magnitude >= 200, 0.8 for 120..199, 0.45 for 60..119 and 0.18 below 60 |
| Controller.ScaledMaxStepMonotone | servo/controller.py:53-61 | a non-negative maximum gives a non-negative cap that never shrinks as the magnitude grows and never exceeds the configured maximum |
| Controller.AxisStep | servo/controller.py:73-89 | the step of one axis, `int(±clamp(kp * e, -cap, cap))` with the sign flipped on an inverted axis; its contract is stated by Controller.AxisStepProps and it is tied to Update's body by Controller.AxisStepSteps |
| Controller.AxisStepSteps | servo/controller.py:77-89 | clamping, then flipping, then truncating, in the order Update does it, gives exactly Controller.AxisStep |
| Controller.AxisStepProps | servo/controller.py:73-89 | the integer step never exceeds the cap; a delta of magnitude below 1 gives no step; inside the cap the step is the truncated, possibly inverted, delta; the step has the delta's sign, reversed when the axis is inverted |
| Controller.PositiveErrorDirection | servo/controller.py:73-89 | a positive error with a positive gain never raises a non-inverted axis's width and never lowers an inverted axis's width |
| Controller.MoveWithinCap | servo/controller.py:77-89 | in one accepted update an axis that is in range moves by at most the scheduled cap |
| Controller.PanTiltController.constructor | servo/controller.py:22-45 | both servos are created on the shared connection with the configured pins and ranges; each is at its clamped centre; two writes are made; the last update time is 0 |
| Controller.TooSoon | servo/controller.py:65 | less than the update interval has passed since the last accepted update (a value test, applied to the controller's last update time); Update's contract states that such an update changes nothing and that any other one records its time |
| Controller.PanTiltController.Update | servo/controller.py:63-89 | an update sooner than the interval changes nothing; otherwise the time is recorded; a zero error then stops; else each axis's width becomes its old width minus the capped, inverted and truncated proportional step, clamped to its range, with one write per axis, pan first; both axes always stay in range |
| Controller.PanTiltController.Close | servo/controller.py:91-94 | a zero-width write goes to pan and then to tilt, the connection is released, and the stored widths are unchanged |
| PersonTracker.ZipLength | vision/person_tracker.py:94 | `zip` pairs up as many detections as the shorter of the two lists holds |
| PersonTracker.Passes | vision/person_tracker.py:98-107 | a detection survives when its weight is at least 0.5 and its area at least the minimum area; that both filters are applied and nothing else is stated by PersonTracker.SurvivorsSound and PersonTracker.SurvivorsComplete |
| PersonTracker.Survivors | vision/person_tracker.py:94-109 | the in-order filter of paired detections keeps at most one candidate per detection; which ones it keeps is stated by PersonTracker.SurvivorsSound and PersonTracker.SurvivorsComplete |
| PersonTracker.Candidates | vision/person_tracker.py:93-109 | the candidates kept from `zip(rects, weights)`, at most as many as either list holds; PersonTracker.FilterCandidates is proved to compute them |
| PersonTracker.SurvivorsSound | vision/person_tracker.py:94-109 | every kept candidate has weight >= 0.5 and area >= the minimum area, its area is its box's area, and it is one of the paired detections |
| PersonTracker.SurvivorsComplete | vision/person_tracker.py:94-109 | every paired detection that passes both filters is kept |
| PersonTracker.NoCandidateIffAllRejected | vision/person_tracker.py:93-113 | no candidate remains exactly when every paired detection fails the weight filter or the area filter |
| PersonTracker.FilterCandidates | vision/person_tracker.py:93-109 | the loop keeps, in detection order, exactly the paired detections that pass both filters |
| PersonTracker.Process | vision/person_tracker.py:88-149 | no detection, or no survivor, gives no result; otherwise the result is the first largest survivor, with its centre, the frame centre, deadbanded errors, its box's area, its weight and the label "person" |
| FaceTracker.Process | vision/face_tracker.py:37-73 | no face gives the empty record (not found, no fields, area 0); otherwise the record is found, with the first largest face, its area, centre and raw centre, and the deadbanded error from the frame centre |
| ColourTracker.Process | vision/colour_tracker.py:39-70 | a result exists exactly when some contour's area is strictly above the minimum area; it describes the first largest contour, with its truncated area, its box's centre, the frame centre and the deadbanded errors |
| Tracker.LowerChar | vision/tracker.py:6 | an ASCII capital maps to its lower-case letter and every other character is unchanged |
| Tracker.Lower | vision/tracker.py:6 | lowering keeps the length and lowers each character |
| Tracker.LowerIdempotent | vision/tracker.py:6 | lowering twice is the same as lowering once |
| Tracker.MakeTracker | vision/tracker.py:5-19 | a missing name counts as ""; the lowered name "colour", "person" or "face" selects that detector, and any other name is an error whose message is "Unknown TRACK_MODE: " followed by the lowered name |
| Tracker.MakeTrackerIgnoresCase | vision/tracker.py:6-17 | two names that lower to the same string select the same detector, or both fail |
| Tracker.MakeTrackerRejects | vision/tracker.py:8-19 | "color", "" and a missing name are rejected; "FACE", "Colour" and "PeRsOn" are accepted |
| Distance.Smooth | distance/estimator.py:38-41 | the first sample after a reset passes through; after that the value moves from the previous value by alpha times the distance to the sample |
| Distance.FocalLength | distance/estimator.py:28 | the calibrated focal length times the known width equals the box width times the calibration distance; Distance.CalibrateThenEstimate states that it inverts Distance.PinholeDistance |
| Distance.PinholeDistance | distance/estimator.py:36 | the estimated distance times the box width equals the known width times the focal length; Distance.CalibrateThenEstimate states that it gives back the calibration distance |
| Distance.SmoothBetween | distance/estimator.py:41 | for alpha in [0, 1] the smoothed value lies between the previous value and the sample; alpha 1 gives the sample and alpha 0 the previous value |
| Distance.CalibrateThenEstimate | distance/estimator.py:28-36 | measuring the width used for calibration gives back the calibration distance |
| Distance.SmoothRepeatedIsFixed | distance/estimator.py:36-43 | feeding the same sample any number of times after a reset keeps the smoothed value exactly at that sample |
| Distance.DistanceEstimator.constructor | distance/estimator.py:17-23 | the estimator starts with the configured constants, the configured focal length (if any) and no smoothed value |
| Distance.DistanceEstimator.Calibrate | distance/estimator.py:25-30 | a width <= 0 is rejected and changes nothing; a zero known width is a division error and changes nothing; otherwise the focal length is width times distance over known width, it is stored, and the average is reset |
| Distance.DistanceEstimator.EstimateCm | distance/estimator.py:32-43 | with no focal length or a width <= 0 there is no estimate and nothing changes; otherwise the pinhole distance is folded into the moving average, and the new average is both stored and returned |

## Left out

- The pigpio daemon connection and its "not running" error (servo/controller.py:23-27)
  are not modelled. The constructor receives an open connection, and pulse writes are
  recorded in a log rather than sent to hardware.
- `time.time()` is not called. The time of each update is the parameter `now`.
- The OpenCV work is not modelled: frame shapes, the HOG and Haar detectors, the HSV
  mask with erosion and dilation, `findContours`, `contourArea`, `boundingRect`, and the
  debug drawing. Each detector's model starts from that work's output: rectangles and
  weights, faces, or contours with their areas and boxes.
- Tracker.MakeTracker: `ColourTracker.__init__` (vision/colour_tracker.py:16-19) reads four
  HSV range names that config.py does not define, so with that configuration selecting
  "colour" raises `AttributeError`. The model assumes the four range names are configured,
  and returns `Ok(Colour)` for that name.
- The cascade-loading failure in `FaceTracker.__init__` and the face record's `mask` key,
  which is always `None`, are not modelled.
- Floating-point arithmetic is modelled with exact reals: the gains, the step caps, the
  distance and the smoothing. Rounding in IEEE doubles is not captured.
- Tracker.LowerChar: only the ASCII capitals `A`-`Z` are folded; Unicode case mapping of
  other characters is not captured.
- Tracker.Lower: `str.lower()` is modelled for ASCII letters only, through
  Tracker.LowerChar, so it never changes a string's length.
- PersonTracker.Process: detector output that is a numpy array of any other shape is
  not modelled. The rectangles are a sequence, or `None` when the detector returned
  nothing.
- Controller.PanTiltController.Update: the per-update movement bound is stated
  separately by Controller.MoveWithinCap, not in Update's own contract. Update's
  contract states each axis's new width exactly, so the bound follows from the two
  together.
- Servos.Servo.Stop and Controller.PanTiltController.Close: a second stop simply writes
  zero again. Releasing an already released connection is recorded as released and
  raises no error.
- main.py, the camera wrapper, the overlay, the servo test scripts and the wiring
  between the detectors' result dictionaries and the controller are not part of this
  model.
- The source has no fractional residue accumulator, no smoothing of the target centre,
  and no area threshold for faces. The model follows the source, so none of these
  appear.

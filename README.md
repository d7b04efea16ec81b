# Hand-gesture drone control: classifier and simulator state

This project models the two computational parts of a hand-gesture drone
controller and proves properties of the model.

- **The hand tracker** (`src/hand_tracking.py`). It classifies one hand's
  21 landmark points into one of the commands `STOP`, `FORWARD`, `CIRCLE`,
  `LEFT`, `RIGHT`, `UP`, `DOWN`, `BACKWARD`, or none. It uses a fixed chain of
  threshold tests, and the first test that holds wins. It then routes each
  detected hand's gesture by the camera's mirrored handedness label. A hand
  labelled `"Right"` drives the left (red) drone; any other label drives the
  right (blue) drone.
- **The drone simulator** (`src/simulator.py`). Its state is two drones, each
  with a position, a rotation and a colour, plus a circle angle per drone and
  the motion settings. `update` applies the command at index i to drone i.
  A straight-line command moves one axis by the speed. `CIRCLE` advances the
  drone's circle angle and puts the drone on its circle. Every other command
  levels the drone. A drone that got a command is then clipped to the box
  [-5,5] x [-3,3] x [-15,-5].

Files:

- `wrappers.dfy`: `Option` and `Result`.
- `vectors.dfy`: three-component real vectors, the squared norm, and `IsLength`.
  `IsLength(n, v)` says that `n` is the Euclidean length of `v`.
- `hand_tracking.dfy`: the threshold predicates, `Classify` (the if-chain as
  written), and the routing method `DetectGestures` with its slot lemmas.
- `gesture_rules.dfy`: the same classifier read as a priority-ordered rule
  table (a guard and a gesture per rule). It holds the lemma connecting the
  table to `Classify`, and the priority, handedness and threshold properties.
- `simulator.dfy`: the `Drone` record and the per-drone specification
  function `Step`. It also holds the `DroneSimulator` class, whose `Update`
  method loops over the commands and is proved against `Step`.
- `commands.dfy`: the bridge between the two. The name of each gesture
  selects the simulator branch that the gesture's meaning calls for: the
  circle for `CIRCLE`, a move by the speed (before clipping) along the
  gesture's own axis and direction for the six straight-line gestures, and no
  move for `STOP`.

Modelling choices:

- Landmark coordinates and drone state are `real`. Floating-point rounding is
  not modelled.
- The Euclidean norm (a square root) is a parameter `norm: Vec3 -> real` of the
  classifier. Lemmas that rely on it being the true length require `IsLength`
  on exactly the vectors they use. Under that assumption the pinch test is
  stated exactly on the squared distance. For the fist test, which compares a
  mean of four lengths, the model proves only a sufficient condition on squared
  distances: every finger tip within squared distance 0.01 of the palm centre.
- `cos`, `sin` and the radians-to-degrees conversion of the circle motion are
  the fields of a `Trig` value passed to `Update`. Nothing is assumed about them.
- Commands reach the simulator as `Option<string>`, as in the source. `STOP`,
  which the classifier produces, is not one of the strings `update` tests for,
  so it takes the "level the drone" branch.
- The thumb-only rule returns `RIGHT` when the thumb tip is left of the thumb
  base, in both branches of the geometric-handedness test. The comment at
  `src/hand_tracking.py:104` describes a different mapping for the other hand,
  but the code has the same mapping in both branches. The model follows the code.
- `detect_gestures` has no shape check. A hand with fewer than 21 landmarks
  makes the classifier raise an index error, which ends the whole call: the
  other hand's gesture is lost too. The model returns `Failure` for the whole
  call in that case. A reading in which a malformed hand leaves its sibling
  unaffected does not match the code.
- The classifier reads landmarks 0-20 only, so it accepts 21 or more points.

## Model

| member | source | states |
|---|---|---|
| `HandTracking.Classify` | src/hand_tracking.py:58-139 | The result is `STOP` exactly when the mean distance from the palm centre to the four finger tips is below 0.1. The result type admits only the eight commands or none, and a complete hand never fails. |
| `HandTracking.DetectGestures` | src/hand_tracking.py:16-56 | Fails exactly when some hand has fewer than 21 landmarks, and reports the first such hand. Otherwise each slot holds the gesture of the last hand routed to it: `"Right"` to the left slot, anything else to the right slot. |
| `HandTracking.SlotHoldsLastRoutedHand` | src/hand_tracking.py:29-54 | If hand k is routed to a slot and no later hand is, the slot holds hand k's gesture. |
| `HandTracking.UnroutedSlotIsEmpty` | src/hand_tracking.py:21-22 | A slot that no hand is routed to stays none. |
| `HandTracking.LaterHandOverwrites` | src/hand_tracking.py:51-54 | Appending a hand overwrites its own slot with its gesture and leaves the other slot unchanged. |
| `HandTracking.IsFist` | src/hand_tracking.py:141-146 | Defines the fist test: the mean of the four finger-tip distances to the palm centre (landmark 9) is strictly below the threshold. Its properties are stated by `FistDominates` and `TipsNearPalmIsStop`. |
| `HandTracking.IsFingerRaised` | src/hand_tracking.py:148-150 | Defines a raised finger: the tip is above the base by more than the threshold, strictly. Its properties are stated by `StrictThresholds` and `RaisedLoweredExclusive`. |
| `HandTracking.IsFingerLowered` | src/hand_tracking.py:152-154 | Defines a lowered finger: the tip is below the base by more than the threshold, strictly. Its properties are stated by `StrictThresholds` and `RaisedLoweredExclusive`. |
| `HandTracking.IsThumbExtended` | src/hand_tracking.py:156-158 | Defines an extended thumb: the absolute sideways offset of tip from base exceeds the threshold, strictly. Its properties are stated by `StrictThresholds` and `ThumbOnlyDirection`. |
| `HandTracking.AreFingersTouching` | src/hand_tracking.py:160-164 | Defines touching tips: the distance between them is strictly below the threshold. `PinchBySquaredDistance` states it on the squared distance. |
| `HandTracking.IsRightHand` | src/hand_tracking.py:78 | Defines geometric handedness: the thumb tip lies left of the pinky base. `PinkyOnlyHandedness` and `HandednessOnlyAffectsPinkyRule` state its effect. |
| `HandTracking.SlotGesture` | src/hand_tracking.py:29-54 | Defines the reference routing: the gesture of the last hand whose label routes it to the slot, or none. `SlotHoldsLastRoutedHand`, `UnroutedSlotIsEmpty` and `LaterHandOverwrites` characterise it, and `DetectGestures` is proved equal to it. |
| `Simulator.Direction` | src/simulator.py:168-179 | Defines the unit move each straight-line command string selects, and no move for any other string. `StraightCommandsMoveOneAxis` and `GestureNamesDriveStep` state its values. |
| `Simulator.Respond` | src/simulator.py:153-189 | Defines one drone's response: a none command skips the drone, and any other command is one `Step`. `CommandedDroneInBox` states its box property, and `Update` is proved against it. |
| `GestureRules.ClassifyIsFirstMatch` | src/hand_tracking.py:80-139 | The classifier's if-chain equals trying the eight rules of the table in order and taking the first whose guard holds. |
| `GestureRules.FirstMatchAt` | src/hand_tracking.py:80-139 | If rule j is the first rule from k on whose guard holds, trying rules from k yields rule j's gesture. |
| `GestureRules.FirstMatchNone` | src/hand_tracking.py:80-139 | Trying rules from k yields none exactly when no guard from k on holds. |
| `GestureRules.ClassifyIsPriorityOrdered` | src/hand_tracking.py:80-139 | The classifier returns g exactly when some rule yielding g holds and no earlier rule holds. |
| `GestureRules.ClassifyNoneIff` | src/hand_tracking.py:139 | The classifier returns none exactly when none of the eight guards holds. |
| `GestureRules.FistDominates` | src/hand_tracking.py:81-82 | A hand that agrees with a fist on the palm centre and the four finger tips is `STOP`, whatever its other landmarks. |
| `GestureRules.TipsNearPalmIsStop` | src/hand_tracking.py:141-146 | Take the Euclidean norm. If all four finger tips are within squared distance 0.1² of the palm centre, the hand is `STOP`. |
| `GestureRules.ForwardBeforeUp` | src/hand_tracking.py:84-116 | Thumb out, index raised, middle and pinky not raised, and no fist gives `FORWARD`, never `UP`. `UP` is returned exactly when there is no fist, the index alone is raised and the thumb is not extended. |
| `GestureRules.CircleRule` | src/hand_tracking.py:91-96 | `CIRCLE` is returned exactly when there is no fist, the thumb is out, the pinky is raised or lowered, and index and middle are not raised. |
| `GestureRules.ThumbOnlyDirection` | src/hand_tracking.py:98-109 | With the thumb alone extended, the result is `RIGHT` when the thumb tip is left of its base and `LEFT` otherwise, for either geometric handedness. |
| `GestureRules.PinkyOnlyHandedness` | src/hand_tracking.py:125-130 | With the pinky alone raised, the result is `LEFT` when the thumb tip is left of the pinky base (geometric right hand) and `RIGHT` otherwise. |
| `GestureRules.HandednessOnlyAffectsPinkyRule` | src/hand_tracking.py:78 | Moving the pinky base sideways can change the gesture only when the pinky-only rule decides both hands. |
| `GestureRules.BackwardLastResort` | src/hand_tracking.py:132-139 | `BACKWARD` is returned exactly when thumb and index tips touch, middle and pinky are not raised, and no earlier rule holds. The result is none exactly when neither this nor any earlier rule holds. |
| `GestureRules.PinchBySquaredDistance` | src/hand_tracking.py:160-164 | Under the Euclidean norm, thumb and index tips touch exactly when their squared distance is below 0.0064. |
| `GestureRules.StrictThresholds` | src/hand_tracking.py:148-158 | A tip exactly at base.y - t is not raised. A tip exactly at base.y + t is not lowered. A lateral offset of exactly t is not an extended thumb. |
| `GestureRules.RaisedLoweredExclusive` | src/hand_tracking.py:148-154 | With a non-negative threshold, a finger is never both raised and lowered. |
| `Vectors.LengthBelow` | src/hand_tracking.py:160-164 | A length is below a non-negative bound exactly when the squared norm is below the squared bound. |
| `Simulator.ClipScalar` | src/simulator.py:185-189 | The clipped value lies in [lo, hi]. A value already inside is kept; one below becomes lo, one above becomes hi. |
| `Simulator.Clip` | src/simulator.py:185-189 | The clipped position lies in the box, and a position already inside the box is unchanged. |
| `Simulator.ClipIdempotent` | src/simulator.py:185-189 | Clipping twice is the same as clipping once. |
| `Simulator.Step` | src/simulator.py:156-189 | After any command the drone is inside the box, and its colour is unchanged. |
| `Simulator.StraightCommandsMoveOneAxis` | src/simulator.py:168-179 | Before clipping, `UP`/`DOWN` change only y, `RIGHT`/`LEFT` only x, and `FORWARD`/`BACKWARD` only z, each by plus or minus the speed. |
| `Simulator.NonCircleCommandsLevel` | src/simulator.py:167-182 | Every command other than `CIRCLE`, recognised or not, resets the rotation to zero and keeps the circle angle. An unrecognised command moves the drone only by clipping. |
| `Simulator.StopHoldsPosition` | src/simulator.py:167-189 | `STOP` leaves a drone inside the box where it is and levels it. |
| `Simulator.CircleForgetsPosition` | src/simulator.py:156-166 | `CIRCLE` advances the angle by exactly the circle speed. The new x and z depend only on the drone index and the new angle, not on the old position. y, pitch and roll are kept, up to clipping. |
| `Simulator.CommandedDroneInBox` | src/simulator.py:153-189 | A drone that got a command ends inside the box. A drone with no command is returned exactly as it was, angle included and not even clipped, so it stays inside if it was. |
| `GestureCommands.GestureNamesDriveStep` | src/simulator.py:156-182 | Of the classifier's command names, only `CIRCLE` takes the circle branch. `UP`, `DOWN`, `LEFT`, `RIGHT`, `FORWARD` and `BACKWARD` select the unit vector along +y, -y, -x, +x, +z and -z respectively. `STOP` selects no move. |
| `GestureCommands.StraightNamesAreUnit` | src/simulator.py:168-179 | Each straight-line gesture's name selects a move of unit length, so before clipping the drone moves by exactly the speed. |
| `GestureCommands.StraightGestureMoves` | src/simulator.py:168-189 | A straight-line gesture's step is the clipped position with only the gesture's own coordinate changed, by plus or minus the speed in the gesture's direction. |
| `GestureCommands.StopGestureHolds` | src/simulator.py:180-189 | The `STOP` gesture holds a drone that is inside the box where it is, and only levels it. |
| `Simulator.DroneSimulator.constructor` | src/simulator.py:32-49 | Two drones at (-2,0,-10) red and (2,0,-10) blue, with zero rotation, both inside the box. Speed 0.1, gesture speed 0.15, circle radius 1.0, circle speed 0.05, circle angles 0 and 0. |
| `Simulator.DroneSimulator.Update` | src/simulator.py:151-189 | Drone i and circle angle i become the response to command i. Drones with a none command, or beyond the list, are unchanged, and so are the settings. Every drone stays inside the box. |
| `Simulator.DroneSimulator.Obey` | src/simulator.py:156-189 | One command changes only drone i and circle angle i, exactly as `Step` says. |

## Left out

- Camera frames, colour conversion, the hand detector and landmark drawing (`src/hand_tracking.py:6-19`, `:24-26`, `:36-46`) are foreign library calls and image I/O. The detector's output is an input sequence of (handedness label, landmark points). This assumes the detector's per-hand landmark and handedness lists line up.
- The loop that copies the landmark objects into an array (`src/hand_tracking.py:60-63`) only changes representation. The model takes the points as a sequence.
- The Euclidean norm, `cos`, `sin` and degree conversion are not computed. They are parameters, for the reasons given above.
- Floating-point arithmetic is modelled as exact real arithmetic.
- Rendering (`_setup_camera`, `render`, `draw_drone`, `_draw_cube`) and the pygame/OpenGL set-up in `__init__` are graphics side effects. The window width and height, used only by rendering, are not state here.
- Simulator.DroneSimulator.Update: requires that a non-none command appears only at a drone's index. The source raises an index error part-way through the update otherwise, and its only callers always pass two commands.
- `src/main.py` (camera loop, keyboard, the timed nod and shake sequences), `src/voice_processor.py` (audio and speech recognition) and `src/llm_interface.py` (network call) are I/O plumbing and are not part of this model.

# Exercise tracker repetition counter

This project models the repetition-counting core of a camera-driven gym
exercise tracker. The tracker object (`ExerciseTracker`) holds two mutable
fields. `counter` is the number of repetitions. `stage` is either unset or
one of the literal labels `"up"` and `"down"`. All four exercises share the
same `stage`.

Each frame either has no detected pose or yields one joint angle. For push-ups,
dumbbell lifts, bicep curls and tricep extensions, a per-exercise rule runs two
tests in order:

- An angle in the exercise's arm region stores the exercise's armed label,
  whatever the stage was.
- An angle in its fire region, with the armed label stored, stores the fired
  label and adds one to the counter.

All thresholds are strict:

| exercise | arm region | armed label | fire region | fired label |
|---|---|---|---|---|
| push-up | > 160 | up | < 90 | down |
| dumbbell lift | < 30 | down | > 150 | up |
| bicep curl | > 160 | down | < 50 | up |
| tricep extension | < 30 | up | > 150 | down |

Modules:

- `ExerciseRules` (exercise_rules.dfy) holds the types and the pure
  specification of one step. `NextState` applies one angle. `AfterFrame`
  applies one frame, and a frame without a pose changes nothing.
  `AfterFrames` applies a sequence of frames. The same module holds the
  display values and the one-step lemmas.
- `SessionProperties` (session_properties.dfy) proves lemmas about whole
  sequences of frames, by induction.
- `Tracker` (tracker.dfy) holds the class `ExerciseTracker`. Its `counter` and
  `stage` fields are updated in place by one method per exercise, by
  `ProcessFrame` and by the frame loop `RunSession`. Each method is proved
  equal to the specification function of the step it performs.

An angle is `Degrees(d)` or `NaN`. `NaN` is the not-a-number float, and it
fails every comparison, as it does in Python. How the angle is computed from
landmarks is not modelled.

Two details of the code matter here:

- All thresholds are strict. The code tests `angle > 160`, so an angle of
  exactly 160 arms neither a push-up nor a bicep curl.
- The stage stores the literal strings `"up"` and `"down"`. Which of them
  means "armed" depends on the exercise. Because the stage is shared,
  changing the exercise between frames carries the label over
  (`StageCarriesAcrossExercises`).

## Model

| member | source | states |
|---|---|---|
| `ExerciseRules.Initial` | tracker.py:20-21 | a fresh tracker's state has counter 0 and no stage |
| `ExerciseRules.Name` | tracker.py:7-11 | every exercise has a non-empty display name, its enumeration value |
| `ExerciseRules.NamesDistinct` | tracker.py:7-11 | two exercises have the same display name if and only if they are the same exercise |
| `ExerciseRules.CaloriesPerMinute` | tracker.py:23-28 | every exercise's calorie rate lies between 5 and 8 per minute, and only push-ups burn 8 |
| `ExerciseRules.FiredLabel` | tracker.py:80-132 | the label a counted repetition stores is never the label that arms the same exercise |
| `ExerciseRules.NextState` | tracker.py:80-132 | one tracking step raises the counter by at most one; a counted step stores the exercise's fired label; a step that counts nothing leaves the stage as it was or stores the armed label |
| `ExerciseRules.AfterFrame` | tracker.py:47-64 | a frame without a detected pose leaves the state unchanged; any frame raises the counter by at most one and never lowers it |
| `ExerciseRules.AfterFrames` | main.py:39-45 | over any sequence of frames the counter never decreases and rises by at most the number of frames |
| `ExerciseRules.LabelText` | tracker.py:151 | no stored label displays as "N/A" |
| `ExerciseRules.StageText` | tracker.py:151 | the stage text is "N/A" exactly when no stage is set |
| `ExerciseRules.TotalWeight` | tracker.py:144-145 | a total weight is shown exactly for dumbbell lifts; it is a multiple of 10 and dividing it by 10 gives back the counter |
| `ExerciseRules.StageTextDistinguishes` | tracker.py:151 | different stages give different stage texts |
| `ExerciseRules.RegionsPartition` | tracker.py:80-132 | no angle is in both an exercise's arm region and its fire region; the defined angles in neither region are exactly the dead band, boundaries included |
| `ExerciseRules.StepCounts` | tracker.py:80-132 | one step raises the counter by one exactly when the stage held the armed label and the angle is in the fire region; otherwise the counter is unchanged; after a counted step the stage holds the fired label |
| `ExerciseRules.ArmStep` | tracker.py:80-132 | an arm-region angle stores the armed label whatever the prior stage was, and leaves the counter unchanged |
| `ExerciseRules.ArmedAfterStep` | tracker.py:80-132 | after a step the stage is armed if and only if the angle armed, or the stage was armed and the angle did not fire |
| `ExerciseRules.UnarmedFireNoCount` | tracker.py:80-132 | a fire-region angle while the stage is not armed (for example unset) changes neither stage nor counter |
| `ExerciseRules.DeadBandNoOp` | tracker.py:80-132 | an angle in the dead band (push-up [90,160], dumbbell and tricep [30,150], bicep [50,160]) changes nothing |
| `ExerciseRules.NaNNoOp` | tracker.py:80-132 | a NaN angle changes neither stage nor counter |
| `ExerciseRules.NoPoseNoOp` | tracker.py:47-64 | a frame with no detected pose leaves the state exactly as it was |
| `ExerciseRules.StageCarriesAcrossExercises` | tracker.py:80-132 | a push-up arm at 170 followed by a tricep-extension frame at 160 counts one repetition and leaves "down", because the stage is shared and literal |
| `SessionProperties.AfterFramesAppend` | main.py:39-45 | processing frames in two consecutive batches gives the same state as processing them all at once |
| `SessionProperties.PrefixMonotone` | main.py:39-45 | the counter after a longer prefix of a session is at least the counter after a shorter prefix |
| `SessionProperties.NoPoseFramesNoOp` | tracker.py:47-64 | a run of frames with no detected pose leaves stage and counter exactly as they were |
| `SessionProperties.ArmOnlyNeverCounts` | tracker.py:80-132 | feeding only arm-region angles never changes the counter and leaves the armed label |
| `SessionProperties.RepNeedsArmThenFire` | tracker.py:80-132 | starting unarmed, the stage becomes armed only after an arming frame, and the counter rises only if an arming frame is followed later by a firing frame |
| `SessionProperties.ArmedStaysArmed` | tracker.py:80-132 | from an armed state, the stage is still armed at the end of any sequence of frames unless the counter rose |
| `SessionProperties.ArmedAfterArm` | tracker.py:80-132 | after an arming frame the stage is still armed at the end of the session unless a repetition was counted after that frame |
| `SessionProperties.ArmThenFireCounts` | tracker.py:80-132 | an arming frame followed later by a firing frame makes the counter rise |
| `SessionProperties.RepIffArmThenFire` | tracker.py:80-132 | starting unarmed, for example from a fresh tracker, a session counts a repetition if and only if an arming frame is followed later by a firing frame |
| `SessionProperties.PushupSession` | tracker.py:80-84 | push-up angles 170, 175, 80, 85, 165, 70 from a fresh tracker end with counter 2 and stage "down" |
| `SessionProperties.DumbbellSession` | tracker.py:96-100 | dumbbell angles 20, 160, 25, 155 from a fresh tracker end with counter 2 and stage "up" |
| `SessionProperties.MissingPoseSession` | tracker.py:41-64 | a first frame without a pose is skipped, and push-up angles 170, 80 then count one repetition |
| `Tracker.ExerciseTracker.constructor` | tracker.py:14-21 | a new tracker has counter 0 and no stage |
| `Tracker.ExerciseTracker.TrackPushup` | tracker.py:70-84 | the new counter and stage are the push-up step applied to the old ones |
| `Tracker.ExerciseTracker.TrackDumbbell` | tracker.py:86-100 | the new counter and stage are the dumbbell step applied to the old ones |
| `Tracker.ExerciseTracker.TrackBicepCurl` | tracker.py:102-116 | the new counter and stage are the bicep-curl step applied to the old ones |
| `Tracker.ExerciseTracker.TrackTricepExtension` | tracker.py:118-132 | the new counter and stage are the tricep-extension step applied to the old ones |
| `Tracker.ExerciseTracker.ProcessFrame` | tracker.py:41-64 | the chosen exercise's rule runs only when a pose was detected; a frame without a pose changes nothing; the counter rises by at most one |
| `Tracker.ExerciseTracker.UpdateDisplay` | tracker.py:134-153 | the overlay shows the exercise name, the counter, the total weight for dumbbell lifts only, and the stage text ("N/A" while unset) |
| `Tracker.ExerciseTracker.RunSession` | main.py:39-50 | processing a sequence of frames in order leaves the state given by the session function, and the counter never decreases |

## Left out

- Angle computation from three landmarks (`calculate_angle`) is not modelled. It is floating-point `arctan2` numerics. The angle is an input value, `Degrees(d)` or `NaN`.
- Pose estimation and landmark extraction are not modelled. They come from an external machine-learning library. A frame is either "no pose" or "pose with one joint angle". A pose that lacks a needed landmark is not modelled separately.
- Image colour conversion, landmark drawing and text overlays are not modelled. Only the values the overlay shows are modelled (`UpdateDisplay`).
- Command-line parsing, the mapping from exercise names to exercise types, camera capture, the display window and key handling are I/O and are not modelled. `RunSession` takes the captured frames as a sequence.
- The end-of-session calorie estimate is not modelled. It multiplies wall-clock elapsed time by the rate, in floating point. Only the rate table (`CaloriesPerMinute`) is modelled. The estimate does not depend on the counter.
- The session start time is not modelled. It is a wall-clock reading that only the calorie estimate uses.

# Exercise recognition engine of the pose-tracking page

A Dafny model of the exercise engine in `script.js`. Each video frame gives a
pose estimate. If the estimate is confident enough, the engine labels the frame
as one of `none`, `squats`, `lunges`, `plank` or `pushups`. A transition guard
changes the committed exercise no more often than every two seconds. The
committed exercise's repetition machine or the plank timer then moves, and a
coaching message is picked from the committed exercise and its phase.

Modules (one file each):

- `Wrappers`: `Option` and `Result`.
- `Geometry`: points and the angle at a joint (`calculateAngle`). The
  arccosine branch is a caller-supplied function `Trig`. The zero-length guard
  returns 180 degrees. It is written as a test that the two end points of a
  ray coincide.
- `Keypoints`: body parts, keypoints, poses, and `Find` (the `find` lookup by
  part name).
- `Classifier`: `detectExerciseFromPose`. It is a visibility gate on hips and
  knees, feature extraction (knee, body-line and elbow angles), and a table of
  rules tried in the order plank, lunges, squats, push-ups.
- `Engine`: the module globals as one `SessionState` value. Also the pure
  transition functions for `updateCounters`, `updateExercise`,
  `resetCounters`, the `updateFeedback` choice and one pass of `detectPose`,
  with the lemmas about them.
- `Tracker`: class `Session`. Its fields are the globals of `script.js` lines
  11-18. Its methods update them in place, and each is proved to compute the
  matching `Engine` function.

Time is an explicit parameter `now` (milliseconds) in place of `Date.now()`.
The pose estimator's output (score, keypoints with scores and positions) is an
input.

What `script.js` does on an exercise change, as modelled:
- Each frame's label goes straight to the transition guard. Labels are not
  smoothed over several frames, and the session is never reset for
  inactivity. Only `resetCounters` resets it; it runs when the reset button
  is pressed and on every camera start (lines 89 and 142).
- On an exercise change the repetition count, the three phases and
  `plankTime` keep their values. Only the plank start time is set or cleared,
  although a comment at line 431 says the counters are reset.
- The plank rule tests the body-line angle and the average knee angle, and
  nothing else. The squat rule tests the average knee angle and the knee
  difference, and nothing else. The push-up rule is tried last.

Behaviours of the code the model keeps exactly:
- The push-up rule reads both shoulder positions without testing that they
  exist (line 385). When elbows and wrists are found but a shoulder is not,
  `script.js` throws. `detectPose` catches the error (lines 271-274), so the frame
  changes no state and leaves the message as it was. This is
  `Err(ShoulderMissing)` in the model.
- `if (plankStartTime)` (line 486) is JavaScript truthiness, so a start time of
  0 counts as unset (`StartRecorded`).
- `Math.floor((now - start) / 1000)` is Dafny's `/` by a positive divisor,
  which rounds down for negative differences too.
- `updateCounters` uses the label of the frame, not the committed one. It runs
  only after the guard has admitted that label, so the two are equal.

## Model

| member | source | states |
|---|---|---|
| Keypoints.FindFirst | script.js:336-347 | a lookup by part finds nothing exactly when no keypoint names the part, and otherwise returns the first keypoint naming it |
| Geometry.CalculateAngle | script.js:398-407 | a ray of zero length (its end points coincide) gives 180 degrees; otherwise the angle is the arccosine branch applied to the squared side lengths ab², bc² and ac² of lines 399-401 |
| Geometry.SqDistSymmetric | script.js:399-401 | the squared distance under each square root does not depend on the order of its two points |
| Geometry.AngleSymmetric | script.js:398-407 | swapping the two outer points leaves the angle unchanged, for an arccosine branch whose quotient is symmetric in the two ray lengths |
| Keypoints.PositionOrFirst | script.js:356-366 | `kp?.position` with a fallback is the fallback when no keypoint names the part, and otherwise the position of the first keypoint naming it |
| Classifier.KneeAngle | script.js:356-357 | with the ankle missing the knee angle is exactly 180 degrees; with it present the angle is the one at the knee between hip and ankle |
| Classifier.BodyAngle | script.js:362-366 | with the left shoulder missing the body-line angle is exactly 180 degrees; with it present, the angle at the left hip between the shoulder and the ankle, or the knee when the ankle is missing |
| Classifier.ArmsOf | script.js:383-386 | elbow angles are read exactly when both shoulders, elbows and wrists are present, and they are the two shoulder-elbow-wrist angles; elbows and wrists present with a shoulder missing is the TypeError case of line 385 |
| Classifier.ExtractFeatures | script.js:356-386 | each knee angle is the hip-knee-ankle angle when its ankle is present and 180 when it is missing; the body line is the left shoulder-hip-ankle angle, with the knee standing in for a missing ankle, and 180 without the left shoulder; and the arm reading is exactly `ArmsOf`'s: the two elbow angles, the missing-shoulder case, or nothing |
| Classifier.Classify | script.js:368-394 | a label is returned only when its rule matches; the only error is the push-up rule reaching missing shoulders |
| Classifier.FirstMatch | script.js:368-394 | the first rule that does not decline decides: a label is returned only if its rule matches and every earlier rule declines; an error only if the push-up rule crashes after all earlier rules declined; 'none' exactly when every rule declines |
| Classifier.DetectExercise | script.js:332-395 | a frame whose hips or knees are missing or score below 0.3 is 'none'; any other outcome implies both hips and both knees are usable |
| Classifier.ClassifyPrecedence | script.js:368-394 | plank iff body > 160 and average knee > 150; else lunges iff knee difference > 40 and a knee < 120; else squats iff average knee < 120 and difference < 30; else push-ups iff all arm points are present, average elbow < 100 and body < 150; the error iff a shoulder is missing there; otherwise 'none' |
| Classifier.GateIgnoresAngles | script.js:350-353 | when the gate fails, the result is 'none' whatever the angle computation yields (no angle is consulted) |
| Classifier.NoShoulderFrame | script.js:362-391 | without a left shoulder a gated frame is plank exactly when the knees average above 150, and is never push-ups |
| Classifier.FeaturesInDegrees | script.js:356-366 | if the angle computation yields values in [0, 180], so do both knee angles and the body-line angle |
| Classifier.RulesExclusive | script.js:368-391 | for knee angles in [0, 180] the plank, lunge and squat rules never match together, nor do plank and push-ups, so the fixed order only matters between push-ups and the leg exercises |
| Engine.Initial | script.js:11-18 | the initial state counts nothing, has label 'none' and timer 0, satisfies the plank invariant, and shows the invitation to start |
| Engine.Advance | script.js:465-471 | a machine changes phase only up→down on the descend condition or down→up on the rise condition; a repetition is counted exactly on down→up |
| Engine.BandsDisjoint | script.js:465-467 | no frame both sends a machine down and brings it up: squat knees < 90 vs > 160, lunge difference > 60 vs < 30, push-up elbows < 70 vs > 150 |
| Engine.RepsBoundedByDescents | script.js:463-524 | over any sequence of frames a machine counts at most one repetition per frame entering the down band, plus one if it started down |
| Engine.NoDescentNoRep | script.js:463-524 | frames that never enter the down band, oscillating between the bands, count nothing and leave an 'up' machine 'up' |
| Engine.ReadingsOf | script.js:445-512 | the counters read knee angles exactly when both knees are present, and they are the left and right knee angles; elbow angles exactly when the knees are read and both shoulders, elbows and wrists are present, and they are the arm angles of `ArmsOf` |
| Engine.ReadingsWithKnees | script.js:445-512 | with both knees present the readings are the two knee angles, and the two elbow angles when all six arm points are present |
| Engine.ApplyCounters | script.js:444-525 | nothing changes without both knees; the label, the change time and the plank start are never touched; only the machine of the frame's label moves, and the timer only for plank. The squat machine changes phase exactly when it is up with a knee below 90, or down with both knees above 160. The lunge machine changes exactly when it is up with a knee difference above 60, or down with one below 30. The push-up machine changes exactly when it is up with an elbow below 70, or down with both above 150, and does nothing without elbow readings. The count rises by one exactly on a down→up move of the label's machine and otherwise stays. A plank frame sets the timer to the whole seconds since a recorded start and leaves it alone when the start is unset or 0 |
| Engine.UpdateExercise | script.js:410-441 | the committed label either stays, with its change time and plank start, or becomes the frame's label (never 'none') at time `now`, at least 2000 ms after the last change |
| Engine.PlankSecondsFloor | script.js:487 | the plank time is the floor of the elapsed milliseconds over 1000 |
| Engine.PlankSecondsMonotone | script.js:487 | the plank time does not decrease as `now` grows, and is non-negative once `now` is past the start |
| Engine.IgnoredLabels | script.js:411-416 | a 'none' label, or a different label less than 2000 ms after the last change, leaves every field unchanged |
| Engine.CommitCarriesCounters | script.js:414-440 | a committed change sets the label, the change time to `now`, and the plank start to `now` for plank and to unset otherwise; the count and the phases carry over and only the new exercise's machine moves |
| Engine.PlankCommitStartsAtZero | script.js:432-433 | committing to plank sets the start to `now`, so the counters immediately show 0 seconds |
| Engine.UpdateExercisePreservesValid | script.js:414-436 | the guard keeps the invariant: a plank start is recorded exactly while plank is committed, and equals the time of that commit |
| Engine.DwellSeparatesChanges | script.js:414-419 | two committed changes are at least 2000 ms apart |
| Engine.PlankTimerStep | script.js:485-490 | while plank stays committed, its start is kept and the timer never decreases; a plank frame sets it to the whole seconds since the commit |
| Engine.LeavingPlankClearsStart | script.js:431-436 | changing away from plank clears the plank start |
| Engine.SquatCycleCountsOne | script.js:464-471 | knee angles 170, 85, 170 with squats committed count exactly one repetition |
| Engine.FeedbackFor | script.js:528-553 | 'start exercising' exactly when nothing is committed; for squats, lunges and push-ups the 'rise' or 'return' message exactly when the machine is down and the 'lower' or 'step' message otherwise; for plank the seconds held; never the weak-pose message |
| Engine.FeedbackShowsFocus | script.js:528-553 | two states get the same message exactly when they agree on the committed exercise and its phase (for plank, its seconds) |
| Engine.OnFrame | script.js:248-274 | a frame is active exactly when the pose scores above 0.2 and the classifier does not throw; an inactive frame changes nothing; a pose scoring at most 0.2 shows the stand-in-frame message; the status reports a detection error exactly when the pose passes the gate and the classifier throws, and exactly then the message is left alone; and an active frame shows the feedback for its new state |
| Engine.UnchangedFrames | script.js:249-274 | a pose scoring at most 0.2, a classifier error, a 'none' label, or a change within the dwell time changes no field |
| Engine.UpdateMovesOnlyCommitted | script.js:410-525 | per label the count rises by at most one, and it rises exactly on a down→up move of the committed exercise's machine; other machines and, away from plank, the timer do not move |
| Engine.FrameMovesOnlyCommitted | script.js:249-263 | the same per frame of the detection loop |
| Engine.OnFramePreservesValid | script.js:249-263 | a frame keeps the plank invariant |
| Engine.RunRepBounds | script.js:233-280 | over any run of frames the count never decreases and rises by at most one per frame |
| Engine.RunPreservesValid | script.js:233-280 | the plank invariant holds along any run of frames from a valid state |
| Engine.RunWithinDwellKeepsExercise | script.js:414-419 | over any run of frames all earlier than 2000 ms after the last change, the committed exercise and its change time stay as they were |
| Engine.RunKeepsPlankSince | script.js:414-441 | along a run with a clock that never goes backwards, any plank start recorded later is no earlier, and while the original start is kept the timer stays between its starting value and the whole seconds elapsed |
| Engine.LabelledFrameStep | script.js:249-263 | a frame labelled with the committed squats or lunges advances exactly that machine on the frame's knee angles and adds its repetition to the count |
| Engine.RunFollowsMachine | script.js:233-280 | over any run of frames all labelled with the committed squats or lunges, the session's count and that machine's phase are exactly those of the machine run alone on the frames' knee angles |
| Engine.OscillationCountsNothing | script.js:463-483 | with squats or lunges committed and 'up', frames labelled so that never enter the down band leave the count and the phase unchanged, however they oscillate |
| Engine.PlankTimerNeverDecreases | script.js:485-490 | with a clock that never goes backwards, a run that ends with the same plank start has a plank timer no smaller than at its beginning, whatever labels arrive in between |
| Tracker.Session.constructor | script.js:11-18 | the fields start as the initial state with the load time as the last change |
| Tracker.Session.ResetCounters | script.js:213-221 | count 0, plank time 0, no plank start, label 'none', last change `now`, all three phases 'up' |
| Tracker.Session.CountSquat | script.js:464-472 | the new fields are those `ApplyCounters` gives for squats on the two knee angles |
| Tracker.Session.CountLunge | script.js:474-483 | the new fields are those `ApplyCounters` gives for lunges on the knee difference |
| Tracker.Session.CountPlank | script.js:485-490 | the new fields are those `ApplyCounters` gives for plank |
| Tracker.Session.CountPushup | script.js:514-520 | the new fields are those `ApplyCounters` gives for push-ups on the two elbow angles |
| Tracker.Session.CountPushupFrame | script.js:492-523 | the new fields are those `ApplyCounters` gives for push-ups on the frame's readings |
| Tracker.Session.UpdateCounters | script.js:444-525 | the new fields are `ApplyCounters` of the old ones for the pose's readings |
| Tracker.Session.UpdateExercise | script.js:410-441 | the new fields are `Engine.UpdateExercise` of the old ones; 'none' changes nothing; the plank invariant is kept |
| Tracker.Session.DetectPose | script.js:248-274 | the new fields, the status and the message are those of `OnFrame`; the plank invariant is kept |

## Left out

- Camera and media acquisition (`startCamera`, `stopCamera`). These are browser I/O.
- Loading the pose model and `estimateSinglePose`. This is a foreign library, so the pose is an input.
- The `requestAnimationFrame` loop and its guard on the model and the camera. One call of `DetectPose` is one frame.
- Skeleton drawing and every DOM text or colour write. The exercise name, the rep and timer texts and the confidence percentage (`Math.round(pose.score * 100)`) are all display.
- Photo analysis (`analyzePhoto`). It is file I/O. It applies the same 0.2 gate and classifier to a still image and does not touch the session fields.
- The zero-length test of `calculateAngle` (`ab === 0 || bc === 0`, line 403) is modelled as the point-equality test `a == b || c == b`. Over the reals a square root is zero exactly when its argument is, and a sum of two squares is zero exactly when both differences are. That equivalence is argued here, not proved in Dafny, because the solver does not prove these nonlinear real facts.
- The square roots and arccosine of `calculateAngle`. These are floating point. The non-degenerate angle is the uninterpreted `Trig` input applied to the three squared side lengths, so the model proves nothing about its range unless a lemma assumes one.
- Geometry.AngleSymmetric: the symmetry of the law-of-cosines quotient in the two ray lengths (line 405) is a premise (`RaySymmetric`), because the square roots and the arccosine are not modelled. What is proved is that the squared distances and the guard are symmetric.
- Floating-point effects: NaN from the arccosine, and squares that underflow to a zero length. Angles, scores and thresholds are exact reals.
- `Date.now()` is read several times in one frame (lines 416, 419, 433, 487). The model uses one `now` per frame.
- Tracker.Session.UpdateCounters: does not model the TypeError for a missing hip once both knees are found. It requires that a hip is then present, which every caller guarantees because the classifier gate has already checked the hips.
- JavaScript numbers are doubles. The count is an unbounded `nat`, and the times are unbounded integers.

/**
 * The engine as the page runs it: the module-level globals are the fields of
 * one `Session` object, and `resetCounters`, `updateCounters`,
 * `updateExercise` and the body of `detectPose` update them in place. Each
 * method is proved to compute the corresponding function of module Engine.
 */
module Tracker {
  import opened Wrappers
  import opened Geometry
  import opened Keypoints
  import opened Classifier
  import opened Engine

  class Session {
    var repCount: nat
    var plankTime: int
    var plankStartTime: Option<int>
    var currentExercise: Exercise
    var lastExerciseChange: int
    var squatState: Phase
    var lungeState: Phase
    var pushupState: Phase

    /** The fields as one value. */
    function State(): SessionState
      reads this
    {
      SessionState(repCount, plankTime, plankStartTime, currentExercise,
                   lastExerciseChange, squatState, lungeState, pushupState)
    }

    ghost predicate Valid()
      reads this
    {
      Engine.Valid(State())
    }

    /** The globals as the page loads them, `now` being the load time. */
    constructor (now: int)
      ensures State() == Initial(now) && Valid()
    {
      repCount := 0;
      plankTime := 0;
      plankStartTime := None;
      currentExercise := NoExercise;
      lastExerciseChange := now;
      squatState := Up;
      lungeState := Up;
      pushupState := Up;
    }

    /** `resetCounters`: back to the initial values, the change time being `now`. */
    method ResetCounters(now: int)
      modifies this
      ensures repCount == 0 && plankTime == 0 && plankStartTime == None
      ensures currentExercise == NoExercise && lastExerciseChange == now
      ensures squatState == Up && lungeState == Up && pushupState == Up
      ensures State() == Initial(now) && Valid()
    {
      repCount := 0;
      plankTime := 0;
      plankStartTime := None;
      currentExercise := NoExercise;
      lastExerciseChange := now;
      squatState := Up;
      lungeState := Up;
      pushupState := Up;
    }

    /** The squat machine of `updateCounters` on the two knee angles `rd` holds. */
    method CountSquat(leftKneeAngle: real, rightKneeAngle: real, ghost rd: Readings, ghost now: int)
      requires rd.knees == Some(Sides(leftKneeAngle, rightKneeAngle))
      modifies this
      ensures State() == ApplyCounters(old(State()), Squats, rd, now)
    {
      if squatState == Up && (leftKneeAngle < SquatDownBelow || rightKneeAngle < SquatDownBelow) {
        squatState := Down;
      } else if squatState == Down && leftKneeAngle > SquatUpAbove && rightKneeAngle > SquatUpAbove {
        squatState := Up;
        repCount := repCount + 1;
      }
    }

    /** The lunge machine of `updateCounters` on the difference of the knee angles `rd` holds. */
    method CountLunge(leftKneeAngle: real, rightKneeAngle: real, ghost rd: Readings, ghost now: int)
      requires rd.knees == Some(Sides(leftKneeAngle, rightKneeAngle))
      modifies this
      ensures State() == ApplyCounters(old(State()), Lunges, rd, now)
    {
      var kneeDiff := Abs(leftKneeAngle - rightKneeAngle);
      if lungeState == Up && kneeDiff > LungeDownAbove {
        lungeState := Down;
      } else if lungeState == Down && kneeDiff < LungeUpBelow {
        lungeState := Up;
        repCount := repCount + 1;
      }
    }

    /** The plank timer of `updateCounters`, on a frame where `rd` read both knees. */
    method CountPlank(ghost rd: Readings, now: int)
      requires rd.knees.Some?
      modifies this
      ensures State() == ApplyCounters(old(State()), Plank, rd, now)
    {
      if StartRecorded(plankStartTime) {
        plankTime := (now - plankStartTime.value) / MillisPerSecond;
      }
    }

    /** The push-up machine of `updateCounters` on the two elbow angles `rd` holds. */
    method CountPushup(leftElbowAngle: real, rightElbowAngle: real, ghost rd: Readings, ghost now: int)
      requires rd.knees.Some? && rd.elbows == Some(Sides(leftElbowAngle, rightElbowAngle))
      modifies this
      ensures State() == ApplyCounters(old(State()), Pushups, rd, now)
    {
      if pushupState == Up && (leftElbowAngle < PushupDownBelow || rightElbowAngle < PushupDownBelow) {
        pushupState := Down;
      } else if pushupState == Down && leftElbowAngle > PushupUpAbove && rightElbowAngle > PushupUpAbove {
        pushupState := Up;
        repCount := repCount + 1;
      }
    }

    /**
     * The push-up branch of `updateCounters`: elbows first, then shoulders
     * and wrists, then the machine on the two elbow angles.
     */
    method CountPushupFrame(pose: Pose, trig: Trig, now: int)
      requires CountersReadable(pose) && Present(pose, LeftKnee) && Present(pose, RightKnee)
      modifies this
      ensures State() == ApplyCounters(old(State()), Pushups, ReadingsOf(pose, trig), now)
    {
      ReadingsWithKnees(pose, trig);
      ghost var rd := ReadingsOf(pose, trig);
      if Present(pose, LeftElbow) && Present(pose, RightElbow) {
        if Present(pose, LeftShoulder) && Present(pose, RightShoulder) &&
           Present(pose, LeftWrist) && Present(pose, RightWrist) {
          var leftElbowAngle := ElbowAngle(pose, trig, LeftShoulder, LeftElbow, LeftWrist);
          var rightElbowAngle := ElbowAngle(pose, trig, RightShoulder, RightElbow, RightWrist);
          CountPushup(leftElbowAngle, rightElbowAngle, rd, now);
          return;
        }
      }
      assert rd.elbows == None;
    }

    /** `updateCounters(exercise, pose)`. */
    method UpdateCounters(exercise: Exercise, pose: Pose, now: int, trig: Trig)
      requires CountersReadable(pose)
      modifies this
      ensures State() == ApplyCounters(old(State()), exercise, ReadingsOf(pose, trig), now)
    {
      if !(Present(pose, LeftKnee) && Present(pose, RightKnee)) {
        return;
      }
      var leftKneeAngle := LeftKneeAngle(pose, trig);
      var rightKneeAngle := RightKneeAngle(pose, trig);
      ghost var rd := ReadingsOf(pose, trig);
      match exercise {
        case Squats =>
          CountSquat(leftKneeAngle, rightKneeAngle, rd, now);
        case Lunges =>
          CountLunge(leftKneeAngle, rightKneeAngle, rd, now);
        case Plank =>
          CountPlank(rd, now);
        case Pushups =>
          CountPushupFrame(pose, trig, now);
        case NoExercise =>
      }
    }

    /** `updateExercise(exercise, pose)`: the transition guard, then the counters. */
    method UpdateExercise(exercise: Exercise, pose: Pose, now: int, trig: Trig)
      requires exercise != NoExercise ==> CountersReadable(pose)
      modifies this
      ensures exercise == NoExercise ==> State() == old(State())
      ensures exercise != NoExercise ==>
                State() == Engine.UpdateExercise(old(State()), exercise, ReadingsOf(pose, trig), now)
      ensures old(Valid()) ==> Valid()
    {
      if exercise == NoExercise {
        return;
      }
      ghost var before := State();
      if exercise != currentExercise {
        if now - lastExerciseChange < DwellMillis {
          return;
        }
        currentExercise := exercise;
        lastExerciseChange := now;
        if exercise == Plank {
          plankStartTime := Some(now);
        } else {
          plankStartTime := None;
        }
      }
      UpdateCounters(exercise, pose, now, trig);
      if Engine.Valid(before) {
        UpdateExercisePreservesValid(before, exercise, ReadingsOf(pose, trig), now);
      }
    }

    /**
     * One pass of `detectPose` with the estimated `pose`: the status line and
     * the message shown (None when the message is left as it was).
     */
    method DetectPose(pose: Pose, now: int, trig: Trig) returns (status: Status, feedback: Option<Feedback>)
      modifies this
      ensures FrameResult(State(), status, feedback) == OnFrame(old(State()), pose, now, trig)
      ensures old(Valid()) ==> Valid()
    {
      if !(pose.score > PoseScoreAbove) {
        return NoPose, Some(StandInFrame);
      }
      var exercise := DetectExercise(pose, trig);
      match exercise {
        case Err(_) =>
          return DetectionFailed, None;
        case Ok(e) =>
          UpdateExercise(e, pose, now, trig);
          return Active, Some(FeedbackFor(State()));
      }
    }
  }
}

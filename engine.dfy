/**
 * The session engine as pure functions over the session state: the rep
 * machines and plank timer (`updateCounters`), the transition guard
 * (`updateExercise`), the feedback choice (`updateFeedback`) and the
 * per-frame step of the detection loop. The class in module Tracker keeps
 * this state in fields and is proved to follow these functions.
 */
module Engine {
  import opened Wrappers
  import opened Geometry
  import opened Keypoints
  import opened Classifier

  /** The phase of a repetition machine ('up' or 'down'). */
  datatype Phase = Up | Down

  /** The module-level globals of the engine. Times are milliseconds. */
  datatype SessionState = SessionState(
    repCount: nat,
    plankTime: int,
    plankStartTime: Option<int>,
    currentExercise: Exercise,
    lastExerciseChange: int,
    squatState: Phase,
    lungeState: Phase,
    pushupState: Phase)

  /** A pose scoring at most this is not analysed at all. */
  const PoseScoreAbove: real := 0.2
  /** Minimum time between two committed exercise changes. */
  const DwellMillis: int := 2000
  const MillisPerSecond: int := 1000

  const SquatDownBelow: real := 90.0
  const SquatUpAbove: real := 160.0
  const LungeDownAbove: real := 60.0
  const LungeUpBelow: real := 30.0
  const PushupDownBelow: real := 70.0
  const PushupUpAbove: real := 150.0

  /**
   * The state at page load and after `resetCounters`: nothing counted, no
   * exercise committed, the plank invariant holds and the page invites the
   * user to start.
   */
  function Initial(now: int): (s: SessionState)
    ensures Valid(s)
    ensures s.repCount == 0 && s.plankTime == 0 && s.currentExercise == NoExercise
    ensures FeedbackFor(s) == StartExercising
  {
    SessionState(0, 0, None, NoExercise, now, Up, Up, Up)
  }

  /**
   * The invariant the guard keeps: a plank start time is recorded exactly
   * while plank is the committed exercise, and it is the time of that commit.
   */
  predicate Valid(s: SessionState)
  {
    && (s.currentExercise == Plank <==> s.plankStartTime.Some?)
    && (s.plankStartTime.Some? ==> s.plankStartTime.value == s.lastExerciseChange)
  }

  // ---------------------------------------------------------------------
  // Repetition machines

  /** What one frame tells a two-phase machine: whether to go down, whether to come up. */
  datatype Trigger = Trigger(descend: bool, rise: bool)

  /** The machine's next phase and whether this frame completed a repetition. */
  datatype Stroke = Stroke(phase: Phase, rep: bool)

  /**
   * One step of an 'up'/'down' machine: up goes down on `descend`, down comes
   * back up on `rise`, and coming back up completes a repetition.
   */
  function Advance(p: Phase, t: Trigger): (st: Stroke)
    ensures st.rep <==> p == Down && st.phase == Up
    ensures st.phase != p <==> (p == Up && t.descend) || (p == Down && t.rise)
  {
    match p
    case Up => if t.descend then Stroke(Down, false) else Stroke(Up, false)
    case Down => if t.rise then Stroke(Up, true) else Stroke(Down, false)
  }

  function Bump(st: Stroke): nat
  {
    if st.rep then 1 else 0
  }

  /** A left and a right angle. */
  datatype Sides = Sides(left: real, right: real)

  function SquatTrigger(knees: Sides): Trigger
  {
    Trigger(knees.left < SquatDownBelow || knees.right < SquatDownBelow,
            knees.left > SquatUpAbove && knees.right > SquatUpAbove)
  }

  function LungeTrigger(knees: Sides): Trigger
  {
    var diff := Abs(knees.left - knees.right);
    Trigger(diff > LungeDownAbove, diff < LungeUpBelow)
  }

  function PushupTrigger(elbows: Sides): Trigger
  {
    Trigger(elbows.left < PushupDownBelow || elbows.right < PushupDownBelow,
            elbows.left > PushupUpAbove && elbows.right > PushupUpAbove)
  }

  /** The hysteresis bands do not overlap: no frame both sends a machine down and brings it up. */
  lemma BandsDisjoint(k: Sides)
    ensures !(SquatTrigger(k).descend && SquatTrigger(k).rise)
    ensures !(LungeTrigger(k).descend && LungeTrigger(k).rise)
    ensures !(PushupTrigger(k).descend && PushupTrigger(k).rise)
  {
  }

  /** A sequence of frames fed to one machine: final phase and repetitions counted. */
  function RunMachine(p: Phase, ts: seq<Trigger>): (Phase, nat)
    decreases |ts|
  {
    if ts == [] then (p, 0)
    else
      var st := Advance(p, ts[0]);
      var (q, n) := RunMachine(st.phase, ts[1..]);
      (q, n + Bump(st))
  }

  /** The number of frames that would send the machine down. */
  function Descents(ts: seq<Trigger>): nat
    decreases |ts|
  {
    if ts == [] then 0 else (if ts[0].descend then 1 else 0) + Descents(ts[1..])
  }

  /**
   * Every counted repetition needs its own descent: a run counts at most one
   * repetition per frame that enters the down band, plus one if it starts
   * down. In particular oscillating inside the bands counts nothing.
   */
  lemma {:induction false} RepsBoundedByDescents(p: Phase, ts: seq<Trigger>)
    ensures RunMachine(p, ts).1 <= Descents(ts) + (if p == Down then 1 else 0)
    decreases |ts|
  {
    if ts != [] {
      RepsBoundedByDescents(Advance(p, ts[0]).phase, ts[1..]);
    }
  }

  /** Frames that never enter the down band count no repetition from 'up' and leave the machine 'up'. */
  lemma {:induction false} NoDescentNoRep(ts: seq<Trigger>)
    requires forall i | 0 <= i < |ts| :: !ts[i].descend
    ensures RunMachine(Up, ts) == (Up, 0)
    decreases |ts|
  {
    if ts != [] {
      assert !ts[0].descend;
      assert forall i | 0 <= i < |ts[1..]| :: !ts[1..][i].descend by {
        forall i | 0 <= i < |ts[1..]| ensures !ts[1..][i].descend {
          assert ts[1..][i] == ts[i + 1];
        }
      }
      NoDescentNoRep(ts[1..]);
    }
  }

  // ---------------------------------------------------------------------
  // Counters

  /** The angles `updateCounters` reads: knees when both exist, elbows when all arm points exist. */
  datatype Readings = Readings(knees: Option<Sides>, elbows: Option<Sides>)

  /** The counters read nothing: used for a frame labelled 'none', which never reaches them. */
  const NoReadings: Readings := Readings(None, None)

  /**
   * `updateCounters` dereferences the hips once it has found both knees; with
   * a hip missing there script.js would throw.
   */
  predicate CountersReadable(pose: Pose)
  {
    Present(pose, LeftKnee) && Present(pose, RightKnee) ==> Present(pose, LeftHip) && Present(pose, RightHip)
  }

  function ReadingsOf(pose: Pose, trig: Trig): (rd: Readings)
    requires CountersReadable(pose)
    ensures rd.knees.Some? <==> Present(pose, LeftKnee) && Present(pose, RightKnee)
    ensures rd.knees.Some? ==> rd.knees.value == Sides(LeftKneeAngle(pose, trig), RightKneeAngle(pose, trig))
    ensures rd.elbows.Some? <==> rd.knees.Some? && HandsPresent(pose) && ShouldersPresent(pose)
    ensures rd.elbows.Some? ==> ArmsOf(pose, trig) == ArmAngles(rd.elbows.value.left, rd.elbows.value.right)
  {
    if !(Present(pose, LeftKnee) && Present(pose, RightKnee)) then NoReadings
    else
      Readings(Some(Sides(LeftKneeAngle(pose, trig), RightKneeAngle(pose, trig))),
               match ArmsOf(pose, trig)
               case ArmAngles(l, r) => Some(Sides(l, r))
               case _ => None)
  }

  /** The readings of a frame with both knees, written out. */
  lemma ReadingsWithKnees(pose: Pose, trig: Trig)
    requires CountersReadable(pose) && Present(pose, LeftKnee) && Present(pose, RightKnee)
    ensures ReadingsOf(pose, trig) ==
              Readings(Some(Sides(LeftKneeAngle(pose, trig), RightKneeAngle(pose, trig))),
                       if HandsPresent(pose) && ShouldersPresent(pose)
                       then Some(Sides(ElbowAngle(pose, trig, LeftShoulder, LeftElbow, LeftWrist),
                                       ElbowAngle(pose, trig, RightShoulder, RightElbow, RightWrist)))
                       else None)
  {
  }

  /** `if (plankStartTime)`: JavaScript truthiness, so a start time of 0 reads as unset. */
  predicate StartRecorded(start: Option<int>)
  {
    start.Some? && start.value != 0
  }

  /** `Math.floor((now - start) / 1000)`: Dafny's division by a positive divisor floors. */
  function PlankSeconds(start: int, now: int): int
  {
    (now - start) / MillisPerSecond
  }

  lemma PlankSecondsFloor(start: int, now: int)
    ensures PlankSeconds(start, now) * MillisPerSecond <= now - start < (PlankSeconds(start, now) + 1) * MillisPerSecond
  {
  }

  lemma PlankSecondsMonotone(start: int, t1: int, t2: int)
    requires t1 <= t2
    ensures PlankSeconds(start, t1) <= PlankSeconds(start, t2)
    ensures start <= t1 ==> 0 <= PlankSeconds(start, t1)
  {
    PlankSecondsFloor(start, t1);
    PlankSecondsFloor(start, t2);
  }

  /**
   * `updateCounters(exercise, pose)`: move the machine of `e`, or refresh the
   * plank timer. Nothing is read without both knees; the committed label and
   * the plank start are never touched; the count rises by at most one and only
   * the machine of `e` moves.
   */
  function ApplyCounters(s: SessionState, e: Exercise, rd: Readings, now: int): (r: SessionState)
    ensures rd.knees.None? ==> r == s
    ensures r.currentExercise == s.currentExercise && r.lastExerciseChange == s.lastExerciseChange
    ensures r.plankStartTime == s.plankStartTime
    ensures s.repCount <= r.repCount <= s.repCount + 1
    ensures e != Squats ==> r.squatState == s.squatState
    ensures e != Lunges ==> r.lungeState == s.lungeState
    ensures e != Pushups ==> r.pushupState == s.pushupState
    ensures e != Plank ==> r.plankTime == s.plankTime
    ensures e == Squats && rd.knees.Some? ==>
              var k := rd.knees.value;
              (r.squatState != s.squatState <==>
                 || (s.squatState == Up && (k.left < SquatDownBelow || k.right < SquatDownBelow))
                 || (s.squatState == Down && k.left > SquatUpAbove && k.right > SquatUpAbove))
    ensures e == Lunges && rd.knees.Some? ==>
              var diff := Abs(rd.knees.value.left - rd.knees.value.right);
              (r.lungeState != s.lungeState <==>
                 || (s.lungeState == Up && diff > LungeDownAbove)
                 || (s.lungeState == Down && diff < LungeUpBelow))
    ensures e == Pushups && rd.knees.Some? && rd.elbows.Some? ==>
              var el := rd.elbows.value;
              (r.pushupState != s.pushupState <==>
                 || (s.pushupState == Up && (el.left < PushupDownBelow || el.right < PushupDownBelow))
                 || (s.pushupState == Down && el.left > PushupUpAbove && el.right > PushupUpAbove))
    ensures e == Pushups && rd.elbows.None? ==> r == s
    ensures r.repCount == s.repCount + 1 <==>
              || (e == Squats && s.squatState == Down && r.squatState == Up)
              || (e == Lunges && s.lungeState == Down && r.lungeState == Up)
              || (e == Pushups && s.pushupState == Down && r.pushupState == Up)
    ensures e == Plank && rd.knees.Some? ==>
              r.plankTime == if StartRecorded(s.plankStartTime) then PlankSeconds(s.plankStartTime.value, now)
                             else s.plankTime
  {
    match rd.knees
    case None => s
    case Some(k) =>
      match e
      case Squats =>
        var st := Advance(s.squatState, SquatTrigger(k));
        s.(squatState := st.phase, repCount := s.repCount + Bump(st))
      case Lunges =>
        var st := Advance(s.lungeState, LungeTrigger(k));
        s.(lungeState := st.phase, repCount := s.repCount + Bump(st))
      case Plank =>
        if StartRecorded(s.plankStartTime) then s.(plankTime := PlankSeconds(s.plankStartTime.value, now))
        else s
      case Pushups =>
        (match rd.elbows
         case None => s
         case Some(el) =>
           var st := Advance(s.pushupState, PushupTrigger(el));
           s.(pushupState := st.phase, repCount := s.repCount + Bump(st)))
      case NoExercise => s
  }

  // ---------------------------------------------------------------------
  // Transition guard

  /** The fields a committed change sets. */
  function Commit(s: SessionState, e: Exercise, now: int): SessionState
  {
    s.(currentExercise := e, lastExerciseChange := now,
       plankStartTime := if e == Plank then Some(now) else None)
  }

  /** Whether the guard refuses label `e` at time `now`. */
  predicate TooSoon(s: SessionState, e: Exercise, now: int)
  {
    e != s.currentExercise && now - s.lastExerciseChange < DwellMillis
  }

  /**
   * `updateExercise(exercise, pose)`. The committed label either stays, or
   * becomes `e` (never 'none') at time `now`, at least the dwell time after
   * the last change; while it stays, so do the change time and the plank start.
   */
  function UpdateExercise(s: SessionState, e: Exercise, rd: Readings, now: int): (r: SessionState)
    ensures r.currentExercise == s.currentExercise ==>
              r.lastExerciseChange == s.lastExerciseChange && r.plankStartTime == s.plankStartTime
    ensures r.currentExercise != s.currentExercise ==>
              r.currentExercise == e && e != NoExercise &&
              r.lastExerciseChange == now && now - s.lastExerciseChange >= DwellMillis
  {
    if e == NoExercise || TooSoon(s, e, now) then s
    else ApplyCounters(if e != s.currentExercise then Commit(s, e, now) else s, e, rd, now)
  }

  /** A 'none' label, or a change arriving within the dwell time, changes nothing at all. */
  lemma IgnoredLabels(s: SessionState, e: Exercise, rd: Readings, now: int)
    ensures e == NoExercise ==> UpdateExercise(s, e, rd, now) == s
    ensures TooSoon(s, e, now) ==> UpdateExercise(s, e, rd, now) == s
  {
  }

  /**
   * A committed change sets the label, the change time and the plank start;
   * the repetition count and the phases carry over (they are not reset), and
   * only the machine of the new exercise moves.
   */
  lemma CommitCarriesCounters(s: SessionState, e: Exercise, rd: Readings, now: int)
    requires e != NoExercise && e != s.currentExercise && now - s.lastExerciseChange >= DwellMillis
    ensures UpdateExercise(s, e, rd, now).currentExercise == e
    ensures UpdateExercise(s, e, rd, now).lastExerciseChange == now
    ensures UpdateExercise(s, e, rd, now).plankStartTime == if e == Plank then Some(now) else None
    ensures s.repCount <= UpdateExercise(s, e, rd, now).repCount <= s.repCount + 1
    ensures e != Squats ==> UpdateExercise(s, e, rd, now).squatState == s.squatState
    ensures e != Lunges ==> UpdateExercise(s, e, rd, now).lungeState == s.lungeState
    ensures e != Pushups ==> UpdateExercise(s, e, rd, now).pushupState == s.pushupState
    ensures e == Squats && rd.knees.Some? ==>
              UpdateExercise(s, e, rd, now).squatState == Advance(s.squatState, SquatTrigger(rd.knees.value)).phase
    ensures e != Plank ==> UpdateExercise(s, e, rd, now).plankTime == s.plankTime
  {
  }

  /** Committing to plank restarts the visible timer at 0 (unless no knees were read or now is 0). */
  lemma PlankCommitStartsAtZero(s: SessionState, rd: Readings, now: int)
    requires s.currentExercise != Plank && now - s.lastExerciseChange >= DwellMillis
    requires rd.knees.Some? && now != 0
    ensures UpdateExercise(s, Plank, rd, now).plankTime == 0
  {
  }

  lemma UpdateExercisePreservesValid(s: SessionState, e: Exercise, rd: Readings, now: int)
    requires Valid(s)
    ensures Valid(UpdateExercise(s, e, rd, now))
  {
  }

  /**
   * Two committed changes are at least the dwell time apart: after a change at
   * `t1`, a second change is refused until `t1 + 2000`.
   */
  lemma DwellSeparatesChanges(s0: SessionState, e1: Exercise, rd1: Readings, t1: int,
                              e2: Exercise, rd2: Readings, t2: int)
    requires UpdateExercise(s0, e1, rd1, t1).currentExercise != s0.currentExercise
    ensures t1 - s0.lastExerciseChange >= DwellMillis
    ensures var s1 := UpdateExercise(s0, e1, rd1, t1);
            UpdateExercise(s1, e2, rd2, t2).currentExercise != s1.currentExercise ==> t2 - t1 >= DwellMillis
  {
  }

  /**
   * While plank stays committed the timer follows the recorded start:
   * a plank frame sets it to the whole seconds since the start, any other
   * frame leaves it alone, so it never decreases as long as time does not.
   */
  lemma PlankTimerStep(s: SessionState, e: Exercise, rd: Readings, now: int)
    requires Valid(s) && s.currentExercise == Plank && StartRecorded(s.plankStartTime)
    requires s.plankTime <= PlankSeconds(s.plankStartTime.value, now)
    requires UpdateExercise(s, e, rd, now).currentExercise == Plank
    ensures UpdateExercise(s, e, rd, now).plankStartTime == s.plankStartTime
    ensures s.plankTime <= UpdateExercise(s, e, rd, now).plankTime <= PlankSeconds(s.plankStartTime.value, now)
    ensures e == Plank && rd.knees.Some? ==>
              UpdateExercise(s, e, rd, now).plankTime == PlankSeconds(s.lastExerciseChange, now)
  {
  }

  /** Leaving plank clears the start time. */
  lemma LeavingPlankClearsStart(s: SessionState, e: Exercise, rd: Readings, now: int)
    requires s.currentExercise == Plank && UpdateExercise(s, e, rd, now).currentExercise != Plank
    ensures UpdateExercise(s, e, rd, now).plankStartTime == None
  {
  }

  /** The squat of the scenario 170, 85, 170 degrees counts exactly one repetition. */
  lemma SquatCycleCountsOne(s: SessionState, t: int)
    requires s.currentExercise == Squats && s.squatState == Up
    ensures var r1 := UpdateExercise(s, Squats, Readings(Some(Sides(170.0, 170.0)), None), t);
            var r2 := UpdateExercise(r1, Squats, Readings(Some(Sides(85.0, 85.0)), None), t);
            var r3 := UpdateExercise(r2, Squats, Readings(Some(Sides(170.0, 170.0)), None), t);
            r1.repCount == s.repCount && r2.squatState == Down && r2.repCount == s.repCount &&
            r3.repCount == s.repCount + 1 && r3.squatState == Up
  {
  }

  // ---------------------------------------------------------------------
  // Feedback

  /** The coaching messages the page shows. */
  datatype Feedback =
    | StandInFrame        // pose too weak: stand in frame with the whole body visible
    | StartExercising     // nothing committed: step into frame and start
    | SquatRise           // squat, down: now rise slowly
    | SquatLower          // squat, up: lower slowly, back straight
    | LungeReturn         // lunge, down: return to the starting position
    | LungeStep           // lunge, up: step forward and bend the knee
    | PlankHold(seconds: int)  // plank: keep holding, seconds elapsed
    | PushupRise          // push-up, down: push up
    | PushupLower         // push-up, up: lower, elbows close to the body

  /** `updateFeedback`: the message for the committed exercise and its phase. */
  function FeedbackFor(s: SessionState): (m: Feedback)
    ensures m != StandInFrame
    ensures m == StartExercising <==> s.currentExercise == NoExercise
    ensures s.currentExercise == Squats ==> (m == SquatRise <==> s.squatState == Down) && m in {SquatRise, SquatLower}
    ensures s.currentExercise == Lunges ==> (m == LungeReturn <==> s.lungeState == Down) && m in {LungeReturn, LungeStep}
    ensures s.currentExercise == Plank ==> m == PlankHold(s.plankTime)
    ensures s.currentExercise == Pushups ==>
              (m == PushupRise <==> s.pushupState == Down) && m in {PushupRise, PushupLower}
  {
    match s.currentExercise
    case NoExercise => StartExercising
    case Squats => if s.squatState == Down then SquatRise else SquatLower
    case Lunges => if s.lungeState == Down then LungeReturn else LungeStep
    case Plank => PlankHold(s.plankTime)
    case Pushups => if s.pushupState == Down then PushupRise else PushupLower
  }

  /** What the feedback is about: the committed exercise, its machine's phase, the plank seconds. */
  datatype Focus = Focus(exercise: Exercise, phase: Phase, seconds: int)

  function FocusOf(s: SessionState): Focus
  {
    match s.currentExercise
    case NoExercise => Focus(NoExercise, Up, 0)
    case Squats => Focus(Squats, s.squatState, 0)
    case Lunges => Focus(Lunges, s.lungeState, 0)
    case Plank => Focus(Plank, Up, s.plankTime)
    case Pushups => Focus(Pushups, s.pushupState, 0)
  }

  /**
   * Two states get the same message exactly when they agree on the committed
   * exercise and on its phase (or, for plank, on the seconds held): the phases
   * of the other machines and the counter do not show.
   */
  lemma FeedbackShowsFocus(s1: SessionState, s2: SessionState)
    ensures FeedbackFor(s1) == FeedbackFor(s2) <==> FocusOf(s1) == FocusOf(s2)
  {
  }

  // ---------------------------------------------------------------------
  // One frame of the detection loop

  /** The status line: detection active, no pose, or a detection error. */
  datatype Status = Active | NoPose | DetectionFailed

  /** The new state, the status and the message shown (None: left as it was). */
  datatype FrameResult = FrameResult(state: SessionState, status: Status, feedback: Option<Feedback>)

  /**
   * The body of `detectPose` for one estimated pose: a pose scoring at most
   * 0.2 is not analysed; an error thrown by the classifier is caught and
   * leaves the state and the message alone.
   */
  function OnFrame(s: SessionState, pose: Pose, now: int, trig: Trig): (r: FrameResult)
    ensures r.status == Active <==> pose.score > PoseScoreAbove && DetectExercise(pose, trig).Ok?
    ensures r.status != Active ==> r.state == s
    ensures r.status == DetectionFailed <==> pose.score > PoseScoreAbove && DetectExercise(pose, trig).Err?
    ensures r.status == NoPose ==> r.feedback == Some(StandInFrame)
    ensures r.feedback == None <==> r.status == DetectionFailed
    ensures r.status == Active ==> r.feedback == Some(FeedbackFor(r.state))
  {
    if !(pose.score > PoseScoreAbove) then FrameResult(s, NoPose, Some(StandInFrame))
    else
      match DetectExercise(pose, trig)
      case Err(_) => FrameResult(s, DetectionFailed, None)
      case Ok(e) =>
        var t := UpdateExercise(s, e, if e == NoExercise then NoReadings else ReadingsOf(pose, trig), now);
        FrameResult(t, Active, Some(FeedbackFor(t)))
  }

  /** Frames that change no field: a weak pose, a classifier error, a 'none' label, a change within the dwell time. */
  lemma UnchangedFrames(s: SessionState, pose: Pose, now: int, trig: Trig)
    ensures !(pose.score > PoseScoreAbove) ==> OnFrame(s, pose, now, trig) == FrameResult(s, NoPose, Some(StandInFrame))
    ensures DetectExercise(pose, trig).Err? ==> OnFrame(s, pose, now, trig).state == s
    ensures DetectExercise(pose, trig) == Ok(NoExercise) ==> OnFrame(s, pose, now, trig).state == s
    ensures DetectExercise(pose, trig).Ok? && TooSoon(s, DetectExercise(pose, trig).value, now) ==>
              OnFrame(s, pose, now, trig).state == s
  {
  }

  /**
   * Per label: the counter never decreases and rises by at most one, and only
   * on a down-to-up move of the committed exercise's machine; the machines of
   * the other exercises and, away from plank, the timer do not move.
   */
  lemma UpdateMovesOnlyCommitted(s: SessionState, e: Exercise, rd: Readings, now: int)
    ensures var r := UpdateExercise(s, e, rd, now);
            s.repCount <= r.repCount <= s.repCount + 1
    ensures var r := UpdateExercise(s, e, rd, now);
            && (r.currentExercise != Squats ==> r.squatState == s.squatState)
            && (r.currentExercise != Lunges ==> r.lungeState == s.lungeState)
            && (r.currentExercise != Pushups ==> r.pushupState == s.pushupState)
            && (r.currentExercise != Plank ==> r.plankTime == s.plankTime)
    ensures var r := UpdateExercise(s, e, rd, now);
            r.repCount == s.repCount + 1 <==>
              || (r.currentExercise == Squats && s.squatState == Down && r.squatState == Up)
              || (r.currentExercise == Lunges && s.lungeState == Down && r.lungeState == Up)
              || (r.currentExercise == Pushups && s.pushupState == Down && r.pushupState == Up)
  {
  }

  /** The same per frame of the detection loop. */
  lemma FrameMovesOnlyCommitted(s: SessionState, pose: Pose, now: int, trig: Trig)
    ensures var r := OnFrame(s, pose, now, trig).state;
            s.repCount <= r.repCount <= s.repCount + 1
    ensures var r := OnFrame(s, pose, now, trig).state;
            && (r.currentExercise != Squats ==> r.squatState == s.squatState)
            && (r.currentExercise != Lunges ==> r.lungeState == s.lungeState)
            && (r.currentExercise != Pushups ==> r.pushupState == s.pushupState)
            && (r.currentExercise != Plank ==> r.plankTime == s.plankTime)
    ensures var r := OnFrame(s, pose, now, trig).state;
            r.repCount == s.repCount + 1 <==>
              || (r.currentExercise == Squats && s.squatState == Down && r.squatState == Up)
              || (r.currentExercise == Lunges && s.lungeState == Down && r.lungeState == Up)
              || (r.currentExercise == Pushups && s.pushupState == Down && r.pushupState == Up)
  {
    var d := DetectExercise(pose, trig);
    if pose.score > PoseScoreAbove && d.Ok? {
      var e := d.value;
      var rd := if e == NoExercise then NoReadings else ReadingsOf(pose, trig);
      assert OnFrame(s, pose, now, trig).state == UpdateExercise(s, e, rd, now);
      UpdateMovesOnlyCommitted(s, e, rd, now);
    }
  }

  lemma OnFramePreservesValid(s: SessionState, pose: Pose, now: int, trig: Trig)
    requires Valid(s)
    ensures Valid(OnFrame(s, pose, now, trig).state)
  {
    var d := DetectExercise(pose, trig);
    if pose.score > PoseScoreAbove && d.Ok? {
      var e := d.value;
      UpdateExercisePreservesValid(s, e, if e == NoExercise then NoReadings else ReadingsOf(pose, trig), now);
    }
  }

  /** One estimated pose and the clock reading taken with it. */
  datatype Frame = Frame(pose: Pose, now: int)

  /** A session fed a sequence of frames. */
  function Run(s: SessionState, frames: seq<Frame>, trig: Trig): SessionState
    decreases |frames|
  {
    if frames == [] then s
    else Run(OnFrame(s, frames[0].pose, frames[0].now, trig).state, frames[1..], trig)
  }

  /** Over any run the counter never decreases and rises by at most one per frame. */
  lemma {:induction false} RunRepBounds(s: SessionState, frames: seq<Frame>, trig: Trig)
    ensures s.repCount <= Run(s, frames, trig).repCount <= s.repCount + |frames|
    decreases |frames|
  {
    if frames != [] {
      FrameMovesOnlyCommitted(s, frames[0].pose, frames[0].now, trig);
      RunRepBounds(OnFrame(s, frames[0].pose, frames[0].now, trig).state, frames[1..], trig);
    }
  }

  /** The plank invariant holds along any run from a valid state. */
  lemma {:induction false} RunPreservesValid(s: SessionState, frames: seq<Frame>, trig: Trig)
    requires Valid(s)
    ensures Valid(Run(s, frames, trig))
    decreases |frames|
  {
    if frames != [] {
      OnFramePreservesValid(s, frames[0].pose, frames[0].now, trig);
      RunPreservesValid(OnFrame(s, frames[0].pose, frames[0].now, trig).state, frames[1..], trig);
    }
  }
  /**
   * However many frames arrive, none of them earlier than the dwell time
   * after the last change can change the committed exercise or its time.
   */
  lemma {:induction false} RunWithinDwellKeepsExercise(s: SessionState, frames: seq<Frame>, trig: Trig)
    requires forall i | 0 <= i < |frames| :: frames[i].now - s.lastExerciseChange < DwellMillis
    ensures Run(s, frames, trig).currentExercise == s.currentExercise
    ensures Run(s, frames, trig).lastExerciseChange == s.lastExerciseChange
    decreases |frames|
  {
    if frames != [] {
      var r := OnFrame(s, frames[0].pose, frames[0].now, trig).state;
      assert r.currentExercise == s.currentExercise && r.lastExerciseChange == s.lastExerciseChange;
      assert forall i | 0 <= i < |frames[1..]| :: frames[1..][i].now - r.lastExerciseChange < DwellMillis by {
        forall i | 0 <= i < |frames[1..]| ensures frames[1..][i].now - r.lastExerciseChange < DwellMillis {
          assert frames[1..][i] == frames[i + 1];
        }
      }
      RunWithinDwellKeepsExercise(r, frames[1..], trig);
    }
  }

  /**
   * What holds of a session, at clock reading `t`, since the plank committed
   * at `start` began with the timer at `base`: the plank invariant; any start
   * recorded since is not earlier; and while that plank is still the one
   * recorded, its timer lies between `base` and the seconds elapsed at `t`.
   */
  predicate PlankSince(s: SessionState, start: int, base: int, t: int)
  {
    && Valid(s)
    && s.lastExerciseChange >= start
    && (s.plankStartTime.Some? ==> s.plankStartTime.value >= start)
    && (s.plankStartTime == Some(start) ==> base <= s.plankTime <= PlankSeconds(start, t))
  }

  lemma UpdateKeepsPlankSince(s: SessionState, e: Exercise, rd: Readings, now: int,
                              start: int, base: int, t: int)
    requires PlankSince(s, start, base, t) && t <= now
    ensures PlankSince(UpdateExercise(s, e, rd, now), start, base, now)
  {
    PlankSecondsMonotone(start, t, now);
    UpdateExercisePreservesValid(s, e, rd, now);
  }

  lemma FrameKeepsPlankSince(s: SessionState, pose: Pose, now: int, trig: Trig,
                             start: int, base: int, t: int)
    requires PlankSince(s, start, base, t) && t <= now
    ensures PlankSince(OnFrame(s, pose, now, trig).state, start, base, now)
  {
    PlankSecondsMonotone(start, t, now);
    var d := DetectExercise(pose, trig);
    if pose.score > PoseScoreAbove && d.Ok? {
      var e := d.value;
      UpdateKeepsPlankSince(s, e, if e == NoExercise then NoReadings else ReadingsOf(pose, trig), now, start, base, t);
    }
  }

  /** Clock readings that never go backwards, starting from `t`. */
  predicate ClockFrom(frames: seq<Frame>, t: int)
  {
    && (frames != [] ==> t <= frames[0].now)
    && forall i | 0 < i < |frames| :: frames[i - 1].now <= frames[i].now
  }

  lemma {:induction false} RunKeepsPlankSince(s: SessionState, frames: seq<Frame>, trig: Trig,
                                               start: int, base: int, t: int)
    requires PlankSince(s, start, base, t) && ClockFrom(frames, t)
    ensures PlankSince(Run(s, frames, trig), start, base, if frames == [] then t else frames[|frames| - 1].now)
    decreases |frames|
  {
    if frames != [] {
      FrameKeepsPlankSince(s, frames[0].pose, frames[0].now, trig, start, base, t);
      var r := OnFrame(s, frames[0].pose, frames[0].now, trig).state;
      var rest := frames[1..];
      assert ClockFrom(rest, frames[0].now) by {
        if rest != [] { assert rest[0] == frames[1]; }
        forall i | 0 < i < |rest| ensures rest[i - 1].now <= rest[i].now {
          assert rest[i] == frames[i + 1] && rest[i - 1] == frames[i];
        }
      }
      RunKeepsPlankSince(r, rest, trig, start, base, frames[0].now);
      if rest != [] {
        assert rest[|rest| - 1] == frames[|frames| - 1];
      }
    }
  }

  /**
   * With a clock that never goes backwards, the plank timer never decreases
   * while the same plank stays committed, however many frames (of any label)
   * arrive.
   */
  lemma PlankTimerNeverDecreases(s: SessionState, frames: seq<Frame>, trig: Trig, t: int)
    requires Valid(s) && s.currentExercise == Plank
    requires s.plankTime <= PlankSeconds(s.lastExerciseChange, t) && ClockFrom(frames, t)
    ensures Run(s, frames, trig).plankStartTime == s.plankStartTime ==>
              s.plankTime <= Run(s, frames, trig).plankTime
  {
    RunKeepsPlankSince(s, frames, trig, s.lastExerciseChange, s.plankTime, t);
  }
  // ---------------------------------------------------------------------
  // Runs of one knee-counted exercise

  /** A frame strong enough to analyse that the classifier labels `e`. */
  predicate LabelledFrame(f: Frame, e: Exercise, trig: Trig)
  {
    f.pose.score > PoseScoreAbove && DetectExercise(f.pose, trig) == Ok(e)
  }

  /** The phase of the machine that counts `e` (squats or lunges). */
  function MachinePhase(s: SessionState, e: Exercise): Phase
  {
    if e == Squats then s.squatState else s.lungeState
  }

  /** The knee angles of a labelled frame. */
  function KneesOf(f: Frame, e: Exercise, trig: Trig): Sides
    requires LabelledFrame(f, e, trig) && e != NoExercise
  {
    Sides(LeftKneeAngle(f.pose, trig), RightKneeAngle(f.pose, trig))
  }

  /** What one frame labelled `e` tells the machine of `e`. */
  function KneeTrigger(f: Frame, e: Exercise, trig: Trig): Trigger
    requires LabelledFrame(f, e, trig) && (e == Squats || e == Lunges)
  {
    if e == Squats then SquatTrigger(KneesOf(f, e, trig)) else LungeTrigger(KneesOf(f, e, trig))
  }

  /** What each frame of a run labelled `e` tells the machine of `e`. */
  function KneeTriggers(frames: seq<Frame>, e: Exercise, trig: Trig): (ts: seq<Trigger>)
    requires forall i | 0 <= i < |frames| :: LabelledFrame(frames[i], e, trig)
    requires e == Squats || e == Lunges
    ensures |ts| == |frames|
    decreases |frames|
  {
    if frames == [] then []
    else
      assert LabelledFrame(frames[0], e, trig);
      assert forall i | 0 <= i < |frames[1..]| :: frames[1..][i] == frames[i + 1];
      [KneeTrigger(frames[0], e, trig)] + KneeTriggers(frames[1..], e, trig)
  }

  /** One frame labelled with the committed squats or lunges moves exactly that machine. */
  lemma LabelledFrameStep(s: SessionState, f: Frame, trig: Trig, e: Exercise)
    requires e == Squats || e == Lunges
    requires s.currentExercise == e && LabelledFrame(f, e, trig)
    ensures var t := OnFrame(s, f.pose, f.now, trig).state;
            var st := Advance(MachinePhase(s, e), KneeTrigger(f, e, trig));
            t.currentExercise == e && MachinePhase(t, e) == st.phase && t.repCount == s.repCount + Bump(st)
  {
    assert ReadingsOf(f.pose, trig).knees == Some(KneesOf(f, e, trig));
  }

  /**
   * While squats (or lunges) are committed and every frame is labelled so,
   * the session counts exactly what that exercise's machine alone counts on
   * the frames' knee angles, and ends in the machine's phase.
   */
  lemma {:induction false} RunFollowsMachine(s: SessionState, frames: seq<Frame>, trig: Trig, e: Exercise)
    requires e == Squats || e == Lunges
    requires s.currentExercise == e
    requires forall i | 0 <= i < |frames| :: LabelledFrame(frames[i], e, trig)
    ensures Run(s, frames, trig).currentExercise == e
    ensures MachinePhase(Run(s, frames, trig), e) == RunMachine(MachinePhase(s, e), KneeTriggers(frames, e, trig)).0
    ensures Run(s, frames, trig).repCount == s.repCount + RunMachine(MachinePhase(s, e), KneeTriggers(frames, e, trig)).1
    decreases |frames|
  {
    if frames != [] {
      assert LabelledFrame(frames[0], e, trig);
      LabelledFrameStep(s, frames[0], trig, e);
      var t := OnFrame(s, frames[0].pose, frames[0].now, trig).state;
      var rest := frames[1..];
      assert forall i | 0 <= i < |rest| :: rest[i] == frames[i + 1];
      RunFollowsMachine(t, rest, trig, e);
      var ts := KneeTriggers(frames, e, trig);
      assert ts[0] == KneeTrigger(frames[0], e, trig) && ts[1..] == KneeTriggers(rest, e, trig);
    }
  }

  /**
   * Oscillating without ever entering the down band counts nothing: with
   * squats (or lunges) committed and 'up', frames labelled so that never send
   * the machine down leave the count and the phase as they were.
   */
  lemma OscillationCountsNothing(s: SessionState, frames: seq<Frame>, trig: Trig, e: Exercise)
    requires e == Squats || e == Lunges
    requires s.currentExercise == e && MachinePhase(s, e) == Up
    requires forall i | 0 <= i < |frames| :: LabelledFrame(frames[i], e, trig)
    requires forall i | 0 <= i < |frames| :: !KneeTriggers(frames, e, trig)[i].descend
    ensures Run(s, frames, trig).repCount == s.repCount
    ensures MachinePhase(Run(s, frames, trig), e) == Up
  {
    RunFollowsMachine(s, frames, trig, e);
    NoDescentNoRep(KneeTriggers(frames, e, trig));
  }
}

/**
 * The single-frame exercise classifier: a visibility gate on the legs, joint
 * angles extracted from the pose, and threshold rules tried in a fixed order.
 */
module Classifier {
  import opened Wrappers
  import opened Geometry
  import opened Keypoints

  /** The labels the classifier and the session use ('none', 'squats', 'lunges', 'plank', 'pushups'). */
  datatype Exercise = NoExercise | Squats | Lunges | Plank | Pushups

  /**
   * The push-up rule reads both shoulder positions without testing that they
   * exist; when one is missing script.js throws a TypeError.
   */
  datatype DetectError = ShoulderMissing

  /** A required keypoint scoring below this floor counts as missing. */
  const VisibilityFloor: real := 0.3

  const PlankBodyAbove: real := 160.0
  const PlankKneesAbove: real := 150.0
  const LungeDiffAbove: real := 40.0
  const LungeKneeBelow: real := 120.0
  const SquatKneesBelow: real := 120.0
  const SquatDiffBelow: real := 30.0
  const PushupElbowsBelow: real := 100.0
  const PushupBodyBelow: real := 150.0

  function Abs(v: real): (r: real)
    ensures r >= 0.0 && (r == v || r == -v)
  {
    if v < 0.0 then -v else v
  }

  /** `!p || p.score < 0.3` fails: the keypoint exists and scores at least the floor. */
  predicate Usable(pose: Pose, part: Part)
  {
    match Lookup(pose, part)
    case None => false
    case Some(kp) => !(kp.score < VisibilityFloor)
  }

  /** Both hips and both knees are usable; otherwise the frame is labelled 'none'. */
  predicate Gate(pose: Pose)
  {
    Usable(pose, LeftHip) && Usable(pose, RightHip) && Usable(pose, LeftKnee) && Usable(pose, RightKnee)
  }

  /** What the angle computations dereference without a test: both hips and both knees. */
  predicate LegsPresent(pose: Pose)
  {
    Present(pose, LeftHip) && Present(pose, RightHip) && Present(pose, LeftKnee) && Present(pose, RightKnee)
  }

  /**
   * Knee angle hip-knee-ankle; a missing ankle is replaced by the knee itself,
   * which makes the second ray zero-length and the angle 180 degrees.
   */
  function KneeAngle(pose: Pose, trig: Trig, hip: Part, knee: Part, ankle: Part): (r: real)
    requires Present(pose, hip) && Present(pose, knee)
    ensures !Present(pose, ankle) ==> r == StraightAngle
    ensures Present(pose, ankle) ==>
              r == CalculateAngle(trig, PositionOf(pose, hip), PositionOf(pose, knee), PositionOf(pose, ankle))
  {
    var k := PositionOf(pose, knee);
    CalculateAngle(trig, PositionOf(pose, hip), k, PositionOr(pose, ankle, k))
  }

  function LeftKneeAngle(pose: Pose, trig: Trig): real
    requires Present(pose, LeftHip) && Present(pose, LeftKnee)
  {
    KneeAngle(pose, trig, LeftHip, LeftKnee, LeftAnkle)
  }

  function RightKneeAngle(pose: Pose, trig: Trig): real
    requires Present(pose, RightHip) && Present(pose, RightKnee)
  {
    KneeAngle(pose, trig, RightHip, RightKnee, RightAnkle)
  }

  /**
   * Body-line angle shoulder-hip-ankle on the left side; a missing shoulder is
   * replaced by the hip (so the angle is 180 degrees), a missing ankle by the
   * knee.
   */
  function BodyAngle(pose: Pose, trig: Trig): (r: real)
    requires Present(pose, LeftHip) && Present(pose, LeftKnee)
    ensures !Present(pose, LeftShoulder) ==> r == StraightAngle
    ensures Present(pose, LeftShoulder) && Present(pose, LeftAnkle) ==>
              r == CalculateAngle(trig, PositionOf(pose, LeftShoulder), PositionOf(pose, LeftHip),
                                  PositionOf(pose, LeftAnkle))
    ensures Present(pose, LeftShoulder) && !Present(pose, LeftAnkle) ==>
              r == CalculateAngle(trig, PositionOf(pose, LeftShoulder), PositionOf(pose, LeftHip),
                                  PositionOf(pose, LeftKnee))
  {
    var hip := PositionOf(pose, LeftHip);
    CalculateAngle(trig, PositionOr(pose, LeftShoulder, hip), hip,
                   PositionOr(pose, LeftAnkle, PositionOf(pose, LeftKnee)))
  }

  /** Elbow angle shoulder-elbow-wrist. */
  function ElbowAngle(pose: Pose, trig: Trig, shoulder: Part, elbow: Part, wrist: Part): real
    requires Present(pose, shoulder) && Present(pose, elbow) && Present(pose, wrist)
  {
    CalculateAngle(trig, PositionOf(pose, shoulder), PositionOf(pose, elbow), PositionOf(pose, wrist))
  }

  /** What the push-up rule finds of the arms. */
  datatype Arms =
    | ArmsAbsent                           // an elbow or a wrist is missing
    | ShouldersAbsent                      // elbows and wrists present, a shoulder missing
    | ArmAngles(left: real, right: real)   // both elbow angles

  /** Elbows and wrists, the points the push-up rule tests for. */
  predicate HandsPresent(pose: Pose)
  {
    Present(pose, LeftElbow) && Present(pose, RightElbow) && Present(pose, LeftWrist) && Present(pose, RightWrist)
  }

  predicate ShouldersPresent(pose: Pose)
  {
    Present(pose, LeftShoulder) && Present(pose, RightShoulder)
  }

  function ArmsOf(pose: Pose, trig: Trig): (arms: Arms)
    ensures arms.ArmAngles? <==> HandsPresent(pose) && ShouldersPresent(pose)
    ensures arms.ShouldersAbsent? <==> HandsPresent(pose) && !ShouldersPresent(pose)
    ensures arms.ArmAngles? ==>
              arms == ArmAngles(ElbowAngle(pose, trig, LeftShoulder, LeftElbow, LeftWrist),
                                ElbowAngle(pose, trig, RightShoulder, RightElbow, RightWrist))
  {
    if !(Present(pose, LeftElbow) && Present(pose, RightElbow) &&
         Present(pose, LeftWrist) && Present(pose, RightWrist)) then ArmsAbsent
    else if !(Present(pose, LeftShoulder) && Present(pose, RightShoulder)) then ShouldersAbsent
    else ArmAngles(ElbowAngle(pose, trig, LeftShoulder, LeftElbow, LeftWrist),
                   ElbowAngle(pose, trig, RightShoulder, RightElbow, RightWrist))
  }

  /** The scalar features one frame yields. */
  datatype Features = Features(leftKnee: real, rightKnee: real, body: real, arms: Arms)

  /**
   * The angles of script.js lines 356-366 and the arm reading of lines
   * 383-385. A missing ankle straightens its knee, a missing left shoulder
   * straightens the body line.
   */
  function ExtractFeatures(pose: Pose, trig: Trig): (f: Features)
    requires LegsPresent(pose)
    ensures !Present(pose, LeftAnkle) ==> f.leftKnee == StraightAngle
    ensures !Present(pose, RightAnkle) ==> f.rightKnee == StraightAngle
    ensures Present(pose, LeftAnkle) ==>
              f.leftKnee == CalculateAngle(trig, PositionOf(pose, LeftHip), PositionOf(pose, LeftKnee),
                                           PositionOf(pose, LeftAnkle))
    ensures Present(pose, RightAnkle) ==>
              f.rightKnee == CalculateAngle(trig, PositionOf(pose, RightHip), PositionOf(pose, RightKnee),
                                            PositionOf(pose, RightAnkle))
    ensures !Present(pose, LeftShoulder) ==> f.body == StraightAngle
    ensures Present(pose, LeftShoulder) && Present(pose, LeftAnkle) ==>
              f.body == CalculateAngle(trig, PositionOf(pose, LeftShoulder), PositionOf(pose, LeftHip),
                                       PositionOf(pose, LeftAnkle))
    ensures Present(pose, LeftShoulder) && !Present(pose, LeftAnkle) ==>
              f.body == CalculateAngle(trig, PositionOf(pose, LeftShoulder), PositionOf(pose, LeftHip),
                                       PositionOf(pose, LeftKnee))
    ensures f.arms.ArmAngles? <==> HandsPresent(pose) && ShouldersPresent(pose)
    ensures f.arms.ShouldersAbsent? <==> HandsPresent(pose) && !ShouldersPresent(pose)
    ensures f.arms == ArmsOf(pose, trig)
  {
    Features(LeftKneeAngle(pose, trig), RightKneeAngle(pose, trig), BodyAngle(pose, trig), ArmsOf(pose, trig))
  }

  function AvgKnee(f: Features): real
  {
    (f.leftKnee + f.rightKnee) / 2.0
  }

  function KneeDiff(f: Features): real
  {
    Abs(f.leftKnee - f.rightKnee)
  }

  predicate PlankShape(f: Features)
  {
    f.body > PlankBodyAbove && AvgKnee(f) > PlankKneesAbove
  }

  predicate LungeShape(f: Features)
  {
    KneeDiff(f) > LungeDiffAbove && (f.leftKnee < LungeKneeBelow || f.rightKnee < LungeKneeBelow)
  }

  predicate SquatShape(f: Features)
  {
    AvgKnee(f) < SquatKneesBelow && KneeDiff(f) < SquatDiffBelow
  }

  predicate PushupShape(f: Features)
  {
    match f.arms
    case ArmAngles(l, r) => (l + r) / 2.0 < PushupElbowsBelow && f.body < PushupBodyBelow
    case _ => false
  }

  /** The outcome of trying one rule. */
  datatype Verdict = Match | NoMatch | Crash

  function Test(rule: Exercise, f: Features): Verdict
  {
    match rule
    case Plank => if PlankShape(f) then Match else NoMatch
    case Lunges => if LungeShape(f) then Match else NoMatch
    case Squats => if SquatShape(f) then Match else NoMatch
    case Pushups =>
      if f.arms.ShouldersAbsent? then Crash
      else if PushupShape(f) then Match else NoMatch
    case NoExercise => NoMatch
  }

  /** The order in which script.js tries the rules. */
  const Precedence: seq<Exercise> := [Plank, Lunges, Squats, Pushups]

  /** The first rule of `rules` that does not decline decides; none left means 'none'. */
  function FirstMatch(rules: seq<Exercise>, f: Features): (r: Result<Exercise, DetectError>)
    requires NoExercise !in rules
    ensures r.Ok? && r.value != NoExercise ==>
              exists i | 0 <= i < |rules| :: rules[i] == r.value && Test(rules[i], f) == Match &&
                                            forall j | 0 <= j < i :: Test(rules[j], f) == NoMatch
    ensures r.Err? ==>
              exists i | 0 <= i < |rules| :: Test(rules[i], f) == Crash &&
                                            forall j | 0 <= j < i :: Test(rules[j], f) == NoMatch
    ensures r == Ok(NoExercise) <==> forall i | 0 <= i < |rules| :: Test(rules[i], f) == NoMatch
  {
    if rules == [] then Ok(NoExercise)
    else
      match Test(rules[0], f)
      case Match => Ok(rules[0])
      case Crash => Err(ShoulderMissing)
      case NoMatch =>
        var r := FirstMatch(rules[1..], f);
        assert forall i | 0 < i < |rules| :: rules[i] == rules[1..][i - 1];
        r
  }

  /**
   * The rules of script.js in their order. A label is only returned when its
   * rule matches, and the only error is the push-up rule reaching missing
   * shoulders; `ClassifyPrecedence` states the full order.
   */
  function Classify(f: Features): (r: Result<Exercise, DetectError>)
    ensures r.Ok? && r.value != NoExercise ==> Test(r.value, f) == Match
    ensures r.Err? ==> f.arms.ShouldersAbsent?
  {
    FirstMatch(Precedence, f)
  }

  /** `detectExerciseFromPose`: the leg gate, then the rules in order. */
  function DetectExercise(pose: Pose, trig: Trig): (r: Result<Exercise, DetectError>)
    ensures !Gate(pose) ==> r == Ok(NoExercise)
    ensures r != Ok(NoExercise) ==> Gate(pose) && LegsPresent(pose)
  {
    if !Gate(pose) then Ok(NoExercise)
    else Classify(ExtractFeatures(pose, trig))
  }

  /**
   * The precedence of the rules: each label is returned exactly when its rule
   * matches and every earlier rule declines; the only error is the push-up
   * rule reaching missing shoulders.
   */
  lemma ClassifyPrecedence(f: Features)
    ensures Classify(f) == Ok(Plank) <==> PlankShape(f)
    ensures Classify(f) == Ok(Lunges) <==> !PlankShape(f) && LungeShape(f)
    ensures Classify(f) == Ok(Squats) <==> !PlankShape(f) && !LungeShape(f) && SquatShape(f)
    ensures Classify(f) == Ok(Pushups) <==>
              !PlankShape(f) && !LungeShape(f) && !SquatShape(f) && PushupShape(f)
    ensures Classify(f).Err? <==>
              !PlankShape(f) && !LungeShape(f) && !SquatShape(f) && f.arms.ShouldersAbsent?
    ensures Classify(f) == Ok(NoExercise) <==>
              !PlankShape(f) && !LungeShape(f) && !SquatShape(f) &&
              !f.arms.ShouldersAbsent? && !PushupShape(f)
  {
    var p := Precedence;
    assert p[1..][1..][1..][1..] == [];
    if !PlankShape(f) {
      assert Classify(f) == FirstMatch(p[1..], f);
      if !LungeShape(f) {
        assert FirstMatch(p[1..], f) == FirstMatch(p[1..][1..], f);
        if !SquatShape(f) {
          assert FirstMatch(p[1..][1..], f) == FirstMatch(p[1..][1..][1..], f);
        }
      }
    }
  }
  /**
   * Without a left shoulder the body line reads straight, so a gated frame is
   * 'plank' exactly when the knees average above the plank threshold, and it
   * is never 'pushups'.
   */
  lemma NoShoulderFrame(pose: Pose, trig: Trig)
    requires Gate(pose) && !Present(pose, LeftShoulder)
    ensures DetectExercise(pose, trig) == Ok(Plank) <==> AvgKnee(ExtractFeatures(pose, trig)) > PlankKneesAbove
    ensures DetectExercise(pose, trig) != Ok(Pushups)
  {
    var f := ExtractFeatures(pose, trig);
    ClassifyPrecedence(f);
  }

  /** When the gate fails the frame is 'none' and no angle is consulted. */
  lemma GateIgnoresAngles(pose: Pose, trig1: Trig, trig2: Trig)
    requires !Gate(pose)
    ensures DetectExercise(pose, trig1) == DetectExercise(pose, trig2) == Ok(NoExercise)
  {
  }

  /** An angle an arccosine in degrees can yield. */
  predicate InDegrees(v: real)
  {
    0.0 <= v <= StraightAngle
  }

  ghost predicate TrigInDegrees(trig: Trig)
  {
    forall ab2, bc2, ac2 :: InDegrees(trig(ab2, bc2, ac2))
  }

  /** With angles in [0, 180], the leg features of a frame are in [0, 180] too. */
  lemma FeaturesInDegrees(pose: Pose, trig: Trig)
    requires LegsPresent(pose) && TrigInDegrees(trig)
    ensures InDegrees(ExtractFeatures(pose, trig).leftKnee)
    ensures InDegrees(ExtractFeatures(pose, trig).rightKnee)
    ensures InDegrees(ExtractFeatures(pose, trig).body)
  {
  }

  /**
   * For angles in [0, 180] the plank, lunge and squat rules never match the
   * same frame, and neither do plank and push-up; so the fixed order only
   * decides between push-ups and the two leg exercises.
   */
  lemma RulesExclusive(f: Features)
    requires InDegrees(f.leftKnee) && InDegrees(f.rightKnee)
    ensures !(PlankShape(f) && LungeShape(f))
    ensures !(PlankShape(f) && SquatShape(f))
    ensures !(LungeShape(f) && SquatShape(f))
    ensures !(PlankShape(f) && PushupShape(f))
  {
  }
}

/** The pose a single-person pose estimator reports for one frame. */
module Keypoints {
  import opened Wrappers
  import opened Geometry

  /** The body parts the estimator names. */
  datatype Part =
    | Nose | LeftEye | RightEye | LeftEar | RightEar
    | LeftShoulder | RightShoulder | LeftElbow | RightElbow
    | LeftWrist | RightWrist | LeftHip | RightHip
    | LeftKnee | RightKnee | LeftAnkle | RightAnkle

  /** One detected body part with its confidence score and position. */
  datatype Keypoint = Keypoint(part: Part, score: real, position: Point)

  /** A detected pose: an overall score and the list of keypoints. */
  datatype Pose = Pose(score: real, keypoints: seq<Keypoint>)

  /** The first keypoint of the list naming `part`, if any (`Array.prototype.find`). */
  function Find(kps: seq<Keypoint>, part: Part): Option<Keypoint>
    decreases |kps|
  {
    if |kps| == 0 then None
    else if kps[0].part == part then Some(kps[0])
    else Find(kps[1..], part)
  }

  /**
   * `Find` returns nothing exactly when no keypoint names `part`, and
   * otherwise the keypoint at the first index naming it.
   */
  lemma {:induction false} FindFirst(kps: seq<Keypoint>, part: Part)
    ensures Find(kps, part).None? <==> forall i | 0 <= i < |kps| :: kps[i].part != part
    ensures Find(kps, part).Some? ==>
              exists i | 0 <= i < |kps| :: kps[i] == Find(kps, part).value && kps[i].part == part &&
                                          forall j | 0 <= j < i :: kps[j].part != part
    decreases |kps|
  {
    if |kps| > 0 && kps[0].part != part {
      var rest := kps[1..];
      FindFirst(rest, part);
      assert forall i | 0 < i < |kps| :: kps[i] == rest[i - 1];
      if Find(rest, part).Some? {
        var i :| 0 <= i < |rest| && rest[i] == Find(rest, part).value && rest[i].part == part &&
                 forall j | 0 <= j < i :: rest[j].part != part;
        assert kps[i + 1] == rest[i];
        assert forall j | 0 <= j < i + 1 :: kps[j].part != part;
      }
    }
  }

  /** The keypoint the pose reports for `part`. */
  function Lookup(pose: Pose, part: Part): Option<Keypoint>
  {
    Find(pose.keypoints, part)
  }

  predicate Present(pose: Pose, part: Part)
  {
    Lookup(pose, part).Some?
  }

  /** The position of a keypoint that is present. */
  function PositionOf(pose: Pose, part: Part): Point
    requires Present(pose, part)
  {
    Lookup(pose, part).value.position
  }

  /** `kp?.position || fallback`: the position of `part`, or `fallback` when it is missing. */
  function PositionOr(pose: Pose, part: Part, fallback: Point): (p: Point)
    ensures Present(pose, part) ==> p == PositionOf(pose, part)
    ensures !Present(pose, part) ==> p == fallback
  {
    match Lookup(pose, part)
    case Some(kp) => kp.position
    case None => fallback
  }

  /**
   * `kp?.position || fallback` against the keypoint list itself: the fallback
   * when no keypoint names `part`, otherwise the position of the first one
   * that does.
   */
  lemma {:induction false} PositionOrFirst(pose: Pose, part: Part, fallback: Point)
    ensures (forall i | 0 <= i < |pose.keypoints| :: pose.keypoints[i].part != part) ==>
              PositionOr(pose, part, fallback) == fallback
    ensures (exists i | 0 <= i < |pose.keypoints| :: pose.keypoints[i].part == part) ==>
              exists i | 0 <= i < |pose.keypoints| ::
                && pose.keypoints[i].part == part
                && (forall j | 0 <= j < i :: pose.keypoints[j].part != part)
                && PositionOr(pose, part, fallback) == pose.keypoints[i].position
  {
    FindFirst(pose.keypoints, part);
  }
}

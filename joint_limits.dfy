/**
 * The static joint-limit table of the robot arm: one closed range of angles,
 * in radians, per joint of the kinematic chain.
 */
module JointLimits {

  /** Math.PI, as the real number its shortest decimal spelling denotes. */
  const PI: real := 3.141592653589793

  datatype Range = Range(min: real, max: real) {
    predicate Contains(angle: real) {
      min <= angle <= max
    }
  }

  datatype Joint =
    | BaseRotation
    | ShoulderRotation
    | ShoulderPitch
    | Elbow
    | WristPitch
    | WristRoll
    | Gripper

  /**
   * JOINT_LIMITS. Every range is well formed, contains the rest angle 0 and
   * lies within one half-turn either way.
   */
  function Limits(joint: Joint): (r: Range)
    ensures r.min <= r.max
    ensures r.Contains(0.0)
    ensures -PI <= r.min && r.max <= PI
  {
    match joint
    case BaseRotation => Range(-PI, PI)
    case ShoulderRotation => Range(-PI / 2.0, PI / 2.0)
    case ShoulderPitch => Range(-PI / 4.0, PI / 2.0)
    case Elbow => Range(-PI / 3.0, PI / 3.0)
    case WristPitch => Range(-PI / 2.0, PI / 2.0)
    case WristRoll => Range(-PI / 2.0, PI / 2.0)
    case Gripper => Range(0.0, PI)
  }

  /** The gripper opens over a half-turn from 0; the base turns a full turn. */
  lemma GripperAndBaseRanges()
    ensures Limits(Gripper) == Range(0.0, PI)
    ensures Limits(BaseRotation) == Range(-PI, PI)
    ensures Limits(BaseRotation).max - Limits(BaseRotation).min == 2.0 * PI
  {
  }
}

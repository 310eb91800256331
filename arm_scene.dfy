/**
 * The scene's animation state as the per-frame callback updates it in place:
 * targetPosition and the rotation fields of the bound group nodes.
 */
module ArmScene {
  import opened Wrappers
  import opened JointLimits
  import opened Easing
  import opened PoseUpdate

  class Scene {
    /** Which node refs are attached; fixed once the scene is mounted. */
    const bound: Bindings
    /** targetPosition. */
    var target: Vec3
    /** baseRef.current.rotation.y */
    var baseY: real
    /** shoulderRotationRef.current.rotation.y */
    var shoulderY: real
    /** gripperRef.current.rotation.y */
    var gripperY: real
    /** jawRef.current.rotation.y */
    var jawY: real
    /** wristPitchRef.current.rotation.x */
    var wristX: real

    function State(): ArmState
      reads this
    {
      ArmState(target, Pose(baseY, shoulderY, gripperY, jawY, wristX))
    }

    /** A freshly mounted scene: target at the origin, every group unrotated. */
    constructor (bound: Bindings)
      ensures this.bound == bound
      ensures State() == ArmState(Vec3(0.0, 0.0, 0.0), Rest)
      ensures WithinLimits(State().pose)
    {
      this.bound := bound;
      target := Vec3(0.0, 0.0, 0.0);
      baseY, shoulderY, gripperY, jawY, wristX := 0.0, 0.0, 0.0, 0.0, 0.0;
      RestWithinLimits();
    }

    /**
     * The useFrame callback: given where the pointer ray meets the ground
     * plane (if it does), the pointer's x, the gripper's world position and
     * the frame's delta, update the target and the bound joints.
     */
    method Step(hit: Option<Vec3>, pointerX: real, gripperPos: Vec3, delta: real, host: Host)
      modifies this
      ensures State() == NextState(bound, old(State()), FrameInput(hit, pointerX, gripperPos, delta), host)
      ensures old(WithinLimits(State().pose)) && delta >= 0.0 && host.ExpDecays() ==> WithinLimits(State().pose)
    {
      ghost var before := State();
      if hit.Some? {
        var intersection := hit.value;
        target := intersection;
        if bound.base {
          TurnBase(pointerX, delta, host);
        }
        if bound.shoulder {
          AimShoulder(intersection, host);
        }
        if bound.gripper && bound.jaw {
          Grip(intersection, gripperPos, delta, host);
        }
      }
      if WithinLimits(before.pose) && delta >= 0.0 && host.ExpDecays() {
        FrameKeepsLimits(bound, before, FrameInput(hit, pointerX, gripperPos, delta), host);
      }
    }

    /** The base yaw follows the pointer's side of the screen, clamped, then smoothed at rate 3. */
    method TurnBase(pointerX: real, delta: real, host: Host)
      modifies this`baseY
      ensures baseY == SmoothDamp(old(baseY), BaseGoal(pointerX), BaseRate * delta, host.exp)
    {
      var targetAngle;
      if pointerX < 0.0 {
        targetAngle := -PI + pointerX * PI;
      } else {
        targetAngle := PI - pointerX * PI;
      }
      baseY := SmoothDamp(
        baseY,
        Clamp(targetAngle, Limits(BaseRotation).min, Limits(BaseRotation).max),
        BaseRate * delta,
        host.exp);
    }

    /** The shoulder yaw is set to the clamped bearing of the hit point, with no smoothing. */
    method AimShoulder(intersection: Vec3, host: Host)
      modifies this`shoulderY
      ensures shoulderY == ShoulderGoal(intersection, host)
    {
      var angle := host.atan2(intersection.x, intersection.z);
      shoulderY := Clamp(angle, Limits(ShoulderRotation).min, Limits(ShoulderRotation).max);
    }

    /**
     * Gripper and jaw are smoothed at rate 5 toward the opening for the
     * gripper's distance to the target; then, if the wrist is bound, the
     * wrist pitch toward the clamped elevation angle at the same rate.
     */
    method Grip(intersection: Vec3, gripperPos: Vec3, delta: real, host: Host)
      requires target == intersection
      modifies this`gripperY, this`jawY, this`wristX
      ensures gripperY == SmoothDamp(old(gripperY), GripperGoal(Distance(gripperPos, intersection, host)), GripperRate * delta, host.exp)
      ensures jawY == SmoothDamp(old(jawY), GripperGoal(Distance(gripperPos, intersection, host)), GripperRate * delta, host.exp)
      ensures wristX == if bound.wrist
        then SmoothDamp(old(wristX), WristGoal(intersection, gripperPos, host), GripperRate * delta, host.exp)
        else old(wristX)
    {
      var distanceToTarget := Distance(gripperPos, target, host);
      var gripperAngle := Clamp(
        (CloseDistance - distanceToTarget) * PI,
        Limits(Gripper).min,
        Limits(Gripper).max);
      var smoothing := GripperRate * delta;
      gripperY := SmoothDamp(gripperY, gripperAngle, smoothing, host.exp);
      jawY := SmoothDamp(jawY, gripperAngle, smoothing, host.exp);

      if bound.wrist {
        var targetY := intersection.y - gripperPos.y;
        var targetDist := host.sqrt(
          Square(intersection.x - gripperPos.x) +
          Square(intersection.z - gripperPos.z));
        var wristAngle := -host.atan2(targetY, targetDist);
        wristX := SmoothDamp(
          wristX,
          Clamp(wristAngle, Limits(WristPitch).min, Limits(WristPitch).max),
          smoothing,
          host.exp);
      }
    }
  }
}

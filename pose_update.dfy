/**
 * One frame of the arm animation (the useFrame callback of the scene), as a
 * pure function from the scene's animation state and the frame's inputs to
 * the next state, together with what it guarantees.
 *
 * Ray casting and world-position queries belong to the rendering engine: the
 * point where the pointer ray meets the ground plane (or its absence) and the
 * gripper's world position are inputs of the frame.
 */
module PoseUpdate {
  import opened Wrappers
  import opened JointLimits
  import opened Easing

  datatype Vec3 = Vec3(x: real, y: real, z: real)

  /**
   * The host's mathematical functions, Math.exp, Math.atan2 and Math.sqrt,
   * as function values.
   */
  datatype Host = Host(exp: real -> real, atan2: (real, real) -> real, sqrt: real -> real) {
    /**
     * exp maps the non-positive reals into [0, 1]. Both the real exponential
     * and Math.exp (which underflows to 0 far left) do.
     */
    ghost predicate ExpDecays() {
      forall x: real :: x <= 0.0 ==> 0.0 <= exp(x) <= 1.0
    }

    /** The square root of a non-negative number is non-negative. */
    ghost predicate SqrtNonNegative() {
      forall x: real :: 0.0 <= x ==> 0.0 <= sqrt(x)
    }

    /**
     * atan2 with a non-negative second argument lies within quarter of 0.
     * The real atan2 meets this with quarter = pi / 2, Math.atan2 with
     * quarter = Math.PI / 2 as a double; both exceed PI / 2 by a hair.
     */
    ghost predicate Atan2Within(quarter: real) {
      forall y: real, x: real :: 0.0 <= x ==> -quarter <= atan2(y, x) <= quarter
    }
  }

  /**
   * Which node refs have a scene node attached (ref.current is set). A joint
   * whose ref is unattached is never written.
   */
  datatype Bindings = Bindings(base: bool, shoulder: bool, gripper: bool, jaw: bool, wrist: bool)

  /**
   * The bindings of the mounted page: the gripper, jaw and wrist groups take
   * their refs, but the Base and ShoulderRotationPitch groups only spread
   * their props and never set ref, so baseRef and shoulderRotationRef stay empty.
   */
  const Mounted: Bindings := Bindings(base := false, shoulder := false, gripper := true, jaw := true, wrist := true)

  /** The animated rotation fields: rotation.y of base, shoulder, gripper and jaw, rotation.x of the wrist. */
  datatype Pose = Pose(baseY: real, shoulderY: real, gripperY: real, jawY: real, wristX: real)

  /** The state that persists between frames: targetPosition and the pose. */
  datatype ArmState = ArmState(target: Vec3, pose: Pose)

  /** What one frame sees: the ray hit (if any), the pointer's normalised x, the gripper's world position, the elapsed time. */
  datatype FrameInput = FrameInput(hit: Option<Vec3>, pointerX: real, gripperPos: Vec3, delta: real)

  /** Smoothing rate per second of the base yaw and of the gripper, jaw and wrist. */
  const BaseRate: real := 3.0
  const GripperRate: real := 5.0
  /** Distance from the target under which the gripper starts to close. */
  const CloseDistance: real := 0.1

  /** The rest pose: every group starts unrotated. */
  const Rest: Pose := Pose(0.0, 0.0, 0.0, 0.0, 0.0)

  /** Every animated angle lies within its joint's limits. */
  predicate WithinLimits(p: Pose) {
    && Limits(BaseRotation).Contains(p.baseY)
    && Limits(ShoulderRotation).Contains(p.shoulderY)
    && Limits(Gripper).Contains(p.gripperY)
    && Limits(Gripper).Contains(p.jawY)
    && Limits(WristPitch).Contains(p.wristX)
  }

  lemma RestWithinLimits()
    ensures WithinLimits(Rest)
  {
  }

  function Square(v: real): real {
    v * v
  }

  /** Vector3.distanceTo. */
  function Distance(a: Vec3, b: Vec3, host: Host): (r: real)
    ensures host.SqrtNonNegative() ==> 0.0 <= r
  {
    host.sqrt(Square(a.x - b.x) + Square(a.y - b.y) + Square(a.z - b.z))
  }

  /**
   * The base-yaw target: the pointer's x maps to -PI + x*PI left of centre
   * and to PI - x*PI from the centre rightwards, then is clamped to the base
   * range. Every pointer left of centre gives exactly -PI; the right half of
   * the screen sweeps from PI at the centre down to 0 at the right edge.
   */
  function BaseGoal(pointerX: real): (r: real)
    ensures Limits(BaseRotation).Contains(r)
    ensures pointerX < 0.0 ==> r == -PI
    ensures 0.0 <= pointerX <= 1.0 ==> r == PI - pointerX * PI && 0.0 <= r
    ensures pointerX == 0.0 ==> r == PI
  {
    var targetAngle := if pointerX < 0.0 then -PI + pointerX * PI else PI - pointerX * PI;
    Clamp(targetAngle, Limits(BaseRotation).min, Limits(BaseRotation).max)
  }

  /** The shoulder yaw: the bearing atan2(hit.x, hit.z) of the hit point, clamped to the shoulder range. */
  function ShoulderGoal(hit: Vec3, host: Host): (r: real)
    ensures Limits(ShoulderRotation).Contains(r)
    ensures Limits(ShoulderRotation).Contains(host.atan2(hit.x, hit.z)) ==> r == host.atan2(hit.x, hit.z)
  {
    Clamp(host.atan2(hit.x, hit.z), Limits(ShoulderRotation).min, Limits(ShoulderRotation).max)
  }

  /**
   * The gripper (and jaw) opening for a gripper-to-target distance:
   * (0.1 - distance) * PI clamped to the gripper range. It is 0 from 0.1
   * onwards, and grows linearly to at most 0.1 * PI as the distance falls to 0.
   */
  function GripperGoal(distance: real): (r: real)
    ensures Limits(Gripper).Contains(r)
    ensures CloseDistance <= distance ==> r == 0.0
    ensures 0.0 <= distance ==> r <= CloseDistance * PI
    ensures 0.0 <= distance <= CloseDistance ==> r == (CloseDistance - distance) * PI
  {
    Clamp((CloseDistance - distance) * PI, Limits(Gripper).min, Limits(Gripper).max)
  }

  /**
   * The wrist pitch: minus the elevation angle from the gripper to the hit
   * point, clamped to the wrist range; an elevation already within the
   * range is taken as it is.
   */
  function WristGoal(hit: Vec3, gripperPos: Vec3, host: Host): (r: real)
    ensures Limits(WristPitch).Contains(r)
    ensures var raw := -host.atan2(hit.y - gripperPos.y, WristReach(hit, gripperPos, host));
      Limits(WristPitch).Contains(raw) ==> r == raw
  {
    var targetY := hit.y - gripperPos.y;
    var wristAngle := -host.atan2(targetY, WristReach(hit, gripperPos, host));
    Clamp(wristAngle, Limits(WristPitch).min, Limits(WristPitch).max)
  }

  /** The horizontal (XZ) distance from the gripper to the hit point. */
  function WristReach(hit: Vec3, gripperPos: Vec3, host: Host): (r: real)
    ensures host.SqrtNonNegative() ==> 0.0 <= r
  {
    host.sqrt(Square(hit.x - gripperPos.x) + Square(hit.z - gripperPos.z))
  }

  /**
   * The wrist clamp moves the raw pitch by at most quarter - PI / 2, where
   * atan2 stays within quarter for the non-negative horizontal distance: so
   * with quarter = PI / 2 it never binds, and with the real atan2 it binds
   * only by the gap between pi / 2 and PI / 2 (straight above or below the
   * gripper).
   */
  lemma WristClampNearlyInactive(hit: Vec3, gripperPos: Vec3, host: Host, quarter: real)
    requires host.SqrtNonNegative() && host.Atan2Within(quarter) && PI / 2.0 <= quarter
    ensures var raw := -host.atan2(hit.y - gripperPos.y, WristReach(hit, gripperPos, host));
      Abs(WristGoal(hit, gripperPos, host) - raw) <= quarter - PI / 2.0
  {
    var reach := WristReach(hit, gripperPos, host);
    assert -quarter <= host.atan2(hit.y - gripperPos.y, reach) <= quarter;
  }

  /**
   * One frame. On a miss nothing changes. On a hit the target becomes the
   * hit point; the base yaw (if bound) is smoothed toward its clamped goal
   * at rate 3; the shoulder yaw (if bound) is set to its clamped goal
   * outright; when both gripper and jaw are bound they are smoothed toward
   * the same clamped opening at rate 5, and then the wrist (if bound) toward
   * its clamped pitch at the same rate.
   */
  function NextState(b: Bindings, s: ArmState, input: FrameInput, host: Host): ArmState {
    match input.hit
    case None => s
    case Some(hit) =>
      var p := s.pose;
      var baseY :=
        if b.base then SmoothDamp(p.baseY, BaseGoal(input.pointerX), BaseRate * input.delta, host.exp)
        else p.baseY;
      var shoulderY := if b.shoulder then ShoulderGoal(hit, host) else p.shoulderY;
      var grip := b.gripper && b.jaw;
      var smoothing := GripperRate * input.delta;
      var opening := GripperGoal(Distance(input.gripperPos, hit, host));
      var gripperY := if grip then SmoothDamp(p.gripperY, opening, smoothing, host.exp) else p.gripperY;
      var jawY := if grip then SmoothDamp(p.jawY, opening, smoothing, host.exp) else p.jawY;
      var wristX :=
        if grip && b.wrist then SmoothDamp(p.wristX, WristGoal(hit, input.gripperPos, host), smoothing, host.exp)
        else p.wristX;
      ArmState(hit, Pose(baseY, shoulderY, gripperY, jawY, wristX))
  }

  /** The state after a sequence of frames. */
  function Run(b: Bindings, s: ArmState, frames: seq<FrameInput>, host: Host): ArmState
    decreases |frames|
  {
    if frames == [] then s else Run(b, NextState(b, s, frames[0], host), frames[1..], host)
  }

  /** When the ray misses the plane, neither the target nor any angle changes. */
  lemma MissChangesNothing(b: Bindings, s: ArmState, input: FrameInput, host: Host)
    requires input.hit == None
    ensures NextState(b, s, input, host) == s
  {
  }

  /** On a hit, the target becomes the hit point. */
  lemma HitMovesTarget(b: Bindings, s: ArmState, input: FrameInput, host: Host)
    requires input.hit.Some?
    ensures NextState(b, s, input, host).target == input.hit.value
  {
  }

  /**
   * A joint whose node is not bound keeps its angle; the wrist is written
   * only when gripper, jaw and wrist are all bound.
   */
  lemma UnboundJointsUntouched(b: Bindings, s: ArmState, input: FrameInput, host: Host)
    ensures var r := NextState(b, s, input, host).pose;
      && (!b.base ==> r.baseY == s.pose.baseY)
      && (!b.shoulder ==> r.shoulderY == s.pose.shoulderY)
      && (!(b.gripper && b.jaw) ==> r.gripperY == s.pose.gripperY && r.jawY == s.pose.jawY)
      && (!(b.gripper && b.jaw && b.wrist) ==> r.wristX == s.pose.wristX)
  {
  }

  /** In the mounted page every frame leaves the base and shoulder yaw as they were. */
  lemma MountedFrameMovesOnlyGripJawWrist(s: ArmState, input: FrameInput, host: Host)
    ensures NextState(Mounted, s, input, host).pose.baseY == s.pose.baseY
    ensures NextState(Mounted, s, input, host).pose.shoulderY == s.pose.shoulderY
  {
  }

  /**
   * The shoulder yaw is written without smoothing: after a hit it is the
   * clamped bearing, whatever it was before, so it lies in [-PI/2, PI/2].
   */
  lemma ShoulderSetDirectly(b: Bindings, s: ArmState, input: FrameInput, host: Host)
    requires input.hit.Some? && b.shoulder
    ensures NextState(b, s, input, host).pose.shoulderY == ShoulderGoal(input.hit.value, host)
    ensures -PI / 2.0 <= NextState(b, s, input, host).pose.shoulderY <= PI / 2.0
  {
  }

  /**
   * Each smoothed joint moves toward its clamped goal without passing it:
   * its new angle lies between its old angle and the goal.
   */
  lemma SmoothedJointsDoNotOvershoot(b: Bindings, s: ArmState, input: FrameInput, host: Host)
    requires input.hit.Some? && input.delta >= 0.0 && host.ExpDecays()
    ensures var r := NextState(b, s, input, host).pose;
      var hit := input.hit.value;
      var opening := GripperGoal(Distance(input.gripperPos, hit, host));
      && (b.base ==> Between(r.baseY, s.pose.baseY, BaseGoal(input.pointerX)))
      && (b.gripper && b.jaw ==> Between(r.gripperY, s.pose.gripperY, opening))
      && (b.gripper && b.jaw ==> Between(r.jawY, s.pose.jawY, opening))
      && (b.gripper && b.jaw && b.wrist ==> Between(r.wristX, s.pose.wristX, WristGoal(hit, input.gripperPos, host)))
  {
    var hit := input.hit.value;
    var p := s.pose;
    var opening := GripperGoal(Distance(input.gripperPos, hit, host));
    ExpDecayFactor(host, BaseRate * input.delta);
    ExpDecayFactor(host, GripperRate * input.delta);
    SmoothDampEases(p.baseY, BaseGoal(input.pointerX), BaseRate * input.delta, host.exp);
    SmoothDampEases(p.gripperY, opening, GripperRate * input.delta, host.exp);
    SmoothDampEases(p.jawY, opening, GripperRate * input.delta, host.exp);
    SmoothDampEases(p.wristX, WristGoal(hit, input.gripperPos, host), GripperRate * input.delta, host.exp);
  }

  /** Since a distance is never negative, the gripper never opens wider than 0.1 * PI. */
  lemma GripOpeningBounded(gripperPos: Vec3, hit: Vec3, host: Host)
    requires host.SqrtNonNegative()
    ensures 0.0 <= GripperGoal(Distance(gripperPos, hit, host)) <= CloseDistance * PI
  {
  }

  /**
   * Holding the frame input fixed, each bound smoothed joint after n frames
   * is where n successive smoothDamp steps toward its fixed goal put it; so
   * (by Easing.SettleApproaches and Easing.SettleConverges) it approaches
   * that goal monotonically and converges to it. Holding gripperPos fixed is
   * an idealisation: the wrist group is an ancestor of the gripper, so while
   * the wrist turns the gripper's world position moves with it.
   */
  lemma {:induction false} HeldInputSettles(b: Bindings, s: ArmState, input: FrameInput, host: Host, frames: seq<FrameInput>)
    requires input.hit.Some?
    requires forall i :: 0 <= i < |frames| ==> frames[i] == input
    ensures var r := Run(b, s, frames, host).pose;
      var hit := input.hit.value;
      var opening := GripperGoal(Distance(input.gripperPos, hit, host));
      var n := |frames|;
      && (b.base ==> r.baseY == Settle(s.pose.baseY, BaseGoal(input.pointerX), BaseRate * input.delta, host.exp, n))
      && (b.gripper && b.jaw ==> r.gripperY == Settle(s.pose.gripperY, opening, GripperRate * input.delta, host.exp, n))
      && (b.gripper && b.jaw ==> r.jawY == Settle(s.pose.jawY, opening, GripperRate * input.delta, host.exp, n))
      && (b.gripper && b.jaw && b.wrist ==>
            r.wristX == Settle(s.pose.wristX, WristGoal(hit, input.gripperPos, host), GripperRate * input.delta, host.exp, n))
    decreases |frames|
  {
    if frames != [] {
      var hit := input.hit.value;
      var opening := GripperGoal(Distance(input.gripperPos, hit, host));
      var n := |frames| - 1;
      var next := NextState(b, s, input, host);
      assert frames[0] == input;
      HeldInputSettles(b, next, input, host, frames[1..]);
      var p := s.pose;
      SettleShift(p.baseY, BaseGoal(input.pointerX), BaseRate * input.delta, host.exp, n);
      SettleShift(p.gripperY, opening, GripperRate * input.delta, host.exp, n);
      SettleShift(p.jawY, opening, GripperRate * input.delta, host.exp, n);
      SettleShift(p.wristX, WristGoal(hit, input.gripperPos, host), GripperRate * input.delta, host.exp, n);
    }
  }

  /** Gripper and jaw share one goal and one smoothing: once equal, they stay equal. */
  lemma JawMirrorsGripper(b: Bindings, s: ArmState, input: FrameInput, host: Host)
    requires s.pose.gripperY == s.pose.jawY
    ensures NextState(b, s, input, host).pose.gripperY == NextState(b, s, input, host).pose.jawY
  {
  }

  /** For a non-negative smoothing, exp gives a decay factor in [0, 1]. */
  lemma ExpDecayFactor(host: Host, smoothing: real)
    requires host.ExpDecays() && smoothing >= 0.0
    ensures 0.0 <= host.exp(-smoothing) <= 1.0
  {
  }

  /**
   * Clamp-then-smooth keeps the joint limits: a frame that starts within
   * the limits ends within them.
   */
  lemma FrameKeepsLimits(b: Bindings, s: ArmState, input: FrameInput, host: Host)
    requires WithinLimits(s.pose) && input.delta >= 0.0 && host.ExpDecays()
    ensures WithinLimits(NextState(b, s, input, host).pose)
  {
    if input.hit.Some? {
      SmoothedJointsDoNotOvershoot(b, s, input, host);
    }
  }

  /** ... and so does any run of frames, however the pointer moves. */
  lemma {:induction false} RunKeepsLimits(b: Bindings, s: ArmState, frames: seq<FrameInput>, host: Host)
    requires WithinLimits(s.pose) && host.ExpDecays()
    requires forall i :: 0 <= i < |frames| ==> frames[i].delta >= 0.0
    ensures WithinLimits(Run(b, s, frames, host).pose)
    decreases |frames|
  {
    if frames != [] {
      FrameKeepsLimits(b, s, frames[0], host);
      RunKeepsLimits(b, NextState(b, s, frames[0], host), frames[1..], host);
    }
  }
}

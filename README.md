# Robot-arm joint animation: a Dafny model

This models the one piece of the hackathon landing page that has logic of its
own: the per-frame animation of the decorative 3D robot arm in
`components/RobotArm.tsx`. Each rendered frame, the pointer ray is intersected
with the ground plane. On a hit, the scene stores the hit point as
`targetPosition`. It then derives a goal angle for the base yaw, the shoulder
yaw, the gripper/jaw opening and the wrist pitch, and clamps each goal to the
joint's range from `JOINT_LIMITS`. Finally it writes the result onto the
rotation field of the corresponding scene group. All goals except the shoulder
yaw are eased there with `smoothDamp`; the shoulder yaw is written directly.
On a miss the frame does nothing.

Layout:

- `wrappers.dfy`, module `Wrappers`: `Option`, for "the ray may miss".
- `joint_limits.dfy`, module `JointLimits`: `PI` (the real value of `Math.PI`'s
  shortest decimal), the joints and the `JOINT_LIMITS` table.
- `easing.dfy`, module `Easing`:
  - `clamp` and `smoothDamp`;
  - `Settle`, which is `smoothDamp` repeated over n frames toward a fixed goal;
  - convergence and frame-rate-independence lemmas.
- `pose_update.dfy`, module `PoseUpdate`:
  - the persistent animation state (`ArmState`: target and `Pose`);
  - which node refs are attached (`Bindings`, and `Mounted` for the page as
    written);
  - the per-joint goal functions;
  - `NextState`, a pure function giving one frame, and `Run`, giving a
    sequence of frames;
  - the lemmas about them.
- `arm_scene.dfy`, module `ArmScene`: class `Scene`.
  - Its fields are `targetPosition` and the rotation fields of the bound
    groups.
  - `Step` is the `useFrame` callback, with the guard structure of the
    source. It is split into one method per guarded section. Its contract
    equates the new state with `NextState` of the old state and says that it
    keeps the joint limits.

`Math.exp`, `Math.atan2` and `Math.sqrt` are function values, fields of a
`Host` record. The facts the proofs use about them are three predicates of
`Host`, each required only by the properties that need it:

- `ExpDecays()`: `exp(x)` lies in `[0, 1]` for `x <= 0`;
- `SqrtNonNegative()`: `sqrt(x) >= 0` for `x >= 0`;
- `Atan2Within(quarter)`: `atan2(y, x)` lies in `[-quarter, quarter]` when
  `x >= 0`.

The real functions and their double-precision counterparts all satisfy the
first two. The real `atan2` satisfies the third with `quarter` = π/2, which
is slightly more than the model's `PI / 2` (see `WristClampNearlyInactive`).
`Math.pow(v, 2)` is `v * v`.

The node refs are modelled as flags. `baseRef` and `shoulderRotationRef` are
handed down as props but never attached with `ref=`: `Base` and
`ShoulderRotationPitch` spread their props onto their group without setting
`ref`. So in the page as written, only the gripper, jaw and wrist are
animated. `Mounted` records this, and `MountedFrameMovesOnlyGripJawWrist`
states its consequence. Every other contract covers any combination of
attached refs.

Behaviours the model makes explicit:

- Base yaw. The sign-split rule makes every pointer position left of centre
  produce a raw goal of at most `-PI`, which clamps to exactly `-PI`. The
  left half of the screen therefore does not steer the base at all. The
  right half sweeps from `PI` at the centre down to `0` at the right edge.
- Wrist pitch. The wrist clamp hardly ever binds. The horizontal distance is
  a square root, so `-atan2(dy, dist)` already lies within a quarter-turn of
  0. It can exceed the wrist range only by the gap between π/2 and `PI / 2`,
  when the target is straight above or below the gripper.
- Behaviours one might expect that the code does not have:
  - the shoulder yaw is not smoothed, but set to its clamped goal at once;
  - a joint moves strictly between its angle and its goal only for a
    positive frame time and a joint not already at its goal;
  - a pointer at the horizontal centre says nothing about the shoulder's
    bearing, because that bearing comes from the hit point, not the pointer.
- Frame-rate independence holds exactly in real arithmetic wherever `exp`
  turns sums into products.

## Model

| member | source | states |
|---|---|---|
| JointLimits.Limits | components/RobotArm.tsx:7-15 | every joint range has min <= max, contains the rest angle 0 and lies within [-PI, PI] |
| JointLimits.GripperAndBaseRanges | components/RobotArm.tsx:8-14 | the gripper range is [0, PI] and the base range is [-PI, PI], a full turn |
| Easing.Clamp | components/RobotArm.tsx:18-20 | for min <= max the result lies in [min, max] and equals the value exactly when the value is in range; for inverted bounds the outer Math.max returns min |
| Easing.ClampIdempotent | components/RobotArm.tsx:18-20 | clamping an already clamped value changes nothing, for any bounds |
| Easing.ClampMonotone | components/RobotArm.tsx:18-20 | clamp preserves the order of its inputs |
| Easing.ClampIsNearest | components/RobotArm.tsx:18-20 | the result is the point of [min, max] nearest to the value |
| Easing.SmoothDampEases | components/RobotArm.tsx:22-24 | one step of `SmoothDamp` (the model of smoothDamp) multiplies the gap to the target by exp(-smoothing); with a factor in [0, 1] it never overshoots; with a factor below 1 it lands strictly between the current value and the target; a factor of 1 leaves the value unchanged, and a value already at the target stays there |
| Easing.SmoothDampAtZero | components/RobotArm.tsx:22-24 | with smoothing 0 (and exp(0) = 1) the value does not move |
| Easing.Settle | components/RobotArm.tsx:22-24 | n successive steps toward a fixed target stay between the start value and the target |
| Easing.SettleGap | components/RobotArm.tsx:22-24 | after n steps the gap to the target is the initial gap times exp(-smoothing)^n |
| Easing.SettleApproaches | components/RobotArm.tsx:22-24 | with a fixed target each further step lands between the previous value and the target and is no farther from it, so it never oscillates; with a factor below 1 a step that starts off the target strictly shortens the gap |
| Easing.PowBernoulli | components/RobotArm.tsx:22-24 | for a decay factor d in [0, 1], d^n lies in [0, 1] and d^n·(1 + n·(1 - d)) <= 1 (Bernoulli's inequality), the bound behind convergence |
| Easing.SettleConverges | components/RobotArm.tsx:22-24 | after n steps toward a fixed target the gap is at most the initial gap divided by 1 + n·(1 - d), so for d < 1 it tends to 0 |
| Easing.SettleWithinEps | components/RobotArm.tsx:22-24 | for any eps > 0 the value is within eps of the target once n·(1 - d)·eps reaches the initial gap |
| Easing.SmoothDampSplit | components/RobotArm.tsx:22-24 | two steps with smoothing s1 then s2 equal one step with s1 + s2 whenever exp(-(s1+s2)) = exp(-s1)·exp(-s2) (frame-rate independence) |
| Easing.SettleIsOneLongFrame | components/RobotArm.tsx:22-24 | n steps with smoothing s equal one step with n·s whenever exp(-n·s) = exp(-s)^n |
| PoseUpdate.RestWithinLimits | components/RobotArm.tsx:7-15 | the unrotated rest pose lies within every joint's limits |
| PoseUpdate.Distance | components/RobotArm.tsx:258 | the gripper-to-target distance is never negative when sqrt of a non-negative number is non-negative |
| PoseUpdate.BaseGoal | components/RobotArm.tsx:221-237 | the clamped base goal lies in [-PI, PI]; every pointer x < 0 gives exactly -PI; x in [0, 1] gives PI - x·PI, which lies in [0, PI]; dead centre gives PI |
| PoseUpdate.ShoulderGoal | components/RobotArm.tsx:245-250 | the shoulder goal lies in [-PI/2, PI/2] and equals atan2(hit.x, hit.z) whenever that bearing is already in range |
| PoseUpdate.GripperGoal | components/RobotArm.tsx:258-263 | the opening lies in [0, PI]; it is 0 for any distance >= 0.1; it is at most 0.1·PI for a non-negative distance; it is exactly (0.1 - d)·PI for d in [0, 0.1] |
| PoseUpdate.WristReach | components/RobotArm.tsx:285-288 | the horizontal gripper-to-target distance is non-negative when sqrt of a non-negative number is non-negative |
| PoseUpdate.WristGoal | components/RobotArm.tsx:284-299 | the wrist goal lies in [-PI/2, PI/2] and equals -atan2(dy, horizontal distance) whenever that angle is already in range |
| PoseUpdate.WristClampNearlyInactive | components/RobotArm.tsx:284-299 | when atan2 stays within quarter >= PI/2 for non-negative x, the clamp moves the raw wrist angle by at most quarter - PI/2; with quarter = PI/2 it never binds |
| PoseUpdate.MissChangesNothing | components/RobotArm.tsx:211-213 | `NextState` (one run of the useFrame callback) on a miss: neither the target nor any joint angle changes |
| PoseUpdate.HitMovesTarget | components/RobotArm.tsx:211-213 | on a hit the stored target becomes the hit point |
| PoseUpdate.UnboundJointsUntouched | components/RobotArm.tsx:216-302 | a joint whose ref is unattached keeps its angle; the wrist is written only when gripper, jaw and wrist are all attached |
| PoseUpdate.MountedFrameMovesOnlyGripJawWrist | components/RobotArm.tsx:136-176 | with the refs as the page attaches them (`Mounted`: gripper, jaw and wrist only), no frame ever changes the base or shoulder yaw |
| PoseUpdate.ShoulderSetDirectly | components/RobotArm.tsx:243-251 | after a hit the shoulder yaw is the clamped bearing, regardless of its previous value, and lies in [-PI/2, PI/2] |
| PoseUpdate.SmoothedJointsDoNotOvershoot | components/RobotArm.tsx:231-301 | for delta >= 0 and exp in [0, 1] on non-positive arguments, base, gripper, jaw and wrist each land between their old angle and their clamped goal |
| PoseUpdate.GripOpeningBounded | components/RobotArm.tsx:258-263 | for the actual gripper-to-target distance (a non-negative square root) the opening goal lies in [0, 0.1·PI] |
| PoseUpdate.HeldInputSettles | components/RobotArm.tsx:206-305 | when the same frame input repeats n times, `Run` leaves each attached smoothed joint where n smoothDamp steps toward its fixed goal put it (`Settle`), so it converges to that goal |
| PoseUpdate.JawMirrorsGripper | components/RobotArm.tsx:265-280 | gripper and jaw share one goal and one smoothing, so once equal they stay equal |
| PoseUpdate.FrameKeepsLimits | components/RobotArm.tsx:206-305 | clamp-then-smooth: a frame with delta >= 0 that starts within every joint's limits ends within them |
| PoseUpdate.RunKeepsLimits | components/RobotArm.tsx:206-305 | `Run` over any sequence of frames with non-negative deltas keeps every joint within its limits, however the pointer moves, given exp in [0, 1] on non-positive arguments |
| ArmScene.Scene.constructor | components/RobotArm.tsx:189-198 | a new scene has its target at the origin, every group unrotated, and is within limits |
| ArmScene.Scene.Step | components/RobotArm.tsx:206-305 | the callback's new state is NextState of the old state for this frame's inputs, and, for delta >= 0 and exp in [0, 1] on non-positive arguments, a frame that starts within the joint limits ends within them |
| ArmScene.Scene.TurnBase | components/RobotArm.tsx:216-240 | the base yaw becomes one smoothDamp step at rate 3·delta toward the clamped sign-split goal |
| ArmScene.Scene.AimShoulder | components/RobotArm.tsx:243-251 | the shoulder yaw becomes the clamped bearing of the hit point, with no smoothing |
| ArmScene.Scene.Grip | components/RobotArm.tsx:254-303 | gripper and jaw each take one smoothDamp step at rate 5·delta toward the same clamped opening; the wrist pitch is stepped at the same rate only if its ref is attached |

## Left out

- Ray casting is not modelled: `raycaster.setFromCamera` and `intersectPlane`
  (lines 208-211) belong to the rendering engine. Their result is an input of
  the frame: an optional hit point.
- The gripper's world position (`getWorldPosition`, line 256) is an input of
  the frame. The model does not compute it from the kinematic chain, so it
  does not capture how it changes with the wrist pitch.
- Bit-exact floating point is not modelled. `Math.exp`, `Math.atan2`,
  `Math.sqrt`, `Math.pow` and `Math.PI` are treated as real-valued, with only
  the facts in `Host.ExpDecays()`, `Host.SqrtNonNegative()` and
  `Host.Atan2Within(quarter)`. NaN handling in `clamp` is out of scope.
- `PI` is the real number 3.141592653589793, slightly below π. In real
  arithmetic `atan2(y, 0)` is π/2, which exceeds `PI / 2`, so the model's
  wrist clamp can bind by that gap when the target is straight above or below
  the gripper. In JavaScript, `Math.atan2(y, 0)` and `Math.PI / 2` are the
  same double, and the clamp does not bind there.
- 3D asset loading and rendering are out of scope: `useGLTF` and its
  preloads, materials, lights, `Canvas`, `OrbitControls`, the `Suspense`
  fallback and the JSX tree (lines 41-185, 307-331, 388-416).
- Re-applying JSX `rotation` props on a re-render is not modelled.
- The `TextureLoader` load gate (lines 366-386) is asynchronous I/O and is
  left out.
- The responsive scale (lines 158-163) reads `window.innerWidth` and is left
  out.
- The `reachable` state (line 199) is never read, so it is not modelled.
- The refs `shoulderPitchRef`, `elbowRef` and `wristRollRef` are never
  written by the callback. Only their rows in the limit table are modelled.
- The other pages and components are not part of this model. They hold
  static content or simple open/close toggles.

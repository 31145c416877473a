/** The scene camera of `src/camera.rs` as an immutable record with pure
    transition functions. Every `&mut self` method becomes a function from
    the old camera to the new one; the trigonometry and `normalize` come
    from the `Trig` parameter.

    What the code does, as opposed to what a reader might expect:
    `previous_state` is never written, `bird_eye_active` is raised by
    `set_bird_eye_view` and never lowered, and only `move_camera` looks at
    that flag. */
module CameraModel {
  import opened Base
  import opened LinAlg

  /** The `(eye, center, pitch, yaw, roll)` tuple the `previous_state`
      field is declared to hold. */
  datatype Snapshot = Snapshot(eye: Vec3, center: Vec3, pitch: real, yaw: real, roll: real)

  datatype Camera = Camera(
    eye: Vec3,
    center: Vec3,
    up: Vec3,
    hasChanged: bool,
    birdEyeActive: bool,
    previousState: Option<Snapshot>,
    yaw: real,
    roll: real,
    pitch: real)

  /** Pitch bound of `rotate_pitch`, `orbit` and `move_and_rotate`:
      `[-PI/2 + 0.1, PI/2 - 0.1]`. */
  const PitchLimit: real := Pi / 2.0 - 0.1

  /** Roll bound of `update_rotation` and `move_and_rotate`, and the pitch
      bound of `update_rotation`: `[-PI/4, PI/4]`. */
  const TiltLimit: real := Pi / 4.0

  /** The fixed framing of `set_bird_eye_view`. */
  const BirdEyeEye: Vec3 := Vec3(0.0, 1200.0, 800.0)
  const WorldUp: Vec3 := Vec3(0.0, 1.0, 0.0)

  /** The fixed framing of `set_normal_view`. */
  const NormalViewEye: Vec3 := Vec3(0.0, 0.0, 10.0)

  predicate PitchClamped(c: Camera) {
    -PitchLimit <= c.pitch <= PitchLimit
  }

  predicate TiltClamped(c: Camera) {
    -TiltLimit <= c.roll <= TiltLimit && -TiltLimit <= c.pitch <= TiltLimit
  }

  /** `Camera::new`: the given framing, every angle zero, the changed flag
      raised, bird's-eye mode off and no saved state. */
  function New(eye: Vec3, center: Vec3, up: Vec3): (c: Camera)
    ensures c.eye == eye && c.center == center && c.up == up
    ensures c.yaw == 0.0 && c.pitch == 0.0 && c.roll == 0.0
    ensures c.hasChanged && !c.birdEyeActive && c.previousState.None?
  {
    Camera(eye, center, up, true, false, None, 0.0, 0.0, 0.0)
  }

  /** `get_forward`: the unit vector of the stored yaw and pitch. */
  function Forward(c: Camera, t: Trig): Vec3 {
    Heading(c.yaw, c.pitch, t)
  }

  /** The spherical-to-Cartesian direction of a yaw and a pitch, normalised. */
  function Heading(yaw: real, pitch: real, t: Trig): Vec3 {
    Normalize(t, Vec3(t.cos(yaw) * t.cos(pitch), t.sin(pitch), t.sin(yaw) * t.cos(pitch)))
  }

  /** `get_right`: the normalised cross product of forward and up, so it is
      orthogonal to both (whatever length `normalize` gives it). */
  function Right(c: Camera, t: Trig): (r: Vec3)
    ensures Dot(Forward(c, t), r) == 0.0 && Dot(c.up, r) == 0.0
  {
    NormalizedCross(Forward(c, t), c.up, t)
  }

  /** `get_local_axes`: forward, right and the re-orthogonalised up. Its
      first two axes are `get_forward` and `get_right`, and the three are
      pairwise orthogonal. */
  function LocalAxes(c: Camera, t: Trig): (r: (Vec3, Vec3, Vec3))
    ensures r.0 == Forward(c, t) && r.1 == Right(c, t)
    ensures Dot(r.0, r.1) == 0.0 && Dot(r.1, r.2) == 0.0 && Dot(r.0, r.2) == 0.0
  {
    var forward := Forward(c, t);
    var right := Normalize(t, Cross(forward, c.up));
    var up := NormalizedCross(right, forward, t);
    (forward, right, up)
  }

  /** `a.cross(&b).normalize()`, orthogonal to both factors. */
  function NormalizedCross(a: Vec3, b: Vec3, t: Trig): (r: Vec3)
    ensures r == Normalize(t, Cross(a, b))
    ensures Dot(a, r) == 0.0 && Dot(b, r) == 0.0
  {
    var v := Cross(a, b);
    CrossOrthogonal(a, b);
    DotScale(a, v, t.invLen(v));
    DotScale(b, v, t.invLen(v));
    Normalize(t, v)
  }

  /** The local axes depend only on the angles and the up vector, not on
      where the camera stands. */
  lemma LocalAxesOfAngles(a: Camera, b: Camera, t: Trig)
    requires a.yaw == b.yaw && a.pitch == b.pitch && a.up == b.up
    ensures LocalAxes(a, t) == LocalAxes(b, t)
    ensures Forward(a, t) == Forward(b, t) && Right(a, t) == Right(b, t)
  {
  }

  /** The free-fly invariant: the camera looks along the direction its
      angles describe, one unit ahead of the eye. */
  ghost predicate Aligned(c: Camera, t: Trig) {
    c.center == Add(c.eye, Forward(c, t))
  }

  // ------------------------------------------------------------ orbit

  /** The spherical angles `orbit` computes: the yaw wrapped by `% (2 PI)`
      into the open interval of one turn, and the pitch clamped away from
      the poles. Neither is stored in the camera. */
  function OrbitAngles(c: Camera, deltaYaw: real, deltaPitch: real, t: Trig): (a: (real, real))
    ensures -Turn < a.0 < Turn
    ensures -PitchLimit <= a.1 <= PitchLimit
  {
    var rv := Sub(c.eye, c.center);
    var currentYaw := t.atan2(rv.z, rv.x);
    var radiusXz := t.sqrt(rv.x * rv.x + rv.z * rv.z);
    var currentPitch := t.atan2(-rv.y, radiusXz);
    (WrapTurn(currentYaw + deltaYaw), Clamp(currentPitch + deltaPitch, -PitchLimit, PitchLimit))
  }

  /** `orbit`: re-places the eye on the sphere around the unchanged center.
      Only the eye and the changed flag are written; in particular the
      stored yaw and pitch stay as they were. */
  function Orbit(c: Camera, deltaYaw: real, deltaPitch: real, t: Trig): (r: Camera)
    ensures r == c.(eye := r.eye, hasChanged := true)
    ensures var a := OrbitAngles(c, deltaYaw, deltaPitch, t);
      r.eye == Add(c.center, SphereOffset(Magnitude(t, Sub(c.eye, c.center)), a.0, a.1, t))
  {
    var radius := Magnitude(t, Sub(c.eye, c.center));
    var (newYaw, newPitch) := OrbitAngles(c, deltaYaw, deltaPitch, t);
    c.(eye := Add(c.center, SphereOffset(radius, newYaw, newPitch, t)), hasChanged := true)
  }

  /** The spherical-to-Cartesian offset `orbit` places the eye at:
      `(r cos yaw cos pitch, -r sin pitch, r sin yaw cos pitch)`. */
  function SphereOffset(radius: real, yaw: real, pitch: real, t: Trig): Vec3 {
    Vec3(radius * t.cos(yaw) * t.cos(pitch), -radius * t.sin(pitch), radius * t.sin(yaw) * t.cos(pitch))
  }

  /** With a Pythagorean `sin`/`cos` and a true square root, `orbit` keeps
      the eye at the same distance from the center. */
  lemma OrbitPreservesRadius(c: Camera, deltaYaw: real, deltaPitch: real, t: Trig)
    requires Pythagorean(t)
    ensures var r := Orbit(c, deltaYaw, deltaPitch, t);
            Dot(Sub(r.eye, r.center), Sub(r.eye, r.center)) == Dot(Sub(c.eye, c.center), Sub(c.eye, c.center))
  {
    var rv := Sub(c.eye, c.center);
    var radius := Magnitude(t, rv);
    var (ny, np) := OrbitAngles(c, deltaYaw, deltaPitch, t);
    var offset := SphereOffset(radius, ny, np, t);
    assert Orbit(c, deltaYaw, deltaPitch, t).eye == Add(c.center, offset);
    AddSubCancel(c.center, offset);
    SphereOffsetLength(radius, ny, np, t);
    assert Dot(rv, rv) >= 0.0 by { SquaresNonNegative(rv.x, rv.y, rv.z); }
  }

  lemma SquaresNonNegative(x: real, y: real, z: real)
    ensures x * x + y * y + z * z >= 0.0
  {
  }

  /** The spherical-to-Cartesian offset has length `radius`. */
  lemma SphereOffsetLength(radius: real, yaw: real, pitch: real, t: Trig)
    requires Pythagorean(t)
    ensures Dot(SphereOffset(radius, yaw, pitch, t), SphereOffset(radius, yaw, pitch, t)) == radius * radius
  {
    var cy, sy, cp, sp := t.cos(yaw), t.sin(yaw), t.cos(pitch), t.sin(pitch);
    assert sy * sy + cy * cy == 1.0 && sp * sp + cp * cp == 1.0;
    var r2 := radius * radius;
    calc {
      Dot(Vec3(radius * cy * cp, -radius * sp, radius * sy * cp),
          Vec3(radius * cy * cp, -radius * sp, radius * sy * cp));
      (radius * cy * cp) * (radius * cy * cp) + (-radius * sp) * (-radius * sp) + (radius * sy * cp) * (radius * sy * cp);
      r2 * (cp * cp) * (cy * cy + sy * sy) + r2 * (sp * sp);
      { assert cy * cy + sy * sy == 1.0; }
      r2 * (cp * cp) + r2 * (sp * sp);
      r2 * (cp * cp + sp * sp);
      { assert cp * cp + sp * sp == 1.0; }
      r2;
    }
  }

  // ------------------------------------------------------------ zoom and translation

  /** `zoom`: the eye moves along the line from the eye towards the center
      (towards it for positive `delta`); nothing but the eye and the
      changed flag is written. */
  function Zoom(c: Camera, delta: real, t: Trig): (r: Camera)
    ensures r == c.(eye := r.eye, hasChanged := true)
    ensures exists k :: r.eye == Add(c.eye, Scale(Sub(c.center, c.eye), k))
  {
    var v := Sub(c.center, c.eye);
    var direction := Normalize(t, v);
    assert Scale(direction, delta) == Scale(v, t.invLen(v) * delta);
    c.(eye := Add(c.eye, Scale(direction, delta)), hasChanged := true)
  }

  /** The fraction of the eye-to-center distance that `zoom(delta)` covers. */
  function ZoomFraction(c: Camera, delta: real, t: Trig): real {
    delta * t.invLen(Sub(c.center, c.eye))
  }

  /** Zooming in by `delta` and back out by `delta` restores the eye,
      provided `normalize` measures length homogeneously and the first step
      stops short of the center. Only the changed flag differs. */
  lemma ZoomRoundTrip(c: Camera, delta: real, t: Trig)
    requires HomogeneousLength(t)
    requires ZoomFraction(c, delta, t) < 1.0
    ensures Zoom(Zoom(c, delta, t), -delta, t) == c.(hasChanged := true)
  {
    var v := Sub(c.center, c.eye);
    var k := 1.0 - ZoomFraction(c, delta, t);
    var z1 := Zoom(c, delta, t);
    ZoomShrinks(c, delta, t);
    HomogeneousAt(t, v, k);
    ScaleTwice(v, k, t.invLen(v));
    assert Normalize(t, Sub(c.center, z1.eye)) == Normalize(t, v);
    var step := Scale(Normalize(t, v), delta);
    AddSubCancel(c.eye, step);
    assert Scale(Normalize(t, v), -delta) == Neg(step);
  }

  /** A zoom step scales the viewing vector by `1 - fraction`. */
  lemma ZoomShrinks(c: Camera, delta: real, t: Trig)
    ensures Sub(c.center, Zoom(c, delta, t).eye)
         == Scale(Sub(c.center, c.eye), 1.0 - ZoomFraction(c, delta, t))
  {
    ZoomStep(c.center, c.eye, t.invLen(Sub(c.center, c.eye)), delta);
  }

  /** Moving `eye` by `delta` along `(center - eye) * len` shrinks the
      viewing vector by the factor `1 - delta * len`. */
  lemma ZoomStep(center: Vec3, eye: Vec3, len: real, delta: real)
    ensures Sub(center, Add(eye, Scale(Scale(Sub(center, eye), len), delta)))
         == Scale(Sub(center, eye), 1.0 - delta * len)
  {
    var v := Sub(center, eye);
    assert (v.x * len) * delta == v.x * (delta * len);
    assert (v.y * len) * delta == v.y * (delta * len);
    assert (v.z * len) * delta == v.z * (delta * len);
  }

  /** Scaling by `k` and then by `len / k` is scaling by `len`. */
  lemma ScaleTwice(v: Vec3, k: real, len: real)
    requires k != 0.0
    ensures Scale(Scale(v, k), len / k) == Scale(v, len)
  {
    assert k * (len / k) == len;
    assert (v.x * k) * (len / k) == v.x * (k * (len / k));
    assert (v.y * k) * (len / k) == v.y * (k * (len / k));
    assert (v.z * k) * (len / k) == v.z * (k * (len / k));
  }

  /** `move_center`: eye and center translate together, so the viewing
      vector `center - eye` is kept; angles, up vector and both flags are
      untouched (the changed flag is not raised). */
  function MoveCenter(c: Camera, movement: Vec3): (r: Camera)
    ensures r == c.(eye := r.eye, center := r.center)
    ensures Sub(r.eye, c.eye) == movement && Sub(r.center, c.center) == movement
    ensures Sub(r.center, r.eye) == Sub(c.center, c.eye)
  {
    c.(center := Add(c.center, movement), eye := Add(c.eye, movement))
  }

  /** Translating by `v` and then by `-v` is the identity. */
  lemma MoveCenterInverse(c: Camera, v: Vec3)
    ensures MoveCenter(MoveCenter(c, v), Neg(v)) == c
  {
    AddSubCancel(c.eye, v);
    AddSubCancel(c.center, v);
  }

  /** Translation keeps a free-fly camera aligned. */
  lemma MoveCenterKeepsAligned(c: Camera, v: Vec3, t: Trig)
    requires Aligned(c, t)
    ensures Aligned(MoveCenter(c, v), t)
  {
  }

  // ------------------------------------------------------------ dirty flag

  /** `check_if_changed`: reports the flag and lowers it; nothing else
      changes. */
  function CheckIfChanged(c: Camera): (res: (bool, Camera))
    ensures res.0 == c.hasChanged
    ensures res.1 == c.(hasChanged := false)
  {
    if c.hasChanged then (true, c.(hasChanged := false)) else (false, c)
  }

  /** Two consecutive checks report `(x, false)` and the second leaves the
      camera exactly as the first did. */
  lemma CheckTwice(c: Camera)
    ensures var (first, c1) := CheckIfChanged(c);
            var (second, c2) := CheckIfChanged(c1);
            first == c.hasChanged && !second && c2 == c1 && !c2.hasChanged
  {
  }

  // ------------------------------------------------------------ free-fly moves

  /** `update_center`: re-derives the center from the eye and the angles. */
  function UpdateCenter(c: Camera, t: Trig): (r: Camera)
    ensures r == c.(center := r.center)
    ensures Aligned(r, t)
  {
    c.(center := Add(c.eye, Forward(c, t)))
  }

  /** `move_forward`: steps the eye along the forward direction and
      re-aligns the center. */
  function MoveForward(c: Camera, amount: real, t: Trig): (r: Camera)
    ensures r == c.(eye := r.eye, center := r.center)
    ensures Sub(r.eye, c.eye) == Scale(Forward(c, t), amount)
    ensures Aligned(r, t)
  {
    var moved := c.(eye := Add(c.eye, Scale(Forward(c, t), amount)));
    AddSubCancel(c.eye, Scale(Forward(c, t), amount));
    UpdateCenter(moved, t)
  }

  /** `move_up`: steps the eye along the stored up vector and re-aligns
      the center. Bird's-eye mode does not stop it. */
  function MoveUp(c: Camera, amount: real, t: Trig): (r: Camera)
    ensures r == c.(eye := r.eye, center := r.center)
    ensures Sub(r.eye, c.eye) == Scale(c.up, amount)
    ensures Aligned(r, t)
  {
    AddSubCancel(c.eye, Scale(c.up, amount));
    UpdateCenter(c.(eye := Add(c.eye, Scale(c.up, amount))), t)
  }

  /** Rising by `amount` and then by `-amount` returns an aligned camera to
      where it was. */
  lemma MoveUpInverse(c: Camera, amount: real, t: Trig)
    requires Aligned(c, t)
    ensures MoveUp(MoveUp(c, amount, t), -amount, t) == c
  {
    var r := MoveUp(c, amount, t);
    assert Scale(c.up, -amount) == Neg(Scale(c.up, amount));
    AddSubCancel(c.eye, Scale(c.up, amount));
    LocalAxesOfAngles(r, c, t);
  }

  /** `rotate_yaw`: turns by `angle` (unclamped) and re-aligns the center. */
  function RotateYaw(c: Camera, angle: real, t: Trig): (r: Camera)
    ensures r == c.(yaw := r.yaw, center := r.center)
    ensures r.yaw == c.yaw + angle
    ensures Aligned(r, t)
  {
    UpdateCenter(c.(yaw := c.yaw + angle), t)
  }

  /** `rotate_pitch`: the new pitch is the old one plus `angle`, held
      inside `[-PI/2 + 0.1, PI/2 - 0.1]` however large `angle` is; the
      center is re-aligned and the eye stays put. Bird's-eye mode does not
      stop it. */
  function RotatePitch(c: Camera, angle: real, t: Trig): (r: Camera)
    ensures r == c.(pitch := r.pitch, center := r.center)
    ensures PitchClamped(r)
    ensures -PitchLimit <= c.pitch + angle <= PitchLimit ==> r.pitch == c.pitch + angle
    ensures c.pitch + angle > PitchLimit ==> r.pitch == PitchLimit
    ensures c.pitch + angle < -PitchLimit ==> r.pitch == -PitchLimit
    ensures Aligned(r, t)
  {
    UpdateCenter(c.(pitch := Clamp(c.pitch + angle, -PitchLimit, PitchLimit)), t)
  }

  // ------------------------------------------------------------ fixed framings

  /** `set_bird_eye_view`: the overhead framing with the mode flag and the
      changed flag raised. The angles are not reset and nothing is saved in
      `previous_state`. */
  function SetBirdEyeView(c: Camera): (r: Camera)
    ensures r.eye == BirdEyeEye && r.center == Zero3 && r.up == WorldUp
    ensures r.birdEyeActive && r.hasChanged
    ensures r.yaw == c.yaw && r.pitch == c.pitch && r.roll == c.roll
    ensures r.previousState == c.previousState
  {
    c.(eye := BirdEyeEye, center := Zero3, up := WorldUp, birdEyeActive := true, hasChanged := true)
  }

  /** `set_normal_view`: the default framing. Neither flag is touched. */
  function SetNormalView(c: Camera): (r: Camera)
    ensures r == c.(eye := NormalViewEye, center := Zero3, up := WorldUp)
    ensures r.birdEyeActive == c.birdEyeActive && r.hasChanged == c.hasChanged
  {
    c.(eye := NormalViewEye, center := Zero3, up := WorldUp)
  }

  // ------------------------------------------------------------ rotation state

  /** `update_rotation`: adds the three deltas, then clamps roll and pitch
      to `[-PI/4, PI/4]`; yaw is left unclamped. */
  function UpdateRotation(c: Camera, deltaRoll: real, deltaPitch: real, deltaYaw: real): (r: Camera)
    ensures r == c.(roll := r.roll, pitch := r.pitch, yaw := r.yaw)
    ensures TiltClamped(r)
    ensures r.yaw == c.yaw + deltaYaw
    ensures -TiltLimit <= c.roll + deltaRoll <= TiltLimit ==> r.roll == c.roll + deltaRoll
    ensures c.roll + deltaRoll < -TiltLimit ==> r.roll == -TiltLimit
    ensures TiltLimit < c.roll + deltaRoll ==> r.roll == TiltLimit
    ensures -TiltLimit <= c.pitch + deltaPitch <= TiltLimit ==> r.pitch == c.pitch + deltaPitch
    ensures c.pitch + deltaPitch < -TiltLimit ==> r.pitch == -TiltLimit
    ensures TiltLimit < c.pitch + deltaPitch ==> r.pitch == TiltLimit
  {
    c.(roll := Clamp(c.roll + deltaRoll, -TiltLimit, TiltLimit),
       pitch := Clamp(c.pitch + deltaPitch, -TiltLimit, TiltLimit),
       yaw := c.yaw + deltaYaw)
  }

  /** `reset_rotation`: all three angles back to zero. */
  function ResetRotation(c: Camera): (r: Camera)
    ensures r == c.(roll := 0.0, pitch := 0.0, yaw := 0.0)
    ensures TiltClamped(r) && PitchClamped(r)
  {
    c.(roll := 0.0, pitch := 0.0, yaw := 0.0)
  }

  /** A reset forgets every earlier rotation update. */
  lemma ResetForgetsRotation(c: Camera, deltaRoll: real, deltaPitch: real, deltaYaw: real)
    ensures ResetRotation(UpdateRotation(c, deltaRoll, deltaPitch, deltaYaw)) == ResetRotation(c)
  {
  }

  /** `move_camera`: the only operation that honours bird's-eye mode, where
      it changes nothing at all. Otherwise it moves the eye (never the
      center) as `Drift` does and updates the angles: with all three deltas
      zero every angle returns to zero, otherwise the deltas go through
      `update_rotation` (`MoveCameraAngles`, `MoveCameraEye`). */
  function MoveCamera(c: Camera, deltaTime: real, deltaRoll: real, deltaPitch: real, deltaYaw: real, t: Trig): (r: Camera)
    ensures c.birdEyeActive ==> r == c
    ensures !c.birdEyeActive ==> r == c.(eye := r.eye, yaw := r.yaw, pitch := r.pitch, roll := r.roll)
    ensures !c.birdEyeActive ==> r.eye == Drift(c, deltaTime, deltaPitch, deltaYaw, t).eye
  {
    if c.birdEyeActive then c
    else
      var moved := Drift(c, deltaTime, deltaPitch, deltaYaw, t);
      if deltaRoll == 0.0 && deltaPitch == 0.0 && deltaYaw == 0.0 then ResetRotation(moved)
      else
        UpdateRotation(moved, deltaRoll, deltaPitch, deltaYaw)
  }

  /** The angles `move_camera` leaves: all zero when every delta is zero;
      otherwise yaw and pitch receive their deltas twice (once scaled by
      `deltaTime`, once not), pitch and roll clamped to `[-PI/4, PI/4]`. */
  lemma MoveCameraAngles(c: Camera, deltaTime: real, deltaRoll: real, deltaPitch: real, deltaYaw: real, t: Trig)
    ensures var r := MoveCamera(c, deltaTime, deltaRoll, deltaPitch, deltaYaw, t);
            !c.birdEyeActive && deltaRoll == 0.0 && deltaPitch == 0.0 && deltaYaw == 0.0 ==>
              r.yaw == 0.0 && r.pitch == 0.0 && r.roll == 0.0
    ensures var r := MoveCamera(c, deltaTime, deltaRoll, deltaPitch, deltaYaw, t);
            !c.birdEyeActive && !(deltaRoll == 0.0 && deltaPitch == 0.0 && deltaYaw == 0.0) ==>
              TiltClamped(r) && r.yaw == c.yaw + deltaYaw * deltaTime + deltaYaw
              && r.pitch == Clamp(c.pitch + deltaPitch * deltaTime + deltaPitch, -TiltLimit, TiltLimit)
              && r.roll == Clamp(c.roll + deltaRoll, -TiltLimit, TiltLimit)
  {
    if !c.birdEyeActive && !(deltaRoll == 0.0 && deltaPitch == 0.0 && deltaYaw == 0.0) {
      var moved := Drift(c, deltaTime, deltaPitch, deltaYaw, t);
      var r := UpdateRotation(moved, deltaRoll, deltaPitch, deltaYaw);
      assert r.pitch == Clamp(moved.pitch + deltaPitch, -TiltLimit, TiltLimit);
      assert r.roll == Clamp(moved.roll + deltaRoll, -TiltLimit, TiltLimit);
      assert moved.pitch + deltaPitch == c.pitch + deltaPitch * deltaTime + deltaPitch;
      assert MoveCamera(c, deltaTime, deltaRoll, deltaPitch, deltaYaw, t) == r;
    }
  }

  /** Outside bird's-eye mode the eye moves by the angles it had BEFORE the
      call, whatever the deltas: forward by `deltaTime`, right by
      `roll * deltaTime` and up by `pitch * deltaTime`. */
  lemma MoveCameraEye(c: Camera, deltaTime: real, deltaRoll: real, deltaPitch: real, deltaYaw: real, t: Trig)
    ensures var r := MoveCamera(c, deltaTime, deltaRoll, deltaPitch, deltaYaw, t);
            !c.birdEyeActive ==>
              Sub(r.eye, c.eye) == Add(Add(Scale(Forward(c, t), deltaTime), Along(Right(c, t), c.roll, deltaTime)),
                                       Vec3(0.0, c.pitch * deltaTime, 0.0))
  {
  }

  /** The first half of `move_camera`: the eye drifts by the current angles
      and the yaw and pitch rates are integrated over `deltaTime`; roll,
      center and flags are kept. */
  function Drift(c: Camera, deltaTime: real, deltaPitch: real, deltaYaw: real, t: Trig): (r: Camera)
    ensures r == c.(eye := r.eye, yaw := c.yaw + deltaYaw * deltaTime, pitch := c.pitch + deltaPitch * deltaTime)
    ensures Sub(r.eye, c.eye) == Add(Add(Scale(Forward(c, t), deltaTime), Along(Right(c, t), c.roll, deltaTime)),
                                     Vec3(0.0, c.pitch * deltaTime, 0.0))
  {
    c.(eye := DriftEye(c.eye, Forward(c, t), Right(c, t), c.roll, c.pitch, deltaTime),
       yaw := c.yaw + deltaYaw * deltaTime, pitch := c.pitch + deltaPitch * deltaTime)
  }

  /** The displacement of moving along `v` at `rate` for `dt`. */
  function Along(v: Vec3, rate: real, dt: real): Vec3 {
    Scale(v, rate * dt)
  }

  /** The eye after `move_camera`'s three steps: along `forward` by
      `dt`, along `right` by `roll * dt`, and up by `pitch * dt`. */
  function DriftEye(eye: Vec3, forward: Vec3, right: Vec3, roll: real, pitch: real, dt: real): (r: Vec3)
    ensures Sub(r, eye) == Add(Add(Scale(forward, dt), Along(right, roll, dt)), Vec3(0.0, pitch * dt, 0.0))
  {
    var eye1 := Add(eye, Scale(forward, dt));
    var eye2 := Add(eye1, Scale(Scale(right, roll), dt));
    eye2.(y := eye2.y + pitch * dt)
  }

  /** The eye after `move_and_rotate`'s four steps along the local axes:
      the three inputs scaled by `dt`, then a further forward drift of
      `roll * dt`. */
  function FlyEye(eye: Vec3, forward: Vec3, right: Vec3, up: Vec3, inputs: FlyInputs, roll: real, dt: real): (r: Vec3)
    ensures Sub(r, eye) == Add(Add(Add(Along(forward, inputs.forward, dt), Along(right, inputs.right, dt)),
                                   Along(up, inputs.up, dt)), Along(forward, roll, dt))
  {
    var eye1 := Add(eye, Scale(Scale(forward, inputs.forward), dt));
    var eye2 := Add(eye1, Scale(Scale(right, inputs.right), dt));
    var eye3 := Add(eye2, Scale(Scale(up, inputs.up), dt));
    Add(eye3, Scale(forward, roll * dt))
  }

  /** The inputs tuple of `move_and_rotate`:
      `(forward, right, up, roll, pitch, yaw)`. */
  datatype FlyInputs = FlyInputs(forward: real, right: real, up: real, roll: real, pitch: real, yaw: real)

  /** `move_and_rotate`: integrates the angle rates (pitch clamped away from
      the poles, roll to `[-PI/4, PI/4]`, yaw free), moves the eye along the
      new local axes and re-aligns the center. It does not look at the
      bird's-eye flag. */
  function MoveAndRotate(c: Camera, deltaTime: real, inputs: FlyInputs, t: Trig): (r: Camera)
    ensures r == c.(eye := r.eye, center := r.center, yaw := r.yaw, pitch := r.pitch, roll := r.roll)
    ensures PitchClamped(r) && -TiltLimit <= r.roll <= TiltLimit
    ensures r.yaw == c.yaw + inputs.yaw * deltaTime
    ensures r.pitch == Clamp(c.pitch + inputs.pitch * deltaTime, -PitchLimit, PitchLimit)
    ensures r.roll == Clamp(c.roll + inputs.roll * deltaTime, -TiltLimit, TiltLimit)
    // the eye moves along the axes of the NEW angles, plus a forward drift of roll times time
    ensures var axes := LocalAxes(r, t);
            Sub(r.eye, c.eye) == Add(Add(Add(Along(axes.0, inputs.forward, deltaTime), Along(axes.1, inputs.right, deltaTime)),
                                         Along(axes.2, inputs.up, deltaTime)), Along(axes.0, r.roll, deltaTime))
    ensures Aligned(r, t)
  {
    var turned := c.(yaw := c.yaw + inputs.yaw * deltaTime,
                     pitch := Clamp(c.pitch + inputs.pitch * deltaTime, -PitchLimit, PitchLimit),
                     roll := Clamp(c.roll + inputs.roll * deltaTime, -TiltLimit, TiltLimit));
    var (forward, right, up) := LocalAxes(turned, t);
    var r := UpdateCenter(turned.(eye := FlyEye(turned.eye, forward, right, up, inputs, turned.roll, deltaTime)), t);
    LocalAxesOfAngles(r, turned, t);
    r
  }

  // ------------------------------------------------------------ the mode flag across all operations

  /** Every state-changing method of `Camera`, with its arguments. */
  datatype CameraOp =
    | OrbitOp(deltaYaw: real, deltaPitch: real)
    | ZoomOp(delta: real)
    | MoveCenterOp(movement: Vec3)
    | CheckIfChangedOp
    | UpdateCenterOp
    | MoveForwardOp(amount: real)
    | MoveUpOp(amount: real)
    | RotateYawOp(angle: real)
    | RotatePitchOp(angle: real)
    | SetBirdEyeViewOp
    | SetNormalViewOp
    | UpdateRotationOp(deltaRoll: real, deltaPitch: real, deltaYaw: real)
    | ResetRotationOp
    | MoveCameraOp(deltaTime: real, deltaRoll: real, deltaPitch: real, deltaYaw: real)
    | MoveAndRotateOp(deltaTime: real, inputs: FlyInputs)

  function Apply(c: Camera, op: CameraOp, t: Trig): Camera {
    match op
    case OrbitOp(dy, dp) => Orbit(c, dy, dp, t)
    case ZoomOp(d) => Zoom(c, d, t)
    case MoveCenterOp(v) => MoveCenter(c, v)
    case CheckIfChangedOp => CheckIfChanged(c).1
    case UpdateCenterOp => UpdateCenter(c, t)
    case MoveForwardOp(a) => MoveForward(c, a, t)
    case MoveUpOp(a) => MoveUp(c, a, t)
    case RotateYawOp(a) => RotateYaw(c, a, t)
    case RotatePitchOp(a) => RotatePitch(c, a, t)
    case SetBirdEyeViewOp => SetBirdEyeView(c)
    case SetNormalViewOp => SetNormalView(c)
    case UpdateRotationOp(dr, dp, dy) => UpdateRotation(c, dr, dp, dy)
    case ResetRotationOp => ResetRotation(c)
    case MoveCameraOp(dt, dr, dp, dy) => MoveCamera(c, dt, dr, dp, dy, t)
    case MoveAndRotateOp(dt, inputs) => MoveAndRotate(c, dt, inputs, t)
  }

  function Run(c: Camera, ops: seq<CameraOp>, t: Trig): Camera
    decreases |ops|
  {
    if |ops| == 0 then c else Run(Apply(c, ops[0], t), ops[1..], t)
  }

  /** One operation: no method writes `previous_state`, no method lowers
      `bird_eye_active`, and only `set_bird_eye_view` raises it. */
  lemma ApplyModeFlags(c: Camera, op: CameraOp, t: Trig)
    ensures Apply(c, op, t).previousState == c.previousState
    ensures c.birdEyeActive ==> Apply(c, op, t).birdEyeActive
    ensures Apply(c, op, t).birdEyeActive ==> c.birdEyeActive || op.SetBirdEyeViewOp?
  {
  }

  /** Any sequence of calls: `previous_state` keeps its value and, once
      raised, the bird's-eye flag stays raised. */
  lemma {:induction false} RunModeFlags(c: Camera, ops: seq<CameraOp>, t: Trig)
    ensures Run(c, ops, t).previousState == c.previousState
    ensures c.birdEyeActive ==> Run(c, ops, t).birdEyeActive
    ensures (forall i :: 0 <= i < |ops| ==> !ops[i].SetBirdEyeViewOp?) ==>
              Run(c, ops, t).birdEyeActive == c.birdEyeActive
    decreases |ops|
  {
    if |ops| > 0 {
      ApplyModeFlags(c, ops[0], t);
      RunModeFlags(Apply(c, ops[0], t), ops[1..], t);
      assert forall i :: 0 <= i < |ops| - 1 ==> ops[1..][i] == ops[i + 1];
    }
  }

  /** After `set_bird_eye_view`, whatever else is called, `move_camera` is
      a no-op from then on. */
  lemma BirdEyeFreezesMoveCamera(c: Camera, ops: seq<CameraOp>, t: Trig,
                                 deltaTime: real, deltaRoll: real, deltaPitch: real, deltaYaw: real)
    ensures var s := Run(SetBirdEyeView(c), ops, t);
            MoveCamera(s, deltaTime, deltaRoll, deltaPitch, deltaYaw, t) == s
  {
    RunModeFlags(SetBirdEyeView(c), ops, t);
  }

  /** The other navigation methods are not gated: in bird's-eye mode a
      non-zero translation still moves the camera, and a pitch change
      that survives the clamp still turns it. */
  lemma NavigationIgnoresBirdEye(c: Camera, v: Vec3, angle: real, t: Trig)
    requires c.birdEyeActive
    ensures v != Zero3 ==> MoveCenter(c, v) != c
    ensures Clamp(c.pitch + angle, -PitchLimit, PitchLimit) != c.pitch ==> RotatePitch(c, angle, t) != c
  {
  }
}

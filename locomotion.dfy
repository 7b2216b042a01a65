/**
 * The avatar locomotion rules as functions of the avatar state: the guarded
 * jump, the per-frame horizontal step with all-or-nothing rejection, gravity
 * with grounding against a downward probe, fall-through recovery, spawn
 * placement and teleport.
 */
module Locomotion {
  import opened Geometry
  import opened Input

  /** The avatar state: `player.position`, `verticalVelocity` and `isOnGround`. */
  datatype Avatar = Avatar(position: Vec3, verticalVelocity: real, isOnGround: bool)

  const MoveSpeed: real := 0.1
  const Gravity: real := 0.01
  const JumpForce: real := 0.25
  /** Below this height, with nothing under the avatar, the avatar is re-placed. */
  const FallLimit: real := -50.0
  /** Where recovery re-places the avatar. */
  const RecoverySpot := Vec3(0.0, 10.0, 0.0)
  /** Where the avatar is placed when the navmesh model arrives. */
  const NavmeshSpot := Vec3(30.0, 10.0, 0.0)
  /** Where the avatar is placed when the backup navmesh replaces a navmesh that failed to load. */
  const BackupSpot := Vec3(0.0, 2.0, 0.0)

  /** The flattened camera direction (x, z), taken as already normalised by the caller. */
  datatype Facing = Facing(x: real, z: real)

  predicate IsUnit(f: Facing)
  {
    f.x * f.x + f.z * f.z == 1.0
  }

  /** `currentSpeed`: doubled while shift is held. */
  function Speed(k: Keys): (r: real)
    ensures r == MoveSpeed || r == 2.0 * MoveSpeed
    ensures r == 2.0 * MoveSpeed <==> k.shift
  {
    if k.shift then MoveSpeed * 2.0 else MoveSpeed
  }

  /** `if (held) velocity.add(w)`. */
  function AddIf(v: Vec3, held: bool, w: Vec3): Vec3
  {
    if held then Add(v, w) else v
  }

  /**
   * The velocity summed from the held flags at speed s, before it is
   * normalised: forward, backward, right, left, in that order, each adding
   * the facing or its right-hand perpendicular scaled by s or -s.
   */
  function Accumulated(k: Keys, f: Facing, s: real): (r: Vec3)
    ensures r.y == 0.0
    ensures Released(k) ==> r == Zero
  {
    var dir := Vec3(f.x, 0.0, f.z);
    var right := Vec3(-f.z, 0.0, f.x);
    var v2 := AddIf(AddIf(Zero, k.forward, Scale(dir, s)), k.backward, Scale(dir, -s));
    AddIf(AddIf(v2, k.right, Scale(right, s)), k.left, Scale(right, -s))
  }

  /** +1, -1 or 0 for one axis of intent: the positive flag minus the negative one. */
  function Axis(positive: bool, negative: bool): int
  {
    (if positive then 1 else 0) - (if negative then 1 else 0)
  }

  /**
   * The horizontal displacement of one frame at speed s: the accumulated
   * velocity, when it is not zero, normalised and scaled to s. `len` is the
   * length of the accumulated velocity (square roots are outside the model).
   */
  function Displacement(k: Keys, f: Facing, s: real, len: real): (r: Vec3)
    requires len >= 0.0 && len * len == LengthSq(Accumulated(k, f, s))
    ensures r.y == 0.0
    ensures LengthSq(Accumulated(k, f, s)) == 0.0 ==> r == Accumulated(k, f, s)
    ensures LengthSq(Accumulated(k, f, s)) > 0.0 ==> r == Scale(Accumulated(k, f, s), s / len)
    ensures LengthSq(Accumulated(k, f, s)) > 0.0 ==> LengthSq(r) == s * s
    ensures LengthSq(Accumulated(k, f, s)) > 0.0 && s != 0.0 ==> r != Zero
  {
    var v := Accumulated(k, f, s);
    if LengthSq(v) > 0.0 then
      NormalisedLength(v, len, s);
      ScaleScale(v, len, s);
      Scale(Scale(v, 1.0 / len), s)
    else v
  }

  /**
   * The horizontal step: the candidate (x, z) is kept only when the walkability
   * probe at it hits; otherwise x and z go back to their values before the step.
   */
  function HorizontalStep(a: Avatar, s: Surface, d: Vec3): (r: Avatar)
    ensures r.verticalVelocity == a.verticalVelocity && r.isOnGround == a.isOnGround
    ensures r.position.y == a.position.y
    ensures CheckIsOnNavmesh(s, a.position.x + d.x, a.position.z + d.z) ==>
            r.position.x == a.position.x + d.x && r.position.z == a.position.z + d.z
    ensures !CheckIsOnNavmesh(s, a.position.x + d.x, a.position.z + d.z) ==> r == a
  {
    var moved := a.position.(x := a.position.x + d.x, z := a.position.z + d.z);
    if CheckIsOnNavmesh(s, moved.x, moved.z) then a.(position := moved) else a
  }

  /**
   * placePlayerOnNavmesh: with no navmesh the avatar goes to the fallback;
   * otherwise a downward probe from height 100 above the fallback's (x, z)
   * either lands the avatar on its hit, grounded and at rest, or misses and
   * the avatar goes to the fallback with its vertical state untouched.
   */
  function Place(a: Avatar, navmesh: Option<Surface>, fallback: Vec3): (r: Avatar)
    ensures navmesh.None? ==> r == a.(position := fallback)
    ensures navmesh.Some? ==>
            match ProbeDown(navmesh.value, fallback.x, ProbeHeight, fallback.z)
            case Some(hit) => r == Avatar(hit, 0.0, true)
            case None => r == a.(position := fallback)
  {
    match navmesh
    case None => a.(position := fallback)
    case Some(s) =>
      match ProbeDown(s, fallback.x, ProbeHeight, fallback.z)
      case Some(hit) => Avatar(hit, 0.0, true)
      case None => a.(position := fallback)
  }

  /**
   * applyGravityAndVerticalMovement: gravity is subtracted from the vertical
   * velocity and the velocity is added to y, unconditionally; then a downward
   * probe cast from 100 above the new position decides the outcome.
   */
  function Fall(a: Avatar, s: Surface): (r: Avatar)
    // grounded implies at rest, whichever way the avatar was grounded
    ensures r.isOnGround ==> r.verticalVelocity == 0.0
    ensures var vv := a.verticalVelocity - Gravity;
            var integrated := a.position.(y := a.position.y + vv);
            var ground := ProbeDown(s, integrated.x, integrated.y + ProbeHeight, integrated.z);
            // reached or passed the ground: snapped onto it, at rest and grounded
            (ground.Some? && integrated.y <= ground.value.y ==>
               r == Avatar(integrated.(y := ground.value.y), 0.0, true)) &&
            // above the ground: airborne at the integrated height and velocity
            (ground.Some? && integrated.y > ground.value.y ==>
               r == Avatar(integrated, vv, false)) &&
            // nothing below: airborne, and re-placed at the recovery spot only under -50
            (ground.None? && integrated.y >= FallLimit ==> r == Avatar(integrated, vv, false)) &&
            (ground.None? && integrated.y < FallLimit ==>
               r == Place(Avatar(integrated, vv, false), Some(s), RecoverySpot))
  {
    var vv := a.verticalVelocity - Gravity;
    var moved := a.position.(y := a.position.y + vv);
    match ProbeDown(s, moved.x, moved.y + ProbeHeight, moved.z)
    case Some(hit) =>
      if moved.y <= hit.y then Avatar(moved.(y := hit.y), 0.0, true)
      else Avatar(moved, vv, false)
    case None =>
      var falling := Avatar(moved, vv, false);
      if moved.y < FallLimit then Place(falling, Some(s), RecoverySpot) else falling
  }

  /**
   * updatePlayerMovement: one frame. Without a player or a navmesh nothing
   * changes; otherwise the horizontal step and then the vertical movement.
   */
  function Tick(a: Avatar, hasPlayer: bool, navmesh: Option<Surface>, k: Keys, f: Facing, len: real): (r: Avatar)
    requires len >= 0.0 && len * len == LengthSq(Accumulated(k, f, Speed(k)))
    ensures !hasPlayer || navmesh.None? ==> r == a
    ensures hasPlayer && navmesh.Some? ==> (r.isOnGround ==> r.verticalVelocity == 0.0)
  {
    if !hasPlayer || navmesh.None? then a
    else Fall(HorizontalStep(a, navmesh.value, Displacement(k, f, Speed(k), len)), navmesh.value)
  }

  /** The Space key: only a grounded avatar jumps, so there is no jump in mid-air. */
  function Jump(a: Avatar): (r: Avatar)
    ensures r.position == a.position
    ensures a.isOnGround ==> r.verticalVelocity == JumpForce && !r.isOnGround
    ensures !a.isOnGround ==> r == a
  {
    if a.isOnGround then a.(verticalVelocity := JumpForce, isOnGround := false) else a
  }

  /** A second Space press before the avatar is grounded again changes nothing: there is no double jump. */
  lemma NoDoubleJump(a: Avatar)
    ensures Jump(Jump(a)) == Jump(a)
    ensures a.isOnGround ==> Jump(a) != a
  {
  }

  /**
   * The mousedown teleport: only while the pointer is locked and a navmesh
   * exists, a ray from the camera along its view direction that hits moves
   * the avatar exactly to the hit and stops its vertical motion; the grounded
   * flag is left for the next frame to settle.
   */
  function Teleport(a: Avatar, mouseEnabled: bool, navmesh: Option<Surface>, origin: Vec3, direction: Vec3): (r: Avatar)
    ensures r.isOnGround == a.isOnGround
    ensures !mouseEnabled || navmesh.None? ==> r == a
    ensures mouseEnabled && navmesh.Some? ==>
            match navmesh.value(origin, direction)
            case Some(hit) => r.position == hit && r.verticalVelocity == 0.0
            case None => r == a
  {
    if !mouseEnabled || navmesh.None? then a
    else
      match navmesh.value(origin, direction)
      case Some(hit) => a.(position := hit, verticalVelocity := 0.0)
      case None => a
  }

  /**
   * The frame displacement is zero exactly when no direction flag is held or
   * held flags cancel pairwise; otherwise, for a unit facing, its squared
   * length is the square of the speed.
   */
  lemma DisplacementSpeed(k: Keys, f: Facing, s: real, len: real)
    requires len >= 0.0 && len * len == LengthSq(Accumulated(k, f, s))
    requires IsUnit(f) && s > 0.0
    ensures var d := Displacement(k, f, s, len);
            (d == Zero <==> Axis(k.forward, k.backward) == 0 && Axis(k.right, k.left) == 0) &&
            (d != Zero ==> LengthSq(d) == s * s)
  {
    var v := Accumulated(k, f, s);
    AccumulatedLength(k, f, s);
    if Axis(k.forward, k.backward) == 0 && Axis(k.right, k.left) == 0 {
      ZeroAxes(k, f, s);
    } else {
      SpeedSquaredPositive(v, s, Magnitude(k));
      NormalisedLength(v, len, s);
    }
  }

  /** Holding only forward moves the avatar by s along the facing. */
  lemma ForwardAlongFacing(k: Keys, f: Facing, s: real, len: real)
    requires IsUnit(f) && s > 0.0
    requires k.forward && !k.backward && !k.left && !k.right
    requires len >= 0.0 && len * len == LengthSq(Accumulated(k, f, s))
    ensures Displacement(k, f, s, len) == Vec3(f.x * s, 0.0, f.z * s)
  {
    var v := Accumulated(k, f, s);
    assert v == Vec3(f.x * s, 0.0, f.z * s);
    AccumulatedLength(k, f, s);
    assert Magnitude(k) == 1.0;
    SameSquare(len, s);
  }

  /** Two non-negative reals with equal squares are equal. */
  lemma SameSquare(a: real, b: real)
    requires a >= 0.0 && b > 0.0 && a * a == b * b
    ensures a == b
  {
    assert (a - b) * (a + b) == a * a - b * b;
    if a > b {
      PositiveProduct(a - b, a + b);
    } else if a < b {
      PositiveProduct(b - a, a + b);
    }
  }

  /** A product of two positive reals is positive. */
  lemma PositiveProduct(x: real, y: real)
    requires x > 0.0 && y > 0.0
    ensures x * y > 0.0
  {
  }

  /** The squared length of a frame's displacement is 0.01, or 0.04 with shift held, unless it is zero. */
  lemma FrameSpeed(k: Keys, f: Facing, len: real)
    requires len >= 0.0 && len * len == LengthSq(Accumulated(k, f, Speed(k)))
    requires IsUnit(f)
    ensures var d := Displacement(k, f, Speed(k), len);
            (d == Zero <==> Axis(k.forward, k.backward) == 0 && Axis(k.right, k.left) == 0) &&
            (d != Zero && !k.shift ==> LengthSq(d) == 0.01) &&
            (d != Zero && k.shift ==> LengthSq(d) == 0.04)
  {
    DisplacementSpeed(k, f, Speed(k), len);
  }

  /** How many of the two axes of intent are engaged: 0, 1 or 2. */
  function Magnitude(k: Keys): real
  {
    (if Axis(k.forward, k.backward) == 0 then 0.0 else 1.0) + (if Axis(k.right, k.left) == 0 then 0.0 else 1.0)
  }

  /** For a unit facing, the accumulated velocity's squared length is s squared times the engaged axes. */
  lemma AccumulatedLength(k: Keys, f: Facing, s: real)
    requires IsUnit(f)
    ensures LengthSq(Accumulated(k, f, s)) == s * s * Magnitude(k)
  {
    AccumulatedByAxes(k, f, s);
    MagnitudeSquares(k);
    AxesLength(Accumulated(k, f, s), f, s, Axis(k.forward, k.backward) as real, Axis(k.right, k.left) as real, Magnitude(k));
  }

  lemma ZeroAxes(k: Keys, f: Facing, s: real)
    requires Axis(k.forward, k.backward) == 0 && Axis(k.right, k.left) == 0
    ensures Accumulated(k, f, s) == Zero
  {
    AccumulatedByAxes(k, f, s);
  }

  /** A flag pair adds u scaled by s times its axis: s, -s, or nothing when both or neither are held. */
  lemma OpposedPair(v: Vec3, positive: bool, negative: bool, u: Vec3, s: real)
    ensures AddIf(AddIf(v, positive, Scale(u, s)), negative, Scale(u, -s)) ==
            Add(v, Scale(u, s * Axis(positive, negative) as real))
  {
  }

  /** The accumulated velocity is (forward axis) * s * dir + (right axis) * s * right. */
  lemma AccumulatedByAxes(k: Keys, f: Facing, s: real)
    ensures Accumulated(k, f, s) ==
            Add(Add(Zero, Scale(Vec3(f.x, 0.0, f.z), s * Axis(k.forward, k.backward) as real)),
                Scale(Vec3(-f.z, 0.0, f.x), s * Axis(k.right, k.left) as real))
  {
    TwoPairs(Zero, k.forward, k.backward, k.right, k.left, Vec3(f.x, 0.0, f.z), Vec3(-f.z, 0.0, f.x), s);
  }

  lemma TwoPairs(v: Vec3, p: bool, n: bool, q: bool, m: bool, u: Vec3, w: Vec3, s: real)
    ensures AddIf(AddIf(AddIf(AddIf(v, p, Scale(u, s)), n, Scale(u, -s)), q, Scale(w, s)), m, Scale(w, -s)) ==
            Add(Add(v, Scale(u, s * Axis(p, n) as real)), Scale(w, s * Axis(q, m) as real))
  {
    OpposedPair(v, p, n, u, s);
    OpposedPair(AddIf(AddIf(v, p, Scale(u, s)), n, Scale(u, -s)), q, m, w, s);
  }

  /** dir and right are orthonormal for a unit facing, so a * s * dir + b * s * right has squared length s^2 (a^2 + b^2). */
  lemma AxesLength(v: Vec3, f: Facing, s: real, a: real, b: real, m: real)
    requires IsUnit(f) && a * a + b * b == m
    requires v == Add(Add(Zero, Scale(Vec3(f.x, 0.0, f.z), s * a)), Scale(Vec3(-f.z, 0.0, f.x), s * b))
    ensures LengthSq(v) == s * s * m
  {
    var c := s * a;
    var e := s * b;
    calc {
      LengthSq(Add(Add(Zero, Scale(Vec3(f.x, 0.0, f.z), c)), Scale(Vec3(-f.z, 0.0, f.x), e)));
      (f.x * c - f.z * e) * (f.x * c - f.z * e) + (f.z * c + f.x * e) * (f.z * c + f.x * e);
      (f.x * f.x + f.z * f.z) * (c * c) + (f.x * f.x + f.z * f.z) * (e * e);
      c * c + e * e;
      s * s * (a * a + b * b);
    }
  }

  lemma AxisSquare(positive: bool, negative: bool)
    ensures (Axis(positive, negative) as real) * (Axis(positive, negative) as real) ==
            if Axis(positive, negative) == 0 then 0.0 else 1.0
  {
  }

  lemma MagnitudeSquares(k: Keys)
    ensures (Axis(k.forward, k.backward) as real) * (Axis(k.forward, k.backward) as real) +
            (Axis(k.right, k.left) as real) * (Axis(k.right, k.left) as real) == Magnitude(k)
  {
    AxisSquare(k.forward, k.backward);
    AxisSquare(k.right, k.left);
  }

  lemma SpeedSquaredPositive(v: Vec3, s: real, m: real)
    requires s > 0.0 && m >= 1.0 && LengthSq(v) == s * s * m
    ensures LengthSq(v) > 0.0
  {
    calc {
      LengthSq(v);
      s * s * m;
    >  { ProductPositive(s, m); }
      0.0;
    }
  }

  lemma ProductPositive(s: real, m: real)
    requires s > 0.0 && m >= 1.0
    ensures s * s * m > 0.0
  {
    assert s * s > 0.0;
  }

  /** Normalising by len and then scaling by s scales by s / len. */
  lemma ScaleScale(v: Vec3, len: real, s: real)
    requires len > 0.0
    ensures Scale(Scale(v, 1.0 / len), s) == Scale(v, s / len)
  {
    assert (1.0 / len) * s == s / len;
  }

  /** Normalising a non-zero vector and scaling it by s gives squared length s * s, and a non-zero result unless s is zero. */
  lemma NormalisedLength(v: Vec3, len: real, s: real)
    requires len >= 0.0 && len * len == LengthSq(v) && LengthSq(v) > 0.0
    ensures LengthSq(Scale(Scale(v, 1.0 / len), s)) == s * s
    ensures s != 0.0 ==> Scale(Scale(v, 1.0 / len), s) != Zero
  {
    var c := 1.0 / len * s;
    assert len > 0.0;
    var d := Scale(Scale(v, 1.0 / len), s);
    assert d == Vec3(v.x * c, v.y * c, v.z * c);
    assert LengthSq(d) == LengthSq(v) * c * c;
    assert LengthSq(v) * (1.0 / len) * (1.0 / len) == 1.0;
  }

  /** Placing twice on an unchanged navmesh with the same fallback is placing once. */
  lemma PlaceIdempotent(a: Avatar, navmesh: Option<Surface>, fallback: Vec3)
    ensures Place(Place(a, navmesh, fallback), navmesh, fallback) == Place(a, navmesh, fallback)
  {
  }

  /** On a navmesh, placement grounds the avatar exactly when the fallback column is walkable. */
  lemma PlaceGroundsIffWalkable(a: Avatar, s: Surface, fallback: Vec3)
    requires !a.isOnGround
    ensures Place(a, Some(s), fallback).isOnGround <==> CheckIsOnNavmesh(s, fallback.x, fallback.z)
  {
  }

  /**
   * Recovery on any navmesh with nothing under the avatar's new position and
   * nothing under the recovery spot moves the avatar to the spot but keeps its
   * fall velocity, so the avatar keeps falling.
   */
  lemma RecoveryKeepsFallVelocity(a: Avatar, s: Surface)
    requires a.position.y + a.verticalVelocity - Gravity < FallLimit
    requires ProbeDown(s, a.position.x, a.position.y + a.verticalVelocity - Gravity + ProbeHeight, a.position.z).None?
    requires ProbeDown(s, RecoverySpot.x, ProbeHeight, RecoverySpot.z).None?
    ensures Fall(a, s) == Avatar(RecoverySpot, a.verticalVelocity - Gravity, false)
  {
  }

  /**
   * The backup navmesh's spawn: the probe above (0, 2, 0) strikes the box's
   * top face, so the avatar lands at (0, 0.05, 0), grounded and at rest.
   */
  lemma BackupSpawn(a: Avatar)
    ensures Place(a, Some(BackupBox()), BackupSpot) == Avatar(Vec3(0.0, BoxTop, 0.0), 0.0, true)
  {
    BackupBoxProbe(BackupSpot.x, ProbeHeight, BackupSpot.z);
  }

  /** Vertical movement leaves (x, z) alone, except that a recovery moves the avatar to the recovery spot's column or onto its probe's hit. */
  lemma FallKeepsColumn(a: Avatar, s: Surface)
    ensures var r := Fall(a, s);
            (r.position.x == a.position.x && r.position.z == a.position.z) ||
            r == Place(Avatar(a.position.(y := a.position.y + a.verticalVelocity - Gravity), a.verticalVelocity - Gravity, false),
                       Some(s), RecoverySpot)
  {
  }

  /**
   * On the backup box, an avatar over the box stays over it frame after
   * frame, whatever is held: a step off the edge is refused, and a recovery
   * would land it on the box's centre.
   */
  lemma StaysOverBox(a: Avatar, k: Keys, f: Facing, len: real)
    requires len >= 0.0 && len * len == LengthSq(Accumulated(k, f, Speed(k)))
    requires OverBox(a.position.x, a.position.z)
    ensures var r := Tick(a, true, Some(BackupBox()), k, f, len);
            OverBox(r.position.x, r.position.z)
  {
    var d := Displacement(k, f, Speed(k), len);
    var b := HorizontalStep(a, BackupBox(), d);
    BackupBoxProbe(a.position.x + d.x, ProbeHeight, a.position.z + d.z);
    assert OverBox(b.position.x, b.position.z);
    FallKeepsColumn(b, BackupBox());
    BackupBoxProbe(RecoverySpot.x, ProbeHeight, RecoverySpot.z);
  }

  /**
   * A teleport straight down onto a flat floor lands exactly on the hit,
   * still flagged as before; the next idle frame grounds the avatar there,
   * at rest.
   */
  lemma TeleportThenSettles(a: Avatar, g: real, origin: Vec3)
    requires origin.y >= g
    ensures var t := Teleport(a, true, Some(FlatFloor(g)), origin, Down);
            t == a.(position := Vec3(origin.x, g, origin.z), verticalVelocity := 0.0) &&
            Idle(t, FlatFloor(g)) == Avatar(Vec3(origin.x, g, origin.z), 0.0, true)
  {
    var t := Teleport(a, true, Some(FlatFloor(g)), origin, Down);
    assert HorizontalStep(t, FlatFloor(g), Zero) == t;
  }

  /** One frame with no key held, on a navmesh, for a player that exists (see IdleIsTick). */
  function Idle(a: Avatar, s: Surface): Avatar
  {
    Fall(HorizontalStep(a, s, Zero), s)
  }

  /** With no key held the displacement is zero, so an idle frame is a frame of updatePlayerMovement. */
  lemma IdleIsTick(a: Avatar, s: Surface, f: Facing)
    ensures LengthSq(Accumulated(NoKeys, f, Speed(NoKeys))) == 0.0
    ensures Tick(a, true, Some(s), NoKeys, f, 0.0) == Idle(a, s)
  {
    StandStill(f);
  }

  lemma StandStill(f: Facing)
    ensures LengthSq(Accumulated(NoKeys, f, MoveSpeed)) == 0.0
    ensures Displacement(NoKeys, f, MoveSpeed, 0.0) == Zero
  {
  }

  /** n idle frames. */
  function IdleFrames(a: Avatar, s: Surface, n: nat): Avatar
    decreases n
  {
    if n == 0 then a else IdleFrames(Idle(a, s), s, n - 1)
  }

  /** An avatar at rest on a flat floor stays there, grounded, frame after frame. */
  lemma {:induction false} RestIsStable(a: Avatar, g: real, n: nat)
    requires a.position.y == g && a.verticalVelocity == 0.0 && a.isOnGround
    ensures IdleFrames(a, FlatFloor(g), n) == a
    decreases n
  {
    if n > 0 {
      var b := Idle(a, FlatFloor(g));
      assert HorizontalStep(a, FlatFloor(g), Zero) == a;
      assert b == a;
      RestIsStable(b, g, n - 1);
    }
  }

  /**
   * Grounding converges: an avatar at height h >= g over a flat floor at g,
   * not moving upward, falls at least -v + 0.01 * i in its i-th frame, so it
   * is grounded at g, at rest, after n + 1 idle frames whenever
   * h - g <= -n * v + 0.01 * n * (n + 1) / 2 (and it never falls more than
   * 100 in a frame, the reach of the grounding probe).
   */
  lemma {:induction false} SettlesOnFlatFloor(a: Avatar, g: real, n: nat)
    requires g <= a.position.y
    requires a.position.y - g <= -(n as real) * a.verticalVelocity + Gravity * ((n * (n + 1)) as real) / 2.0
    requires a.verticalVelocity <= 0.0
    requires a.verticalVelocity - Gravity * (n + 1) as real >= -ProbeHeight
    ensures IdleFrames(a, FlatFloor(g), n + 1) == Avatar(a.position.(y := g), 0.0, true)
    decreases n
  {
    var b := Idle(a, FlatFloor(g));
    assert HorizontalStep(a, FlatFloor(g), Zero) == a;
    var v := a.verticalVelocity;
    var y := a.position.y + v - Gravity;
    if y <= g {
      assert b == Avatar(a.position.(y := g), 0.0, true);
      RestIsStable(b, g, n);
    } else {
      assert b == Avatar(a.position.(y := y), v - Gravity, false);
      if n == 0 {
        assert false;
      }
      var m: nat := n - 1;
      FallBudget(a.position.y - g, v, m);
      SettlesOnFlatFloor(b, g, m);
    }
  }

  /** The fall budget of n = m + 1 frames, less one frame's fall, is the budget of m frames. */
  lemma FallBudget(d: real, v: real, m: nat)
    requires d <= -((m + 1) as real) * v + Gravity * (((m + 1) * (m + 2)) as real) / 2.0
    ensures d + v - Gravity <= -(m as real) * (v - Gravity) + Gravity * ((m * (m + 1)) as real) / 2.0
  {
    assert (m + 1) * (m + 2) == m * (m + 1) + 2 * m + 2;
    assert -((m + 1) as real) * v == -(m as real) * v - v;
    assert -(m as real) * (v - Gravity) == -(m as real) * v + (m as real) * Gravity;
  }

  /**
   * The height gained k frames after a jump: the sum of JumpForce - Gravity * i
   * for i = 1..k, which is k * (49 - k) / 200.
   */
  function Rise(k: nat): real
  {
    (k * (49 - k)) as real / 200.0
  }

  /** Each frame of the arc adds the velocity after gravity, JumpForce - Gravity * (k + 1). */
  lemma RiseStep(k: nat)
    ensures Rise(k + 1) == Rise(k) + JumpForce - Gravity * (k + 1) as real
  {
    assert (k + 1) * (49 - (k + 1)) == k * (49 - k) + 48 - 2 * k;
  }

  /** The avatar k frames after jumping from rest at height g (for k < 49). */
  function Airborne(p: Vec3, g: real, k: nat): Avatar
  {
    Avatar(p.(y := g + Rise(k)), JumpForce - Gravity * k as real, false)
  }

  /** One idle frame of the jump arc over a flat floor. */
  lemma ArcFrame(p: Vec3, g: real, k: nat)
    requires k < 49
    ensures k < 48 ==> Idle(Airborne(p, g, k), FlatFloor(g)) == Airborne(p, g, k + 1)
    ensures k == 48 ==> Idle(Airborne(p, g, k), FlatFloor(g)) == Avatar(p.(y := g), 0.0, true)
  {
    RiseStep(k);
    var a := Airborne(p, g, k);
    assert HorizontalStep(a, FlatFloor(g), Zero) == a;
    var y := g + Rise(k + 1);
    assert a.position.y + a.verticalVelocity - Gravity == y;
    if k < 48 {
      assert (k + 1) * (48 - k) >= 48 - k;
      assert Rise(k + 1) > 0.0;
    } else {
      assert Rise(k + 1) == 0.0;
    }
  }

  /** Idle frames along the jump arc. */
  lemma {:induction false} ArcFrames(p: Vec3, g: real, k: nat, m: nat)
    requires k + m <= 48
    ensures IdleFrames(Airborne(p, g, k), FlatFloor(g), m) == Airborne(p, g, k + m)
    decreases m
  {
    if m > 0 {
      ArcFrame(p, g, k);
      ArcFrames(p, g, k + 1, m - 1);
    }
  }

  /**
   * Jump and land on a flat floor: from rest, frame k of the jump (k <= 48)
   * is the arc state Airborne(p, g, k). The arc rises for 24 frames
   * (strictly), holds its peak for one frame (in exact reals, the velocity
   * after frame 25 is exactly zero), falls for 24 frames (strictly) and lands
   * on frame 49 at the height it left, grounded and at rest.
   */
  lemma JumpLands(p: Vec3, g: real)
    ensures var rest := Avatar(p.(y := g), 0.0, true);
            IdleFrames(Jump(rest), FlatFloor(g), 49) == rest
    ensures var rest := Avatar(p.(y := g), 0.0, true);
            forall k: nat :: k <= 48 ==> IdleFrames(Jump(rest), FlatFloor(g), k) == Airborne(p, g, k)
    ensures forall k: nat :: k < 24 ==> Rise(k) < Rise(k + 1)
    ensures Rise(24) == Rise(25)
    ensures forall k: nat :: 25 <= k < 49 ==> Rise(k) > Rise(k + 1)
  {
    var rest := Avatar(p.(y := g), 0.0, true);
    assert Jump(rest) == Airborne(p, g, 0);
    forall k: nat | k <= 48 ensures IdleFrames(Jump(rest), FlatFloor(g), k) == Airborne(p, g, k) {
      ArcFrames(p, g, 0, k);
    }
    ArcFrame(p, g, 48);
    IdleFramesSplit(Airborne(p, g, 0), FlatFloor(g), 48);
    forall k: nat | k < 49 ensures Rise(k + 1) - Rise(k) == JumpForce - Gravity * (k + 1) as real {
    }
  }

  /** n + 1 idle frames are n idle frames and then one more. */
  lemma {:induction false} IdleFramesSplit(a: Avatar, s: Surface, n: nat)
    ensures IdleFrames(a, s, n + 1) == Idle(IdleFrames(a, s, n), s)
    decreases n
  {
    if n > 0 {
      IdleFramesSplit(Idle(a, s), s, n - 1);
    }
  }
}

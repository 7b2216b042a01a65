/**
 * Input intent: the held-key flag record, the look orientation with its
 * clamped pitch, and the two-stick touch layout that drives both.
 */
module Input {
  import opened Geometry

  /** The `keys` record: one flag per movement intent. */
  datatype Keys = Keys(forward: bool, backward: bool, left: bool, right: bool, shift: bool)

  const NoKeys := Keys(false, false, false, false, false)

  /** The `event.code` values the keyboard handlers distinguish; every other code is OtherKey. */
  datatype KeyCode = KeyW | KeyS | KeyA | KeyD | ShiftLeft | ShiftRight | Space | KeyT | KeyM | OtherKey

  /** The flag a key code drives, set to `held`; codes that drive no flag leave the record as it is. */
  function SetFlag(k: Keys, code: KeyCode, held: bool): (r: Keys)
    ensures DrivesFlag(code) ==> Held(r, code) == held
    ensures !DrivesFlag(code) ==> r == k
  {
    match code
    case KeyW => k.(forward := held)
    case KeyS => k.(backward := held)
    case KeyA => k.(left := held)
    case KeyD => k.(right := held)
    case ShiftLeft => k.(shift := held)
    case ShiftRight => k.(shift := held)
    case _ => k
  }

  /** Whether `code` drives a flag, and that flag's value in k. */
  function Held(k: Keys, code: KeyCode): bool
  {
    match code
    case KeyW => k.forward
    case KeyS => k.backward
    case KeyA => k.left
    case KeyD => k.right
    case ShiftLeft => k.shift
    case ShiftRight => k.shift
    case _ => false
  }

  predicate DrivesFlag(code: KeyCode)
  {
    code.KeyW? || code.KeyS? || code.KeyA? || code.KeyD? || code.ShiftLeft? || code.ShiftRight?
  }

  /**
   * A key event sets exactly the flag its code drives: the flag of every
   * other code reads back unchanged (the two shift codes share one flag).
   */
  lemma SetFlagExact(k: Keys, code: KeyCode, held: bool, other: KeyCode)
    ensures Held(k, other) != Held(SetFlag(k, code, held), other) ==>
            DrivesFlag(code) && (other == code || {code, other} == {ShiftLeft, ShiftRight})
  {
  }

  /** Pressing and releasing a key that was not held leaves the flag record as it was. */
  lemma PressRelease(k: Keys, code: KeyCode)
    requires !Held(k, code)
    ensures SetFlag(SetFlag(k, code, true), code, false) == k
  {
  }

  /** True when none of the four direction flags is held. */
  predicate Released(k: Keys)
  {
    !k.forward && !k.backward && !k.left && !k.right
  }

  /** Math.PI / 2, written as the shortest decimal of the double the source uses. */
  const HalfPi: real := 1.5707963267948966

  predicate PitchInRange(p: real)
  {
    -HalfPi <= p <= HalfPi
  }

  /** Math.max(-PI/2, Math.min(PI/2, p)). */
  function ClampPitch(p: real): (r: real)
    ensures PitchInRange(r)
    ensures PitchInRange(p) ==> r == p
    ensures p > HalfPi ==> r == HalfPi
    ensures p < -HalfPi ==> r == -HalfPi
  {
    var upper := if p < HalfPi then p else HalfPi;
    if upper > -HalfPi then upper else -HalfPi
  }

  /** The look orientation `euler` (order YXZ): x is the pitch, y the yaw. */
  datatype Euler = Euler(x: real, y: real)

  const MouseSensitivity: real := 0.002
  const TouchSensitivity: real := 0.005

  /**
   * One look update from a pointer or touch delta (dx, dy): yaw decreases by
   * dx * sensitivity, pitch by dy * sensitivity, and the pitch is then clamped.
   */
  function Turn(e: Euler, dx: real, dy: real, sensitivity: real): (r: Euler)
    ensures PitchInRange(r.x)
    ensures r.y == e.y - dx * sensitivity
    ensures r.x == ClampPitch(e.x - dy * sensitivity)
    ensures PitchInRange(e.x - dy * sensitivity) ==> r.x == e.x - dy * sensitivity
  {
    Euler(ClampPitch(e.x - dy * sensitivity), e.y - dx * sensitivity)
  }

  /** A changed touch of a touch event: its identifier and client coordinates. */
  datatype Touch = Touch(identifier: int, clientX: real, clientY: real)

  /** A client-space point where a stick touch started (the left one) or last moved (the right one). */
  datatype Screen = Screen(x: real, y: real)

  /**
   * The state the touch handlers read and write: the flags, the look
   * orientation, which touch holds each stick, and the stick reference points.
   */
  datatype Pad = Pad(keys: Keys, euler: Euler,
                     leftId: Option<int>, rightId: Option<int>,
                     leftStart: Screen, rightStart: Screen)

  /** The drag distance, in client pixels, beyond which the left stick sets a flag. */
  const DeadZone: real := 20.0

  /** touchstart for one touch: a free stick on the touch's half of the window is claimed. */
  function StartStep(p: Pad, t: Touch, innerWidth: real): (r: Pad)
    ensures t.clientX < innerWidth / 2.0 && p.leftId.None? ==>
            r.leftId == Some(t.identifier) && r.leftStart == Screen(t.clientX, t.clientY)
    ensures t.clientX >= innerWidth / 2.0 && p.rightId.None? ==>
            r.rightId == Some(t.identifier) && r.rightStart == Screen(t.clientX, t.clientY)
    ensures p.leftId.Some? || t.clientX >= innerWidth / 2.0 ==> r.leftId == p.leftId && r.leftStart == p.leftStart
    ensures p.rightId.Some? || t.clientX < innerWidth / 2.0 ==> r.rightId == p.rightId && r.rightStart == p.rightStart
    ensures r.keys == p.keys && r.euler == p.euler
  {
    if t.clientX < innerWidth / 2.0 && p.leftId.None? then
      p.(leftId := Some(t.identifier), leftStart := Screen(t.clientX, t.clientY))
    else if t.clientX >= innerWidth / 2.0 && p.rightId.None? then
      p.(rightId := Some(t.identifier), rightStart := Screen(t.clientX, t.clientY))
    else
      p
  }

  /**
   * touchmove for one touch: the left stick sets the four direction flags from
   * the drag since its start; the right stick turns the view by the drag since
   * its last move and then takes the touch as its new reference.
   */
  function MoveStep(p: Pad, t: Touch): (r: Pad)
    ensures r.leftId == p.leftId && r.rightId == p.rightId && r.leftStart == p.leftStart
    ensures r.keys.shift == p.keys.shift
    ensures p.leftId == Some(t.identifier) ==>
            var dx := t.clientX - p.leftStart.x;
            var dy := t.clientY - p.leftStart.y;
            (r.keys.forward <==> dy < -DeadZone) && (r.keys.backward <==> dy > DeadZone) &&
            (r.keys.left <==> dx < -DeadZone) && (r.keys.right <==> dx > DeadZone) &&
            r.euler == p.euler && r.rightStart == p.rightStart
    ensures p.leftId != Some(t.identifier) ==> r.keys == p.keys
    ensures p.leftId != Some(t.identifier) && p.rightId == Some(t.identifier) ==>
            r.euler == Turn(p.euler, t.clientX - p.rightStart.x, t.clientY - p.rightStart.y, TouchSensitivity) &&
            r.rightStart == Screen(t.clientX, t.clientY)
    ensures p.leftId != Some(t.identifier) && p.rightId != Some(t.identifier) ==> r == p
    ensures PitchInRange(p.euler.x) ==> PitchInRange(r.euler.x)
  {
    if p.leftId == Some(t.identifier) then
      var dx := t.clientX - p.leftStart.x;
      var dy := t.clientY - p.leftStart.y;
      p.(keys := p.keys.(forward := dy < -DeadZone, backward := dy > DeadZone,
                         left := dx < -DeadZone, right := dx > DeadZone))
    else if p.rightId == Some(t.identifier) then
      var dx := t.clientX - p.rightStart.x;
      var dy := t.clientY - p.rightStart.y;
      p.(euler := Turn(p.euler, dx, dy, TouchSensitivity), rightStart := Screen(t.clientX, t.clientY))
    else
      p
  }

  /** touchend for one touch: ending the left stick's touch frees it and releases the four flags. */
  function EndStep(p: Pad, t: Touch): (r: Pad)
    ensures p.leftId == Some(t.identifier) ==>
            r.leftId.None? && Released(r.keys) && r.keys.shift == p.keys.shift && r.rightId == p.rightId
    ensures p.leftId != Some(t.identifier) ==> r.leftId == p.leftId && r.keys == p.keys
    ensures p.leftId != Some(t.identifier) && p.rightId == Some(t.identifier) ==> r.rightId.None?
    ensures p.rightId != Some(t.identifier) ==> r.rightId == p.rightId
    ensures r.euler == p.euler && r.leftStart == p.leftStart && r.rightStart == p.rightStart
  {
    if p.leftId == Some(t.identifier) then
      p.(leftId := None, keys := p.keys.(forward := false, backward := false, left := false, right := false))
    else if p.rightId == Some(t.identifier) then
      p.(rightId := None)
    else
      p
  }

  /** The touchstart handler: StartStep over `changedTouches` in order. */
  function TouchStart(p: Pad, ts: seq<Touch>, innerWidth: real): (r: Pad)
    decreases |ts|
    ensures p.leftId.Some? ==> r.leftId == p.leftId && r.leftStart == p.leftStart
    ensures p.rightId.Some? ==> r.rightId == p.rightId && r.rightStart == p.rightStart
    ensures r.keys == p.keys && r.euler == p.euler
  {
    if ts == [] then p
    else StartStep(TouchStart(p, ts[..|ts| - 1], innerWidth), ts[|ts| - 1], innerWidth)
  }

  /** The touchmove handler: MoveStep over `changedTouches` in order. */
  function TouchMove(p: Pad, ts: seq<Touch>): (r: Pad)
    decreases |ts|
    ensures r.leftId == p.leftId && r.rightId == p.rightId && r.leftStart == p.leftStart
    ensures r.keys.shift == p.keys.shift
    ensures PitchInRange(p.euler.x) ==> PitchInRange(r.euler.x)
  {
    if ts == [] then p
    else MoveStep(TouchMove(p, ts[..|ts| - 1]), ts[|ts| - 1])
  }

  /** The touchend handler: EndStep over `changedTouches` in order. */
  function TouchEnd(p: Pad, ts: seq<Touch>): (r: Pad)
    decreases |ts|
    ensures r.euler == p.euler && r.leftStart == p.leftStart && r.rightStart == p.rightStart
    ensures r.keys.shift == p.keys.shift
  {
    if ts == [] then p
    else EndStep(TouchEnd(p, ts[..|ts| - 1]), ts[|ts| - 1])
  }

  /**
   * A free left stick is claimed by the first changed touch that starts on
   * the left half of the window, with that touch as its reference point.
   */
  lemma {:induction false} TouchStartClaimsLeft(p: Pad, ts: seq<Touch>, innerWidth: real, i: nat)
    requires p.leftId.None?
    requires i < |ts| && ts[i].clientX < innerWidth / 2.0
    requires forall j :: 0 <= j < i ==> ts[j].clientX >= innerWidth / 2.0
    ensures TouchStart(p, ts, innerWidth).leftId == Some(ts[i].identifier)
    ensures TouchStart(p, ts, innerWidth).leftStart == Screen(ts[i].clientX, ts[i].clientY)
  {
    var n := |ts| - 1;
    var front := ts[..n];
    if i == n {
      LeftStaysFree(p, front, innerWidth);
    } else {
      TouchStartClaimsLeft(p, front, innerWidth, i);
    }
  }

  /** Touches that all start on the right half never claim the left stick. */
  lemma {:induction false} LeftStaysFree(p: Pad, ts: seq<Touch>, innerWidth: real)
    requires p.leftId.None?
    requires forall j :: 0 <= j < |ts| ==> ts[j].clientX >= innerWidth / 2.0
    ensures TouchStart(p, ts, innerWidth).leftId.None?
  {
    if ts != [] {
      var front := ts[..|ts| - 1];
      assert forall j :: 0 <= j < |front| ==> front[j] == ts[j];
      LeftStaysFree(p, front, innerWidth);
    }
  }

  /**
   * After a touchmove, the last changed touch held by the left stick fixes the
   * four direction flags: forward iff its drag dy < -20, backward iff dy > 20,
   * left iff dx < -20, right iff dx > 20. So a drag never holds forward and
   * backward (or left and right) together.
   */
  lemma {:induction false} TouchMoveFlags(p: Pad, ts: seq<Touch>, i: nat)
    requires i < |ts| && p.leftId == Some(ts[i].identifier)
    requires forall j :: i < j < |ts| ==> p.leftId != Some(ts[j].identifier)
    ensures var k := TouchMove(p, ts).keys;
            var dx := ts[i].clientX - p.leftStart.x;
            var dy := ts[i].clientY - p.leftStart.y;
            (k.forward <==> dy < -20.0) && (k.backward <==> dy > 20.0) &&
            (k.left <==> dx < -20.0) && (k.right <==> dx > 20.0) &&
            !(k.forward && k.backward) && !(k.left && k.right)
  {
    var n := |ts| - 1;
    var front := ts[..n];
    if i < n {
      assert forall j :: i < j < |front| ==> front[j] == ts[j];
      TouchMoveFlags(p, front, i);
    }
  }

  /** A touchmove in which the left stick's touch did not move leaves the direction flags as they were. */
  lemma {:induction false} TouchMoveKeepsFlags(p: Pad, ts: seq<Touch>)
    requires forall j :: 0 <= j < |ts| ==> p.leftId != Some(ts[j].identifier)
    ensures TouchMove(p, ts).keys == p.keys
  {
    if ts != [] {
      var front := ts[..|ts| - 1];
      assert forall j :: 0 <= j < |front| ==> front[j] == ts[j];
      TouchMoveKeepsFlags(p, front);
    }
  }

  /** A touchmove in which the right stick's touch did not move leaves the view and its reference point as they were. */
  lemma {:induction false} TouchMoveKeepsView(p: Pad, ts: seq<Touch>)
    requires forall j :: 0 <= j < |ts| ==> p.rightId != Some(ts[j].identifier)
    ensures TouchMove(p, ts).euler == p.euler && TouchMove(p, ts).rightStart == p.rightStart
  {
    if ts != [] {
      var front := ts[..|ts| - 1];
      assert forall j :: 0 <= j < |front| ==> front[j] == ts[j];
      TouchMoveKeepsView(p, front);
    }
  }

  /**
   * A touchend that includes the left stick's touch frees the stick and leaves
   * all four direction flags released; one that does not leaves the stick and
   * the flags exactly as they were.
   */
  lemma {:induction false} TouchEndReleases(p: Pad, ts: seq<Touch>)
    ensures var r := TouchEnd(p, ts);
            r.leftId == p.leftId || (r.leftId.None? && Released(r.keys))
    ensures (exists i :: 0 <= i < |ts| && p.leftId == Some(ts[i].identifier)) ==>
            TouchEnd(p, ts).leftId.None? && Released(TouchEnd(p, ts).keys)
    ensures (forall i :: 0 <= i < |ts| ==> p.leftId != Some(ts[i].identifier)) ==>
            TouchEnd(p, ts).leftId == p.leftId && TouchEnd(p, ts).keys == p.keys
  {
    if ts != [] {
      var n := |ts| - 1;
      var front := ts[..n];
      assert forall j :: 0 <= j < |front| ==> front[j] == ts[j];
      TouchEndReleases(p, front);
      if exists i :: 0 <= i < |ts| && p.leftId == Some(ts[i].identifier) {
        var i :| 0 <= i < |ts| && p.leftId == Some(ts[i].identifier);
        if i < n {
          assert front[i] == ts[i];
        }
      }
    }
  }
}

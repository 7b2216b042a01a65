/** World-space vectors and the navigable surface as seen through ray casts. */
module Geometry {

  datatype Option<T> = None | Some(value: T)

  /** A point, direction or velocity in world space, over exact reals. */
  datatype Vec3 = Vec3(x: real, y: real, z: real)

  const Zero := Vec3(0.0, 0.0, 0.0)

  /** The direction (0, -1, 0) of every vertical ground probe. */
  const Down := Vec3(0.0, -1.0, 0.0)

  function Add(a: Vec3, b: Vec3): Vec3 { Vec3(a.x + b.x, a.y + b.y, a.z + b.z) }

  function Scale(a: Vec3, k: real): Vec3 { Vec3(a.x * k, a.y * k, a.z * k) }

  function LengthSq(a: Vec3): real { a.x * a.x + a.y * a.y + a.z * a.z }

  /**
   * The navmesh geometry, known only through its ray casts: a ray from an
   * origin along a direction yields the point of the first intersection,
   * or None when no triangle is struck. Nothing else is assumed about it.
   */
  type Surface = (Vec3, Vec3) -> Option<Vec3>

  /** The absolute height from which walkability and spawn probes are cast. */
  const ProbeHeight: real := 100.0

  /** A downward ray cast from (x, originY, z). */
  function ProbeDown(s: Surface, x: real, originY: real, z: real): Option<Vec3>
  {
    s(Vec3(x, originY, z), Down)
  }

  /** checkIsOnNavmesh: does a downward ray from (x, 100, z) strike the surface? */
  function CheckIsOnNavmesh(s: Surface, x: real, z: real): (r: bool)
    ensures r <==> s(Vec3(x, ProbeHeight, z), Down) != None
  {
    ProbeDown(s, x, ProbeHeight, z).Some?
  }

  /**
   * An unbounded horizontal floor at height g: a downward ray cast from at or
   * above g strikes it straight below its origin; every other ray misses.
   */
  function FlatFloor(g: real): Surface
  {
    (o: Vec3, d: Vec3) => if d == Down && o.y >= g then Some(Vec3(o.x, g, o.z)) else None
  }

  /** The backup navmesh: a 50 x 0.1 x 50 box centred on the origin, so its top face is at y = 0.05. */
  const BoxHalfWidth: real := 25.0
  const BoxTop: real := 0.05

  predicate OverBox(x: real, z: real)
  {
    -BoxHalfWidth <= x <= BoxHalfWidth && -BoxHalfWidth <= z <= BoxHalfWidth
  }

  /** Where a downward ray from o along d crosses the plane of the box's top face. */
  function Crossing(o: Vec3, d: Vec3): Vec3
    requires d.y < 0.0
  {
    var t := (BoxTop - o.y) / d.y;
    Vec3(o.x + t * d.x, BoxTop, o.z + t * d.z)
  }

  /**
   * The backup box as its top face: a ray that starts at or above the face
   * and heads downward strikes it where it crosses y = 0.05, if that point is
   * over the box; every other ray misses.
   */
  function BackupBox(): Surface
  {
    (o: Vec3, d: Vec3) =>
      if d.y < 0.0 && o.y >= BoxTop && OverBox(Crossing(o, d).x, Crossing(o, d).z) then Some(Crossing(o, d))
      else None
  }

  /** The bottom face of the backup box: the box is 0.1 tall and centred on y = 0. */
  const BoxBottom: real := -0.05

  /** The solid backup box [-25, 25] x [-0.05, 0.05] x [-25, 25]. */
  predicate InBox(p: Vec3)
  {
    OverBox(p.x, p.z) && BoxBottom <= p.y <= BoxTop
  }

  /** The point at parameter t along the ray from o in direction d. */
  function RayPoint(o: Vec3, d: Vec3, t: real): Vec3
  {
    Add(o, Scale(d, t))
  }

  /**
   * Every hit on the backup box is the ray's first point in the solid box:
   * it lies on the ray at or ahead of the origin, inside the box, on its top
   * face, and no earlier point of the ray is inside the box.
   */
  lemma BackupBoxHits(o: Vec3, d: Vec3)
    ensures var h := BackupBox()(o, d);
            h.Some? ==> InBox(h.value) && h.value.y == BoxTop &&
                        exists t: real :: t >= 0.0 && h.value == RayPoint(o, d, t) &&
                                          forall u: real :: 0.0 <= u < t ==> !InBox(RayPoint(o, d, u))
  {
    var h := BackupBox()(o, d);
    if h.Some? {
      var t := (BoxTop - o.y) / d.y;
      Descent(o.y, d.y);
      assert h.value == RayPoint(o, d, t);
      forall u: real | 0.0 <= u < t
        ensures !InBox(RayPoint(o, d, u))
      {
        DescentAbove(o.y, d.y, u);
      }
    }
  }

  /** A downward ray from at or above the top face crosses it at a parameter t >= 0. */
  lemma Descent(oy: real, dy: real)
    requires dy < 0.0 && oy >= BoxTop
    ensures (BoxTop - oy) / dy >= 0.0
    ensures oy + dy * ((BoxTop - oy) / dy) == BoxTop
  {
    var t := (BoxTop - oy) / dy;
    assert t * dy == BoxTop - oy;
  }

  /** Before that crossing, the downward ray is still above the top face. */
  lemma DescentAbove(oy: real, dy: real, u: real)
    requires dy < 0.0 && oy >= BoxTop
    requires u < (BoxTop - oy) / dy
    ensures oy + dy * u > BoxTop
  {
    var t := (BoxTop - oy) / dy;
    assert t * dy == BoxTop - oy;
    assert (t - u) * dy < 0.0;
  }

  /** A downward probe from at or above the top face hits the backup box exactly over the box, straight below. */
  lemma BackupBoxProbe(x: real, originY: real, z: real)
    requires originY >= BoxTop
    ensures ProbeDown(BackupBox(), x, originY, z) ==
            if OverBox(x, z) then Some(Vec3(x, BoxTop, z)) else None
  {
    var t := (BoxTop - originY) / Down.y;
    assert t * Down.x == 0.0 && t * Down.z == 0.0;
    assert Crossing(Vec3(x, originY, z), Down) == Vec3(x, BoxTop, z);
  }

  /** A surface on which every ray misses (the navmesh has no triangles under any column). */
  function NoFloor(): Surface
  {
    (o: Vec3, d: Vec3) => None
  }
}

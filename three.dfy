/** The slice of three.js and of JavaScript arithmetic that the annotation
    core relies on: vectors over the reals, axis-aligned boxes and their
    size, the IEEE outcome of a division, and the two mutable scene objects
    the handlers touch (a positioned, possibly hidden object and the orbit
    camera controls). */
module Three {

  datatype Vec3 = Vec3(x: real, y: real, z: real)

  function Add(a: Vec3, b: Vec3): Vec3 {
    Vec3(a.x + b.x, a.y + b.y, a.z + b.z)
  }

  function Sub(a: Vec3, b: Vec3): Vec3 {
    Vec3(a.x - b.x, a.y - b.y, a.z - b.z)
  }

  /** Box3: an axis-aligned box given by its two corners. */
  datatype Box3 = Box3(min: Vec3, max: Vec3)

  /** Box3.isEmpty: some axis has its maximum below its minimum. */
  predicate IsEmpty(b: Box3) {
    b.max.x < b.min.x || b.max.y < b.min.y || b.max.z < b.min.z
  }

  /** Box3.getSize: the extent on each axis, or the zero vector for an empty box. */
  function Size(b: Box3): (s: Vec3)
    ensures 0.0 <= s.x && 0.0 <= s.y && 0.0 <= s.z
    ensures !IsEmpty(b) ==> Add(b.min, s) == b.max
    ensures IsEmpty(b) ==> s == Vec3(0.0, 0.0, 0.0)
  {
    if IsEmpty(b) then Vec3(0.0, 0.0, 0.0) else Sub(b.max, b.min)
  }

  /** The value of a JavaScript number that results from arithmetic on finite operands. */
  datatype Number = Finite(value: real) | PosInfinity | NegInfinity | NaN

  /** JavaScript `a / d` for finite `a` and a divisor `d` that is +0 when zero
      (a box size is never -0): a quotient, or an infinity or NaN when `d` is zero. */
  function Divide(a: real, d: real): (q: Number)
    ensures q.Finite? <==> d != 0.0
    ensures q.Finite? ==> q.value * d == a
    ensures d == 0.0 ==> (q == PosInfinity <==> a > 0.0)
    ensures d == 0.0 ==> (q == NegInfinity <==> a < 0.0)
    ensures d == 0.0 ==> (q == NaN <==> a == 0.0)
  {
    if d != 0.0 then Finite(a / d)
    else if a > 0.0 then PosInfinity
    else if a < 0.0 then NegInfinity
    else NaN
  }

  /** The point halfway between `a` and `b`: `a + normalize(b - a) * (|b - a| / 2)`
      computed exactly (for `a == b` three.js normalizes the zero vector to
      itself, which gives `a` as well). */
  function Midpoint(a: Vec3, b: Vec3): (m: Vec3)
    ensures Sub(m, a) == Sub(b, m)
  {
    Vec3((a.x + b.x) / 2.0, (a.y + b.y) / 2.0, (a.z + b.z) / 2.0)
  }

  /** An Object3D of the scene graph, as far as the handlers mutate it. */
  class Object3D {
    var position: Vec3
    var visible: bool

    constructor (p: Vec3)
      ensures position == p && visible
    {
      position := p;
      visible := true;
    }
  }

  /** The object a nullable handle or ref refers to, if any, as a frame. */
  function Present(o: object?): set<object> {
    if o == null then {} else {o}
  }

  /** OrbitControls: camera rotate/pan/zoom, switched off while a point is dragged. */
  class OrbitControls {
    var enabled: bool

    constructor ()
      ensures enabled
    {
      enabled := true;
    }
  }
}

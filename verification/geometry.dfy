/** The cuboid geometry of `FiguraModelPart`: the six face templates of
    `faceData`, the canonical UV corners `uvValues`, and the vertex that one
    corner of a face becomes in `readFace`. Coordinates are reals; the
    `float` casts of the source are not modelled. */
module Geometry {
  import JavaInt

  datatype Vec3 = Vec3(x: real, y: real, z: real)
  datatype Vec4 = Vec4(x: real, y: real, z: real, w: real)

  /** One `vertex(x, y, z, u, v, nx, ny, nz)` call on a buffer builder. */
  datatype Vertex = Vertex(pos: Vec3, u: real, v: real, normal: Vec3)

  const Zero3: Vec3 := Vec3(0.0, 0.0, 0.0)
  const Zero4: Vec4 := Vec4(0.0, 0.0, 0.0, 0.0)

  function Add(a: Vec3, b: Vec3): Vec3 {
    Vec3(a.x + b.x, a.y + b.y, a.z + b.z)
  }

  function Sub(a: Vec3, b: Vec3): Vec3 {
    Vec3(a.x - b.x, a.y - b.y, a.z - b.z)
  }

  /** `multiply(v)`: the component-wise product. */
  function Mul(a: Vec3, b: Vec3): Vec3 {
    Vec3(a.x * b.x, a.y * b.y, a.z * b.z)
  }

  /** `add(d, d, d)`. */
  function Shift(a: Vec3, d: real): Vec3 {
    Vec3(a.x + d, a.y + d, a.z + d)
  }

  /** Component `axis` (0 = x, 1 = y, 2 = z). */
  function Coord(a: Vec3, axis: nat): real
    requires axis < 3
  {
    if axis == 0 then a.x else if axis == 1 then a.y else a.z
  }

  datatype Direction = North | South | East | West | Up | Down

  /** The keys of `faceData` in iteration order; an `ImmutableMap` iterates
      in insertion order. */
  const Directions: seq<Direction> := [North, South, East, West, Up, Down]

  /** The key of a face in `faceData` and in a cube's `cube_data`. */
  function Key(d: Direction): string {
    match d
    case North => "n"
    case South => "s"
    case East => "e"
    case West => "w"
    case Up => "u"
    case Down => "d"
  }

  /** `faceData.get(key)[i]`, i < 4: the corners of the unit cube the face
      passes through, in drawing order. */
  function Corner(d: Direction, i: nat): Vec3
    requires i < 4
  {
    match d
    case North => [Vec3(1.0, 0.0, 0.0), Vec3(0.0, 0.0, 0.0), Vec3(0.0, 1.0, 0.0), Vec3(1.0, 1.0, 0.0)][i]
    case South => [Vec3(0.0, 0.0, 1.0), Vec3(1.0, 0.0, 1.0), Vec3(1.0, 1.0, 1.0), Vec3(0.0, 1.0, 1.0)][i]
    case East => [Vec3(1.0, 0.0, 1.0), Vec3(1.0, 0.0, 0.0), Vec3(1.0, 1.0, 0.0), Vec3(1.0, 1.0, 1.0)][i]
    case West => [Vec3(0.0, 0.0, 0.0), Vec3(0.0, 0.0, 1.0), Vec3(0.0, 1.0, 1.0), Vec3(0.0, 1.0, 0.0)][i]
    case Up => [Vec3(0.0, 1.0, 1.0), Vec3(1.0, 1.0, 1.0), Vec3(1.0, 1.0, 0.0), Vec3(0.0, 1.0, 0.0)][i]
    case Down => [Vec3(0.0, 0.0, 0.0), Vec3(1.0, 0.0, 0.0), Vec3(1.0, 0.0, 1.0), Vec3(0.0, 0.0, 1.0)][i]
  }

  /** `faceData.get(key)[4]`: the normal every vertex of the face carries. */
  function Normal(d: Direction): Vec3 {
    match d
    case North => Vec3(0.0, 0.0, -1.0)
    case South => Vec3(0.0, 0.0, 1.0)
    case East => Vec3(1.0, 0.0, 0.0)
    case West => Vec3(-1.0, 0.0, 0.0)
    case Up => Vec3(0.0, 1.0, 0.0)
    case Down => Vec3(0.0, -1.0, 0.0)
  }

  /** The axis a face is perpendicular to. */
  function Axis(d: Direction): nat {
    match d
    case North | South => 2
    case East | West => 0
    case Up | Down => 1
  }

  /** Whether a face lies on the `to` side of the box (rather than `from`). */
  predicate Outer(d: Direction) {
    d == South || d == East || d == Up
  }

  /** `uvValues[k]`: the weights that pick a UV corner between `(uv.x, uv.y)`
      and `(uv.z, uv.w)`. */
  function UvCorner(k: nat): (real, real)
    requires k < 4
  {
    [(0.0, 1.0), (1.0, 1.0), (1.0, 0.0), (0.0, 0.0)][k]
  }

  /** `Mth.lerp(t, a, b)`. */
  function Lerp(t: real, a: real, b: real): real {
    a + t * (b - a)
  }

  /** `(int) (rot / 90f)`: the number of quarter turns of a face's UVs. */
  function RotationSteps(rot: real): (r: int)
    ensures JavaInt.InInt(r)
  {
    JavaInt.CastToInt(rot / 90.0)
  }

  /** `(i + rotation) % 4` with Java's `int` addition and remainder: the index
      into `uvValues` of corner `i`. A negative value makes the array access
      throw. */
  function UvSlot(i: nat, rotation: int): int
    requires i < 4
  {
    JavaInt.Rem(JavaInt.Wrap32(i + rotation), 4)
  }

  /** Every corner of the face has a usable UV index. */
  predicate SlotsValid(rotation: int) {
    forall i :: 0 <= i < 4 ==> UvSlot(i, rotation) >= 0
  }

  /** The vertex corner `i` of face `d` becomes, with UV corner `k`: the box
      corner `from + ftDiff * template[i]`, the UV picked by `uvValues[k]`
      and the face normal. */
  function FaceVertex(from: Vec3, ftDiff: Vec3, uv: Vec4, d: Direction, i: nat, k: nat): Vertex
    requires i < 4 && k < 4
  {
    var (s, t) := UvCorner(k);
    Vertex(Add(Mul(ftDiff, Corner(d, i)), from), Lerp(s, uv.x, uv.z), Lerp(t, uv.y, uv.w), Normal(d))
  }

  /** The four vertices `readFace` emits for face `d` with valid UV indices. */
  function FaceVertices(from: Vec3, ftDiff: Vec3, uv: Vec4, d: Direction, rotation: int): (vs: seq<Vertex>)
    requires SlotsValid(rotation)
    ensures |vs| == 4
  {
    seq(4, i requires 0 <= i < 4 => FaceVertex(from, ftDiff, uv, d, i, UvSlot(i, rotation)))
  }

  // ---- properties of the templates ----

  /** Every vertex of a face lies on a corner of the box from `from` to `to`;
      the face lies in the plane of its own side of the box; every vertex
      carries the face's outward unit normal; and its UV is one of the
      corners of the UV rectangle. */
  lemma FaceOnBox(from: Vec3, to: Vec3, uv: Vec4, d: Direction, i: nat, k: nat)
    requires i < 4 && k < 4
    ensures var v := FaceVertex(from, Sub(to, from), uv, d, i, k);
      && (v.pos.x == from.x || v.pos.x == to.x)
      && (v.pos.y == from.y || v.pos.y == to.y)
      && (v.pos.z == from.z || v.pos.z == to.z)
      && Coord(v.pos, Axis(d)) == Coord(if Outer(d) then to else from, Axis(d))
      && v.normal == Normal(d)
      && Coord(v.normal, Axis(d)) == (if Outer(d) then 1.0 else -1.0)
      && (v.u == uv.x || v.u == uv.z)
      && (v.v == uv.y || v.v == uv.w)
  {
    var c := Corner(d, i);
    CornerOnUnitCube(d, i);
    BoxPoint(from, to, c);
    var p := Add(Mul(Sub(to, from), c), from);
    assert Coord(p, Axis(d)) == (if Coord(c, Axis(d)) == 0.0 then Coord(from, Axis(d)) else Coord(to, Axis(d)));
    var (s, t) := UvCorner(k);
    LerpEnds(uv.x, uv.z, s);
    LerpEnds(uv.y, uv.w, t);
  }

  /** Every template corner is a corner of the unit cube, on the face's own
      side of it. */
  lemma CornerOnUnitCube(d: Direction, i: nat)
    requires i < 4
    ensures var c := Corner(d, i);
      && (c.x == 0.0 || c.x == 1.0) && (c.y == 0.0 || c.y == 1.0) && (c.z == 0.0 || c.z == 1.0)
      && Coord(c, Axis(d)) == (if Outer(d) then 1.0 else 0.0)
  {
  }

  /** Scaling the box by a corner of the unit cube and shifting it to
      `from` picks, on each axis, `from` or `to`. */
  lemma BoxPoint(from: Vec3, to: Vec3, c: Vec3)
    requires (c.x == 0.0 || c.x == 1.0) && (c.y == 0.0 || c.y == 1.0) && (c.z == 0.0 || c.z == 1.0)
    ensures var p := Add(Mul(Sub(to, from), c), from);
      && p.x == (if c.x == 0.0 then from.x else to.x)
      && p.y == (if c.y == 0.0 then from.y else to.y)
      && p.z == (if c.z == 0.0 then from.z else to.z)
  {
  }

  /** A weight of 0 or 1 picks one end of the interpolation. */
  lemma LerpEnds(a: real, b: real, w: real)
    requires w == 0.0 || w == 1.0
    ensures Lerp(w, a, b) == (if w == 0.0 then a else b)
  {
  }

  /** Consecutive corners of a face (cyclically) differ in exactly one
      coordinate, so the four corners trace the edges of the face. */
  lemma CornersTraceEdges(d: Direction, i: nat)
    requires i < 4
    ensures var a, b := Corner(d, i), Corner(d, (i + 1) % 4);
      (if a.x == b.x then 0 else 1) + (if a.y == b.y then 0 else 1) + (if a.z == b.z then 0 else 1) == 1
  {
  }

  /** With no rotation the corners take the UV corners in order: the first
      vertex the bottom-left `(uv.x, uv.w)`, then `(uv.z, uv.w)`,
      `(uv.z, uv.y)` and `(uv.x, uv.y)`. */
  lemma UnrotatedUvs(from: Vec3, ftDiff: Vec3, uv: Vec4, d: Direction)
    ensures SlotsValid(0)
    ensures var vs := FaceVertices(from, ftDiff, uv, d, 0);
      && (vs[0].u, vs[0].v) == (uv.x, uv.w)
      && (vs[1].u, vs[1].v) == (uv.z, uv.w)
      && (vs[2].u, vs[2].v) == (uv.z, uv.y)
      && (vs[3].u, vs[3].v) == (uv.x, uv.y)
  {
    assert forall i :: 0 <= i < 4 ==> UvSlot(i, 0) == i;
  }

  /** A rotation in `[0, 2^31 - 4]` gives every corner the slot
      `(i + rotation) % 4`, a valid one. */
  lemma NonNegativeRotationValid(rotation: int)
    requires 0 <= rotation <= JavaInt.INT_MAX - 3
    ensures SlotsValid(rotation)
    ensures forall i :: 0 <= i < 4 ==> UvSlot(i, rotation) == (i + rotation) % 4
  {
  }

  /** One more quarter turn gives each corner the UV slot its successor had:
      the UVs rotate by one corner. */
  lemma RotationShiftsCorners(i: nat, rotation: int)
    requires i < 4 && 0 <= rotation <= JavaInt.INT_MAX - 4
    ensures UvSlot(i, rotation + 1) == UvSlot((i + 1) % 4, rotation)
  {
    assert (i + rotation + 1) % 4 == ((i + 1) % 4 + rotation) % 4;
  }

  /** Four quarter turns are no turn. */
  lemma FullTurn(i: nat, rotation: int)
    requires i < 4 && 0 <= rotation <= JavaInt.INT_MAX - 7
    ensures UvSlot(i, rotation + 4) == UvSlot(i, rotation)
  {
  }

  /** A negative rotation (a face turned by -90 degrees or less) gives some
      corner a negative index into `uvValues`, so `readFace` throws. */
  lemma NegativeRotationThrows(rotation: int)
    requires JavaInt.InInt(rotation) && rotation < 0
    ensures !SlotsValid(rotation)
  {
    if rotation >= -3 {
      assert UvSlot(0, rotation) < 0;
    } else {
      var i := (1 - rotation) % 4;
      assert (i + rotation) % 4 == 1;
      assert UvSlot(i, rotation) < 0;
    }
  }
}

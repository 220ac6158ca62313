/** What `FiguraModelPart.readFace` and `readCuboid` do to the lists they
    fill, stated as functions of those lists: the face count per texture
    slot of the part being read, and the avatar's vertex builders, one per
    slot. The methods that do it in place are `PartReading.PartReader.ReadFace`
    and `ReadCuboid`. */
module Cuboids {
  import opened Wrappers
  import opened Nbt
  import opened Geometry
  import opened NbtVectors

  /** `facesByTexture` and `builders`. */
  datatype Sink = Sink(facesByTexture: seq<int>, builders: seq<seq<Vertex>>)

  /** The static vectors `from`, `to`, `ftDiff` and `uv`, shared by every
      cuboid and face the decoder reads. */
  datatype Scratch = Scratch(from: Vec3, to: Vec3, ftDiff: Vec3, uv: Vec4)

  /** `while (n > s.size()) s.add(fill)`. */
  function Grow<T>(s: seq<T>, n: int, fill: T): (r: seq<T>)
    ensures |r| == if n <= |s| then |s| else n
    ensures r[..|s|] == s
    ensures forall i :: |s| <= i < |r| ==> r[i] == fill
  {
    if n <= |s| then s else s + seq(n - |s|, _ => fill)
  }

  /** One more `add(fill)`. */
  lemma GrowStep<T>(s: seq<T>, n: int, fill: T)
    requires n >= |s|
    ensures Grow(s, n, fill) + [fill] == Grow(s, n + 1, fill)
  {
  }

  /** The face count of slot `t`, 0 for a slot the list does not reach. */
  function Slot(f: seq<int>, t: nat): int {
    if t < |f| then f[t] else 0
  }

  /** The vertices of builder `t`, none for a builder not yet created. */
  function Built(b: seq<seq<Vertex>>, t: nat): seq<Vertex> {
    if t < |b| then b[t] else []
  }

  /** The bookkeeping before a face on slot `texId`: both lists grown to
      hold the slot, then the slot's face count incremented. A negative slot
      makes `facesByTexture.get(texId)` throw. */
  function Claim(k: Sink, texId: int): (r: Result<Sink>)
    ensures r.Ok? <==> texId >= 0
    ensures r.Ok? ==> texId < |r.value.facesByTexture| && texId < |r.value.builders|
  {
    if texId < 0 then Err("IndexOutOfBoundsException")
    else
      var f := Grow(k.facesByTexture, texId + 1, 0);
      Ok(Sink(f[texId := f[texId] + 1], Grow(k.builders, texId + 1, [])))
  }

  /** A claim adds exactly one face to slot `texId` and leaves every other
      slot's count and every builder as they were; both lists end up long
      enough to hold the slot and are never shortened. */
  lemma ClaimSpec(k: Sink, texId: int)
    requires texId >= 0
    ensures var k' := Claim(k, texId).value;
      && |k'.facesByTexture| == (if texId < |k.facesByTexture| then |k.facesByTexture| else texId + 1)
      && |k'.builders| == (if texId < |k.builders| then |k.builders| else texId + 1)
      && (forall t: nat :: Slot(k'.facesByTexture, t) == Slot(k.facesByTexture, t) + (if t == texId then 1 else 0))
      && (forall t: nat :: Built(k'.builders, t) == Built(k.builders, t))
  {
  }

  /** `builders.get(texId).vertex(...)` for each of `vs`, in order. */
  function Emit(k: Sink, texId: nat, vs: seq<Vertex>): Sink
    requires texId < |k.builders|
  {
    k.(builders := k.builders[texId := k.builders[texId] + vs])
  }

  /** Emitting leaves the face counts alone, appends `vs` to the builder of
      `texId` and to no other. */
  lemma EmitSpec(k: Sink, texId: nat, vs: seq<Vertex>)
    requires texId < |k.builders|
    ensures var k' := Emit(k, texId, vs);
      && k'.facesByTexture == k.facesByTexture
      && |k'.builders| == |k.builders|
      && Built(k'.builders, texId) == Built(k.builders, texId) + vs
      && (forall t: nat :: t != texId ==> Built(k'.builders, t) == Built(k.builders, t))
  {
  }

  /** The slot a face on side `d` of a cube claims: `getShort("tex")` of the
      face's compound. */
  function FaceTex(cube: Compound, d: Direction): int {
    GetShort(GetCompound(cube, Key(d)), "tex")
  }

  /** `readFace(cube, facesByTexture, builders, key(d))`: nothing when the
      cube has no face on side `d`; otherwise the face is counted on its
      slot, `uv` is read, and its four vertices are emitted to its slot's
      builder; or the exception it throws. */
  function FaceSpec(cube: Compound, d: Direction, k: Sink, sc: Scratch): Result<(Sink, Scratch)> {
    if Key(d) !in cube then Ok((k, sc))
    else
      var face := GetCompound(cube, Key(d));
      var texId := FaceTex(cube, d);
      match Claim(k, texId)
      case Err(e) => Err(e)
      case Ok(k1) =>
        var rotation := RotationSteps(GetFloat(face, "rot"));
        match ReadVec4(face, "uv", sc.uv)
        case Err(e) => Err(e)
        case Ok(uv) =>
          if !SlotsValid(rotation) then Err("ArrayIndexOutOfBoundsException")
          else Ok((Emit(k1, texId, FaceVertices(sc.from, sc.ftDiff, uv, d, rotation)), sc.(uv := uv)))
  }

  /** The faces from position `j` of `Directions` on, in that order. */
  function FacesFrom(cube: Compound, j: nat, k: Sink, sc: Scratch): Result<(Sink, Scratch)>
    requires j <= |Directions|
    decreases |Directions| - j
  {
    if j == |Directions| then Ok((k, sc))
    else
      match FaceSpec(cube, Directions[j], k, sc)
      case Err(e) => Err(e)
      case Ok((k1, sc1)) => FacesFrom(cube, j + 1, k1, sc1)
  }

  /** The box a cuboid spans once `f` and `t` are read (either may keep the
      value of the previous cuboid) and `inf` inflates it on every side. */
  function CuboidBox(data: Compound, sc: Scratch): Result<Scratch> {
    match ReadVec3(data, "f", sc.from)
    case Err(e) => Err(e)
    case Ok(f) =>
      match ReadVec3(data, "t", sc.to)
      case Err(e) => Err(e)
      case Ok(t) =>
        var inflate := if "inf" in data then GetFloat(data, "inf") else 0.0;
        var from, to := Shift(f, -inflate), Shift(t, inflate);
        Ok(Scratch(from, to, Sub(to, from), sc.uv))
  }

  /** `readCuboid(facesByTexture, builders, data)`: the box, then the faces
      of `cube_data` in the order n, s, e, w, u, d. */
  function CuboidSpec(data: Compound, k: Sink, sc: Scratch): Result<(Sink, Scratch)> {
    match CuboidBox(data, sc)
    case Err(e) => Err(e)
    case Ok(box) => FacesFrom(GetCompound(data, "cube_data"), 0, k, box)
  }

  // ---- what a cuboid adds ----

  /** The position lies on a corner of the box from `from` to `to`. */
  predicate OnBox(p: Vec3, from: Vec3, to: Vec3) {
    && (p.x == from.x || p.x == to.x)
    && (p.y == from.y || p.y == to.y)
    && (p.z == from.z || p.z == to.z)
  }

  /** From `k` to `k'` the lists only grow, every builder keeps what it
      held, and every slot gains four vertices per face it gains: the
      renderer, which draws `4 * count` vertices of a slot's builder, finds
      exactly the quads counted. */
  ghost predicate AddsQuads(k: Sink, k': Sink) {
    && |k.facesByTexture| <= |k'.facesByTexture|
    && |k.builders| <= |k'.builders|
    && (forall t: nat :: Built(k.builders, t) <= Built(k'.builders, t))
    && (forall t: nat :: |Built(k'.builders, t)| - |Built(k.builders, t)|
                          == 4 * (Slot(k'.facesByTexture, t) - Slot(k.facesByTexture, t)))
  }

  /** `AddsQuads`, and every vertex added lies on a corner of the box `sc`
      spans. */
  ghost predicate AddsBoxQuads(k: Sink, k': Sink, sc: Scratch) {
    && AddsQuads(k, k')
    && (forall t: nat, i :: |Built(k.builders, t)| <= i < |Built(k'.builders, t)| ==>
          OnBox(Built(k'.builders, t)[i].pos, sc.from, sc.to))
  }

  lemma AddsQuadsTrans(k1: Sink, k2: Sink, k3: Sink)
    requires AddsQuads(k1, k2) && AddsQuads(k2, k3)
    ensures AddsQuads(k1, k3)
  {
  }

  lemma AddsBoxQuadsTrans(k1: Sink, k2: Sink, k3: Sink, sc: Scratch)
    requires AddsBoxQuads(k1, k2, sc) && AddsBoxQuads(k2, k3, sc)
    ensures AddsBoxQuads(k1, k3, sc)
  {
    forall t: nat, i | |Built(k1.builders, t)| <= i < |Built(k3.builders, t)|
      ensures OnBox(Built(k3.builders, t)[i].pos, sc.from, sc.to)
    {
      if i < |Built(k2.builders, t)| {
        assert Built(k3.builders, t)[i] == Built(k2.builders, t)[i];
      }
    }
  }

  /** The number of faces among `Directions[j..]` the cube has on slot `t`. */
  function FacesOn(cube: Compound, j: nat, t: int): nat
    requires j <= |Directions|
    decreases |Directions| - j
  {
    if j == |Directions| then 0
    else (if Key(Directions[j]) in cube && FaceTex(cube, Directions[j]) == t then 1 else 0) + FacesOn(cube, j + 1, t)
  }

  /** One face in a box whose `ftDiff` is `to - from` adds one face to its
      slot and four vertices on the box corners to its builder, and nothing
      anywhere else; the box is left as it was. */
  lemma FaceAddsQuad(cube: Compound, d: Direction, k: Sink, sc: Scratch)
    requires sc.ftDiff == Sub(sc.to, sc.from)
    requires FaceSpec(cube, d, k, sc).Ok?
    ensures var (k', sc') := FaceSpec(cube, d, k, sc).value;
      && AddsBoxQuads(k, k', sc)
      && (sc'.from, sc'.to, sc'.ftDiff) == (sc.from, sc.to, sc.ftDiff)
      && forall t: nat :: Slot(k'.facesByTexture, t) == Slot(k.facesByTexture, t)
                          + (if Key(d) in cube && FaceTex(cube, d) == t then 1 else 0)
  {
    if Key(d) in cube {
      var texId := FaceTex(cube, d);
      ClaimSpec(k, texId);
      var k1 := Claim(k, texId).value;
      var face := GetCompound(cube, Key(d));
      var rotation := RotationSteps(GetFloat(face, "rot"));
      var uv := ReadVec4(face, "uv", sc.uv).value;
      var vs := FaceVertices(sc.from, sc.ftDiff, uv, d, rotation);
      var k' := Emit(k1, texId, vs);
      assert k' == FaceSpec(cube, d, k, sc).value.0;
      forall i | 0 <= i < 4
        ensures OnBox(vs[i].pos, sc.from, sc.to)
      {
        FaceOnBox(sc.from, sc.to, uv, d, i, UvSlot(i, rotation));
      }
      forall t: nat
        ensures Built(k.builders, t) <= Built(k'.builders, t)
        ensures |Built(k'.builders, t)| - |Built(k.builders, t)|
                == 4 * (Slot(k'.facesByTexture, t) - Slot(k.facesByTexture, t))
      {
        if t == texId {
          assert Built(k'.builders, t) == Built(k.builders, t) + vs;
        } else {
          assert Built(k'.builders, t) == Built(k1.builders, t);
        }
      }
      forall t: nat, i | |Built(k.builders, t)| <= i < |Built(k'.builders, t)|
        ensures OnBox(Built(k'.builders, t)[i].pos, sc.from, sc.to)
      {
        if t == texId {
          assert Built(k'.builders, t) == Built(k.builders, t) + vs;
          assert Built(k'.builders, t)[i] == vs[i - |Built(k.builders, t)|];
        }
      }
    }
  }

  lemma {:induction false} FacesFromAddBoxQuads(cube: Compound, j: nat, k: Sink, sc: Scratch)
    requires j <= |Directions|
    requires sc.ftDiff == Sub(sc.to, sc.from)
    requires FacesFrom(cube, j, k, sc).Ok?
    ensures var (k', sc') := FacesFrom(cube, j, k, sc).value;
      && AddsBoxQuads(k, k', sc)
      && (sc'.from, sc'.to, sc'.ftDiff) == (sc.from, sc.to, sc.ftDiff)
      && forall t: nat :: Slot(k'.facesByTexture, t) == Slot(k.facesByTexture, t) + FacesOn(cube, j, t)
    decreases |Directions| - j
  {
    if j < |Directions| {
      var d := Directions[j];
      FaceAddsQuad(cube, d, k, sc);
      var (k1, sc1) := FaceSpec(cube, d, k, sc).value;
      FacesFromAddBoxQuads(cube, j + 1, k1, sc1);
      var (k', sc') := FacesFrom(cube, j, k, sc).value;
      assert (k', sc') == FacesFrom(cube, j + 1, k1, sc1).value;
      assert sc1.from == sc.from && sc1.to == sc.to;
      AddsBoxQuadsTrans(k, k1, k', sc);
    }
  }

  /** A cuboid read successfully counts, on every slot, exactly the faces
      of `cube_data` that name that slot; every slot's builder gains exactly
      four vertices per face counted on it and keeps what it held; and every
      vertex it gains lies on a corner of the inflated box from `from` to
      `to`, with `ftDiff` left at `to - from`. */
  lemma CuboidAddsBoxQuads(data: Compound, k: Sink, sc: Scratch)
    requires CuboidSpec(data, k, sc).Ok?
    ensures var (k', sc') := CuboidSpec(data, k, sc).value;
      && AddsBoxQuads(k, k', sc')
      && sc'.ftDiff == Sub(sc'.to, sc'.from)
      && forall t: nat :: Slot(k'.facesByTexture, t)
                          == Slot(k.facesByTexture, t) + FacesOn(GetCompound(data, "cube_data"), 0, t)
  {
    var box := CuboidBox(data, sc).value;
    FacesFromAddBoxQuads(GetCompound(data, "cube_data"), 0, k, box);
  }

  /** The inflation moves both corners outward by `inf`: `from` down and
      `to` up on every axis. */
  lemma CuboidInflates(data: Compound, sc: Scratch)
    requires CuboidBox(data, sc).Ok?
    requires "f" !in data && "t" !in data && "inf" in data
    ensures var box := CuboidBox(data, sc).value;
      var inf := GetFloat(data, "inf");
      box.from == Vec3(-inf, -inf, -inf) && box.to == Vec3(inf, inf, inf)
  {
  }

  /** A face with a negative rotation makes the cuboid fail. */
  lemma NegativeRotationFailsFace(cube: Compound, d: Direction, k: Sink, sc: Scratch)
    requires Key(d) in cube && FaceTex(cube, d) >= 0
    requires ReadVec4(GetCompound(cube, Key(d)), "uv", sc.uv).Ok?
    requires RotationSteps(GetFloat(GetCompound(cube, Key(d)), "rot")) < 0
    ensures FaceSpec(cube, d, k, sc).Err?
  {
    NegativeRotationThrows(RotationSteps(GetFloat(GetCompound(cube, Key(d)), "rot")));
  }
}

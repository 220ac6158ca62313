/** What `FiguraModelPart.readMeshRegular` does to the lists it fills,
    stated as functions: the mesh lists it reads, the vertex index width it
    picks, the corner arrays `posArr`/`uvArr` it fills face by face, and
    the vertices it emits. The method that does it in place is
    `PartReading.PartReader.ReadMeshRegular`. */
module Meshes {
  import opened Wrappers
  import JavaInt
  import opened Nbt
  import opened Geometry
  import opened Cuboids

  /** The lists of a `mesh_data` compound: `vtx` (x, y, z per vertex),
      `uvs` (u, v per face corner), `tex` (one packed short per face) and
      `fac` (the vertex index of each face corner), and the index width
      `bestType` chosen from the size of `vtx`. */
  datatype MeshLists = MeshLists(verts: seq<Tag>, uvs: seq<Tag>, tex: seq<Tag>, fac: seq<Tag>, bestType: nat)

  /** The index width for a `vtx` list of `floats` entries: 0 (bytes) for at
      most 255 vertices, 1 (shorts) for at most 32767, 2 (ints) above. */
  function BestType(floats: nat): (t: nat)
    ensures t <= 2
    ensures t == 0 <==> floats <= 255 * 3
    ensures t == 2 <==> floats > 32767 * 3
  {
    if floats > 32767 * 3 then 2 else if floats > 255 * 3 then 1 else 0
  }

  /** The element type `fac` is read with for each width. */
  const FacTypes: seq<nat> := [TAG_BYTE, TAG_SHORT, TAG_INT]

  function ListsOf(meshData: Compound): (m: MeshLists)
    ensures m.bestType <= 2
  {
    var verts := GetList(meshData, "vtx", TAG_FLOAT).items;
    var bestType := BestType(|verts|);
    MeshLists(verts, GetList(meshData, "uvs", TAG_FLOAT).items, GetList(meshData, "tex", TAG_SHORT).items,
              GetList(meshData, "fac", FacTypes[bestType]).items, bestType)
  }

  /** The vertex index at position `n` of `fac`: a byte masked with `0xff`,
      a short masked with `0xffff`, or an int. A missing or non-byte entry
      of a byte list throws; the other getters give 0. */
  function VertexIndex(m: MeshLists, n: int): Result<int> {
    if m.bestType == 0 then
      match ListByte(m.fac, n)
      case Ok(b) => Ok(b % 0x100)
      case Err(e) => Err(e)
    else if m.bestType == 1 then Ok(ListShort(m.fac, n) % 0x1_0000)
    else Ok(ListInt(m.fac, n))
  }

  /** Byte and short indices are read unsigned: a stored byte `b` in
      `[-128, 128)` names vertex `b`, or `b + 256` when negative, and a
      short likewise modulo 65536; so a byte index reaches every one of up
      to 256 vertices and a short index every one of up to 65536. */
  lemma IndicesUnsigned(m: MeshLists, n: int)
    requires VertexIndex(m, n).Ok?
    ensures var vid := VertexIndex(m, n).value;
      && (m.bestType == 0 ==>
            && 0 <= vid < 0x100
            && (-0x80 <= m.fac[n].b < 0x80 ==> vid == if m.fac[n].b < 0 then m.fac[n].b + 0x100 else m.fac[n].b))
      && (m.bestType == 1 ==>
            && 0 <= vid < 0x1_0000
            && (-0x8000 <= ListShort(m.fac, n) < 0x8000 ==>
                  vid == if ListShort(m.fac, n) < 0 then ListShort(m.fac, n) + 0x1_0000 else ListShort(m.fac, n)))
  {
  }

  /** `packed >> 4`: the texture slot of a face. */
  function TexIdOf(packed: int): int {
    packed / 16
  }

  /** `packed & 0xf`: the number of corners of a face. */
  function VertsOf(packed: int): nat {
    packed % 16
  }

  /** The packed short splits into its slot and its corner count, which
      recompose it; the slot is negative exactly when the short is. */
  lemma PackedSplits(packed: int)
    ensures packed == 16 * TexIdOf(packed) + VertsOf(packed)
    ensures VertsOf(packed) < 16
    ensures TexIdOf(packed) >= 0 <==> packed >= 0
  {
  }

  /** The scratch arrays `posArr` (12 floats) and `uvArr` (8 floats). */
  datatype Corners = Corners(pos: seq<real>, uv: seq<real>)

  predicate WellSized(c: Corners) {
    |c.pos| == 12 && |c.uv| == 8
  }

  /** `new float[12]`, `new float[8]`. */
  const FreshCorners: Corners :=
    Corners([0.0, 0.0, 0.0, 0.0, 0.0, 0.0, 0.0, 0.0, 0.0, 0.0, 0.0, 0.0],
            [0.0, 0.0, 0.0, 0.0, 0.0, 0.0, 0.0, 0.0])

  /** The position of vertex `vid` of `vtx`, read at `3*vid` with Java's
      `int` multiplication (0 for entries the list lacks). */
  function VertexPos(m: MeshLists, vid: int): Vec3 {
    Vec3(ListFloat(m.verts, JavaInt.Wrap32(3 * vid)),
         ListFloat(m.verts, JavaInt.Wrap32(3 * vid + 1)),
         ListFloat(m.verts, JavaInt.Wrap32(3 * vid + 2)))
  }

  /** Iteration `j` of the first inner loop: corner `j` of the face read
      into `posArr[3j..3j+3]` and `uvArr[2j..2j+2]`. A fifth corner
      (`j == 4`) writes past `posArr` and throws. */
  function LoadCorner(m: MeshLists, vi: int, uvi: int, j: nat, c: Corners): (r: Result<Corners>)
    requires WellSized(c)
    ensures r.Ok? ==> j < 4 && WellSized(r.value)
  {
    match VertexIndex(m, vi + j)
    case Err(e) => Err(e)
    case Ok(vid) =>
      if j >= 4 then Err("ArrayIndexOutOfBoundsException")
      else
        var p := VertexPos(m, vid);
        Ok(Corners(c.pos[3 * j := p.x][3 * j + 1 := p.y][3 * j + 2 := p.z],
                   c.uv[2 * j := ListFloat(m.uvs, uvi + 2 * j)][2 * j + 1 := ListFloat(m.uvs, uvi + 2 * j + 1)]))
  }

  /** The first inner loop for a face of `n` corners. */
  function LoadCorners(m: MeshLists, vi: int, uvi: int, n: nat, c: Corners): (r: Result<Corners>)
    requires WellSized(c)
    ensures r.Ok? ==> n <= 4 && WellSized(r.value)
  {
    if n == 0 then Ok(c)
    else
      match LoadCorners(m, vi, uvi, n - 1, c)
      case Err(e) => Err(e)
      case Ok(c1) => LoadCorner(m, vi, uvi, n - 1, c1)
  }

  function Point(c: Corners, j: nat): Vec3
    requires WellSized(c) && j < 4
  {
    Vec3(c.pos[3 * j], c.pos[3 * j + 1], c.pos[3 * j + 2])
  }

  function Uv(c: Corners, j: nat): (real, real)
    requires WellSized(c) && j < 4
  {
    (c.uv[2 * j], c.uv[2 * j + 1])
  }

  /** Corner `j` loaded by a face whose corners start at `vi` in `fac` and at
      `uvi` in `uvs`: vertex `fac[vi + j]` of `vtx`, with the UV pair at
      `uvi + 2j`. */
  predicate CornerLoaded(m: MeshLists, vi: int, uvi: int, j: nat, c: Corners)
    requires WellSized(c) && j < 4
  {
    && VertexIndex(m, vi + j).Ok?
    && Point(c, j) == VertexPos(m, VertexIndex(m, vi + j).value)
    && Uv(c, j) == (ListFloat(m.uvs, uvi + 2 * j), ListFloat(m.uvs, uvi + 2 * j + 1))
  }

  /** Loading corner `j` fills that corner and no other. */
  lemma LoadCornerSpec(m: MeshLists, vi: int, uvi: int, j: nat, c: Corners)
    requires WellSized(c)
    requires LoadCorner(m, vi, uvi, j, c).Ok?
    ensures var r := LoadCorner(m, vi, uvi, j, c).value;
      && j < 4
      && CornerLoaded(m, vi, uvi, j, r)
      && (forall k :: 0 <= k < 4 && k != j ==> Point(r, k) == Point(c, k) && Uv(r, k) == Uv(c, k))
      && r.pos[3 * (j + 1)..] == c.pos[3 * (j + 1)..]
      && r.uv[2 * (j + 1)..] == c.uv[2 * (j + 1)..]
  {
  }

  /** After the first inner loop of an `n`-corner face, corner `j < n` holds
      vertex `fac[vi + j]` and the UV pair at `uvi + 2j`, and the corners
      from `n` on still hold what the previous face left there. */
  lemma {:induction false} LoadCornersSpec(m: MeshLists, vi: int, uvi: int, n: nat, c: Corners)
    requires WellSized(c)
    requires LoadCorners(m, vi, uvi, n, c).Ok?
    ensures var r := LoadCorners(m, vi, uvi, n, c).value;
      && (forall j :: 0 <= j < n ==> CornerLoaded(m, vi, uvi, j, r))
      && r.pos[3 * n..] == c.pos[3 * n..]
      && r.uv[2 * n..] == c.uv[2 * n..]
  {
    if n > 0 {
      var c1 := LoadCorners(m, vi, uvi, n - 1, c).value;
      LoadCornersSpec(m, vi, uvi, n - 1, c);
      LoadCornerSpec(m, vi, uvi, n - 1, c1);
      var r := LoadCorner(m, vi, uvi, n - 1, c1).value;
      assert r == LoadCorners(m, vi, uvi, n, c).value;
      forall j | 0 <= j < n - 1
        ensures CornerLoaded(m, vi, uvi, j, r)
      {
        assert CornerLoaded(m, vi, uvi, j, c1);
      }
      SuffixOfSuffix(c1.pos, c.pos, 3 * (n - 1), 3 * n);
      SuffixOfSuffix(c1.uv, c.uv, 2 * (n - 1), 2 * n);
    }
  }

  /** Two sequences that agree from `i` on agree from any later `j` on. */
  lemma SuffixOfSuffix(a: seq<real>, b: seq<real>, i: nat, j: nat)
    requires i <= j <= |a| && |a| == |b| && a[i..] == b[i..]
    ensures a[j..] == b[j..]
  {
    assert a[j..] == a[i..][j - i..];
    assert b[j..] == b[i..][j - i..];
  }

  /** Once a corner fails, the face fails with that corner's error. */
  lemma {:induction false} LoadCornersStops(m: MeshLists, vi: int, uvi: int, j: nat, n: nat, c: Corners)
    requires WellSized(c) && j <= n
    requires LoadCorners(m, vi, uvi, j, c).Err?
    ensures LoadCorners(m, vi, uvi, n, c) == LoadCorners(m, vi, uvi, j, c)
    decreases n - j
  {
    if j < n {
      LoadCornersStops(m, vi, uvi, j, n - 1, c);
    }
  }

  /** A face of five or more corners throws. */
  lemma TooManyCornersThrow(m: MeshLists, vi: int, uvi: int, n: nat, c: Corners)
    requires WellSized(c) && n >= 5
    ensures LoadCorners(m, vi, uvi, n, c).Err?
  {
  }

  function MeshVertex(c: Corners, j: nat, normal: Vec3): Vertex
    requires WellSized(c) && j < 4
  {
    Vertex(Point(c, j), c.uv[2 * j], c.uv[2 * j + 1], normal)
  }

  /** The vertices emitted for a face of `n` corners: one per corner, and
      for a triangle a fourth repeating the third. */
  function FaceOut(c: Corners, n: nat, normal: Vec3): (vs: seq<Vertex>)
    requires WellSized(c) && n <= 4
    ensures |vs| == if n == 3 then 4 else n
  {
    seq(n, j requires 0 <= j < n => MeshVertex(c, j, normal)) + (if n == 3 then [MeshVertex(c, 2, normal)] else [])
  }

  /** The normal computed from `posArr[0..9]`, `normalize(cross(p3 - p2,
      p1 - p2))`, is floating-point arithmetic and stays a parameter. */
  type NormalFn = (Vec3, Vec3, Vec3) -> Vec3

  /** The loop state of `readMeshRegular`: the lists it fills, the corner
      arrays, and the cursors `vi` into `fac` and `uvi` into `uvs`. */
  datatype MeshState = MeshState(sink: Sink, corners: Corners, vi: int, uvi: int)

  /** One iteration of the outer loop, for face `ti`. */
  function MeshFace(m: MeshLists, normalOf: NormalFn, ti: nat, s: MeshState): (r: Result<MeshState>)
    requires WellSized(s.corners)
    ensures r.Ok? ==> WellSized(r.value.corners)
  {
    var packed := ListShort(m.tex, ti);
    var texId, n := TexIdOf(packed), VertsOf(packed);
    match Claim(s.sink, texId)
    case Err(e) => Err(e)
    case Ok(k1) =>
      match LoadCorners(m, s.vi, s.uvi, n, s.corners)
      case Err(e) => Err(e)
      case Ok(c) =>
        var normal := normalOf(Point(c, 0), Point(c, 1), Point(c, 2));
        Ok(MeshState(Emit(k1, texId, FaceOut(c, n, normal)), c, s.vi + n, s.uvi + 2 * n))
  }

  /** A face fails when its slot claim fails, else when its corners do not
      load. */
  lemma MeshFaceErrors(m: MeshLists, normalOf: NormalFn, ti: nat, s: MeshState)
    requires WellSized(s.corners)
    ensures var claim := Claim(s.sink, TexIdOf(ListShort(m.tex, ti)));
      claim.Err? ==> MeshFace(m, normalOf, ti, s) == Err(claim.msg)
    ensures var load := LoadCorners(m, s.vi, s.uvi, VertsOf(ListShort(m.tex, ti)), s.corners);
      Claim(s.sink, TexIdOf(ListShort(m.tex, ti))).Ok? && load.Err? ==> MeshFace(m, normalOf, ti, s) == Err(load.msg)
  {
  }

  /** A face whose claim and corner load succeed emits its vertices into
      the claimed builder and moves both cursors past its corners. */
  lemma MeshFaceLoaded(m: MeshLists, normalOf: NormalFn, ti: nat, s: MeshState, k1: Sink, c: Corners)
    requires WellSized(s.corners)
    requires Claim(s.sink, TexIdOf(ListShort(m.tex, ti))) == Ok(k1)
    requires LoadCorners(m, s.vi, s.uvi, VertsOf(ListShort(m.tex, ti)), s.corners) == Ok(c)
    ensures var texId, n := TexIdOf(ListShort(m.tex, ti)), VertsOf(ListShort(m.tex, ti));
      MeshFace(m, normalOf, ti, s)
        == Ok(MeshState(Emit(k1, texId, FaceOut(c, n, normalOf(Point(c, 0), Point(c, 1), Point(c, 2)))), c, s.vi + n, s.uvi + 2 * n))
  {
  }

  /** The outer loop from face `ti` on. */
  function MeshFrom(m: MeshLists, normalOf: NormalFn, ti: nat, s: MeshState): (r: Result<MeshState>)
    requires ti <= |m.tex| && WellSized(s.corners)
    ensures r.Ok? ==> WellSized(r.value.corners)
    decreases |m.tex| - ti
  {
    if ti == |m.tex| then Ok(s)
    else
      match MeshFace(m, normalOf, ti, s)
      case Err(e) => Err(e)
      case Ok(s1) => MeshFrom(m, normalOf, ti + 1, s1)
  }

  /** The state `readMeshRegular` starts from: fresh arrays, cursors at 0. */
  function MeshStart(k: Sink): MeshState {
    MeshState(k, FreshCorners, 0, 0)
  }

  /** The faces from `ti` on fail as face `ti` does, or go on from the
      state it leaves. */
  lemma MeshFromFace(m: MeshLists, normalOf: NormalFn, ti: nat, s: MeshState)
    requires ti < |m.tex| && WellSized(s.corners)
    ensures MeshFace(m, normalOf, ti, s).Err? ==> MeshFrom(m, normalOf, ti, s) == Err(MeshFace(m, normalOf, ti, s).msg)
    ensures MeshFace(m, normalOf, ti, s).Ok? ==> MeshFrom(m, normalOf, ti, s) == MeshFrom(m, normalOf, ti + 1, MeshFace(m, normalOf, ti, s).value)
  {
  }

  /** `readMeshRegular(facesByTexture, builders, meshData)`. */
  function MeshSpec(meshData: Compound, k: Sink, normalOf: NormalFn): Result<Sink> {
    var m := ListsOf(meshData);
    match MeshFrom(m, normalOf, 0, MeshStart(k))
    case Err(e) => Err(e)
    case Ok(s) => Ok(s.sink)
  }

  // ---- what one face adds ----

  /** The successful result of one face, unfolded. */
  lemma MeshFaceUnfold(m: MeshLists, normalOf: NormalFn, ti: nat, s: MeshState)
    requires WellSized(s.corners)
    requires MeshFace(m, normalOf, ti, s).Ok?
    ensures var packed := ListShort(m.tex, ti);
      var texId, n := TexIdOf(packed), VertsOf(packed);
      && Claim(s.sink, texId).Ok?
      && LoadCorners(m, s.vi, s.uvi, n, s.corners).Ok?
      && var c := LoadCorners(m, s.vi, s.uvi, n, s.corners).value;
         MeshFace(m, normalOf, ti, s).value
           == MeshState(Emit(Claim(s.sink, texId).value, texId, FaceOut(c, n, normalOf(Point(c, 0), Point(c, 1), Point(c, 2)))),
                        c, s.vi + n, s.uvi + 2 * n)
  {
  }

  /** A face read successfully has a non-negative slot and at most four
      corners; it is counted once on its slot; its slot's builder gains one
      vertex per corner and a triangle one more; no other builder changes;
      and the cursors advance by the corner count and twice the corner
      count. */
  lemma MeshFaceCounts(m: MeshLists, normalOf: NormalFn, ti: nat, s: MeshState)
    requires WellSized(s.corners)
    requires MeshFace(m, normalOf, ti, s).Ok?
    ensures var packed := ListShort(m.tex, ti);
      var texId, n := TexIdOf(packed), VertsOf(packed);
      var s' := MeshFace(m, normalOf, ti, s).value;
      && texId >= 0 && n <= 4
      && s'.vi == s.vi + n && s'.uvi == s.uvi + 2 * n
      && (forall t: nat :: Slot(s'.sink.facesByTexture, t) == Slot(s.sink.facesByTexture, t) + (if t == texId then 1 else 0))
      && (forall t: nat :: t != texId ==> Built(s'.sink.builders, t) == Built(s.sink.builders, t))
      && Built(s.sink.builders, texId) <= Built(s'.sink.builders, texId)
      && |Built(s'.sink.builders, texId)| == |Built(s.sink.builders, texId)| + (if n == 3 then 4 else n)
  {
    var packed := ListShort(m.tex, ti);
    var texId, n := TexIdOf(packed), VertsOf(packed);
    MeshFaceUnfold(m, normalOf, ti, s);
    ClaimSpec(s.sink, texId);
    var k1 := Claim(s.sink, texId).value;
    var c := LoadCorners(m, s.vi, s.uvi, n, s.corners).value;
    var vs := FaceOut(c, n, normalOf(Point(c, 0), Point(c, 1), Point(c, 2)));
    var s' := MeshFace(m, normalOf, ti, s).value;
    EmitSpec(k1, texId, vs);
    assert Built(s'.sink.builders, texId) == Built(s.sink.builders, texId) + vs;
  }

  /** Vertex `v` is corner `j` of the face whose corners start at `vi` in
      `fac` and at `uvi` in `uvs`: vertex `fac[vi + j]` with the UV pair at
      `uvi + 2j`. */
  ghost predicate VertexFrom(m: MeshLists, vi: int, uvi: int, j: nat, v: Vertex) {
    && VertexIndex(m, vi + j).Ok?
    && v.pos == VertexPos(m, VertexIndex(m, vi + j).value)
    && (v.u, v.v) == (ListFloat(m.uvs, uvi + 2 * j), ListFloat(m.uvs, uvi + 2 * j + 1))
  }

  /** Each of the first `n` vertices of `vs` is its corner. */
  ghost predicate VerticesFrom(m: MeshLists, vi: int, uvi: int, n: nat, vs: seq<Vertex>)
    requires n <= |vs|
  {
    forall j :: 0 <= j < n ==> VertexFrom(m, vi, uvi, j, vs[j])
  }

  /** The vertices emitted from freshly loaded corners carry what was
      loaded. */
  lemma LoadedFaceOut(m: MeshLists, vi: int, uvi: int, n: nat, c0: Corners, normal: Vec3)
    requires WellSized(c0)
    requires LoadCorners(m, vi, uvi, n, c0).Ok?
    ensures n <= 4
    ensures VerticesFrom(m, vi, uvi, n, FaceOut(LoadCorners(m, vi, uvi, n, c0).value, n, normal))
  {
    var c := LoadCorners(m, vi, uvi, n, c0).value;
    LoadCornersSpec(m, vi, uvi, n, c0);
    var vs := FaceOut(c, n, normal);
    forall j | 0 <= j < n
      ensures VertexFrom(m, vi, uvi, j, vs[j])
    {
      assert CornerLoaded(m, vi, uvi, j, c);
      assert vs[j] == MeshVertex(c, j, normal);
    }
    assert VerticesFrom(m, vi, uvi, n, vs);
  }

  /** The vertices a face read successfully adds to its slot's builder: one
      per corner `j`, at vertex `fac[vi + j]` with the UV pair at
      `uvi + 2j`, and for a triangle a fourth repeating the third. */
  lemma MeshFaceVertices(m: MeshLists, normalOf: NormalFn, ti: nat, s: MeshState)
    requires WellSized(s.corners)
    requires MeshFace(m, normalOf, ti, s).Ok?
    ensures var packed := ListShort(m.tex, ti);
      var texId, n := TexIdOf(packed), VertsOf(packed);
      var s' := MeshFace(m, normalOf, ti, s).value;
      var added := Built(s'.sink.builders, texId)[|Built(s.sink.builders, texId)|..];
      && |added| == (if n == 3 then 4 else n)
      && VerticesFrom(m, s.vi, s.uvi, n, added)
      && (n == 3 ==> added[3] == added[2])
  {
    var packed := ListShort(m.tex, ti);
    var texId, n := TexIdOf(packed), VertsOf(packed);
    MeshFaceUnfold(m, normalOf, ti, s);
    ClaimSpec(s.sink, texId);
    var k1 := Claim(s.sink, texId).value;
    var c := LoadCorners(m, s.vi, s.uvi, n, s.corners).value;
    var normal := normalOf(Point(c, 0), Point(c, 1), Point(c, 2));
    var vs := FaceOut(c, n, normal);
    LoadedFaceOut(m, s.vi, s.uvi, n, s.corners, normal);
    EmitSpec(k1, texId, vs);
    var s' := MeshFace(m, normalOf, ti, s).value;
    var added := Built(s'.sink.builders, texId)[|Built(s.sink.builders, texId)|..];
    assert added == vs;
  }

  /** Face `i` has three or four corners. */
  predicate QuadOrTriangle(m: MeshLists, i: nat) {
    VertsOf(ListShort(m.tex, i)) == 3 || VertsOf(ListShort(m.tex, i)) == 4
  }

  /** Every face from `ti` on has three or four corners. */
  predicate AllQuadsOrTriangles(m: MeshLists, ti: nat) {
    forall i :: ti <= i < |m.tex| ==> QuadOrTriangle(m, i)
  }

  /** A face of three or four corners adds a quad: its slot gains one face
      and four vertices, and every other slot stays as it was. A face of
      fewer corners breaks the four-vertices-per-face count. */
  lemma MeshAddsQuads(m: MeshLists, normalOf: NormalFn, ti: nat, s: MeshState)
    requires ti <= |m.tex| && WellSized(s.corners)
    requires AllQuadsOrTriangles(m, ti)
    requires MeshFrom(m, normalOf, ti, s).Ok?
    ensures AddsQuads(s.sink, MeshFrom(m, normalOf, ti, s).value.sink)
  {
    var r := MeshFrom(m, normalOf, ti, s).value;
    var k, k' := s.sink, r.sink;
    MeshAddsQuadsAt(m, normalOf, ti, s, r, 0);
    forall t: nat
      ensures Built(k.builders, t) <= Built(k'.builders, t)
      ensures |Built(k'.builders, t)| - |Built(k.builders, t)| == 4 * (Slot(k'.facesByTexture, t) - Slot(k.facesByTexture, t))
    {
      MeshAddsQuadsAt(m, normalOf, ti, s, r, t);
    }
  }

  /** `AddsQuads`, for slot `t` alone. */
  ghost predicate AddsQuadsAt(k: Sink, k': Sink, t: nat) {
    && |k.facesByTexture| <= |k'.facesByTexture|
    && |k.builders| <= |k'.builders|
    && Built(k.builders, t) <= Built(k'.builders, t)
    && |Built(k'.builders, t)| - |Built(k.builders, t)| == 4 * (Slot(k'.facesByTexture, t) - Slot(k.facesByTexture, t))
  }

  lemma AddsQuadsAtTrans(k1: Sink, k2: Sink, k3: Sink, t: nat)
    requires AddsQuadsAt(k1, k2, t) && AddsQuadsAt(k2, k3, t)
    ensures AddsQuadsAt(k1, k3, t)
  {
  }

  /** The faces from `ti` on, read from `s`, end in `r`. */
  ghost predicate Reaches(m: MeshLists, normalOf: NormalFn, ti: nat, s: MeshState, r: MeshState) {
    ti <= |m.tex| && WellSized(s.corners) && MeshFrom(m, normalOf, ti, s) == Ok(r)
  }

  /** `MeshAddsQuads` for slot `t`. */
  lemma {:induction false} MeshAddsQuadsAt(m: MeshLists, normalOf: NormalFn, ti: nat, s: MeshState, r: MeshState, t: nat)
    requires Reaches(m, normalOf, ti, s, r) && AllQuadsOrTriangles(m, ti)
    ensures AddsQuadsAt(s.sink, r.sink, t)
    decreases |m.tex| - ti, 1
  {
    if ti < |m.tex| {
      MeshAddsQuadsStep(m, normalOf, ti, s, r, t);
    } else {
      MeshFromEnd(m, normalOf, ti, s, r);
    }
  }

  /** Past the last face the state is the result. */
  lemma MeshFromEnd(m: MeshLists, normalOf: NormalFn, ti: nat, s: MeshState, r: MeshState)
    requires ti == |m.tex| && Reaches(m, normalOf, ti, s, r)
    ensures r == s
  {
  }

  /** Face `ti` adds a quad, and the faces after it add theirs. */
  lemma {:induction false} MeshAddsQuadsStep(m: MeshLists, normalOf: NormalFn, ti: nat, s: MeshState, r: MeshState, t: nat)
    requires ti < |m.tex|
    requires Reaches(m, normalOf, ti, s, r) && AllQuadsOrTriangles(m, ti)
    ensures AddsQuadsAt(s.sink, r.sink, t)
    decreases |m.tex| - ti, 0
  {
    assert QuadOrTriangle(m, ti);
    var s1 := MeshFace(m, normalOf, ti, s).value;
    MeshFaceAddsQuad(m, normalOf, ti, s);
    MeshAddsQuadsAt(m, normalOf, ti + 1, s1, r, t);
    AddsQuadsAtTrans(s.sink, s1.sink, r.sink, t);
  }

  /** One face of three or four corners adds a quad. */
  lemma MeshFaceAddsQuad(m: MeshLists, normalOf: NormalFn, ti: nat, s: MeshState)
    requires WellSized(s.corners)
    requires VertsOf(ListShort(m.tex, ti)) == 3 || VertsOf(ListShort(m.tex, ti)) == 4
    requires MeshFace(m, normalOf, ti, s).Ok?
    ensures AddsQuads(s.sink, MeshFace(m, normalOf, ti, s).value.sink)
  {
    var s1 := MeshFace(m, normalOf, ti, s).value;
    MeshFaceCounts(m, normalOf, ti, s);
    var texId := TexIdOf(ListShort(m.tex, ti));
    assert |Built(s1.sink.builders, texId)| == |Built(s.sink.builders, texId)| + 4;
    forall t: nat
      ensures Built(s.sink.builders, t) <= Built(s1.sink.builders, t)
    {
    }
  }

  /** A mesh read successfully whose faces all have three or four corners
      adds exactly four vertices per face it counts, slot by slot. */
  lemma MeshSpecAddsQuads(meshData: Compound, k: Sink, normalOf: NormalFn)
    requires AllQuadsOrTriangles(ListsOf(meshData), 0)
    requires MeshSpec(meshData, k, normalOf).Ok?
    ensures AddsQuads(k, MeshSpec(meshData, k, normalOf).value)
  {
    MeshAddsQuads(ListsOf(meshData), normalOf, 0, MeshStart(k));
  }
}

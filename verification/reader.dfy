/** The decoder as the source runs it: `FiguraModelPart.read` and the
    readers it calls update shared state in place. `PartReader` holds that
    state: the face counts of the part being read, the avatar's builders,
    the static vectors `from`, `to`, `ftDiff` and `uv`, and the counter
    `index[0]`. Each method is proved to leave exactly the state, and return
    exactly the result, that the functions of `Cuboids`, `Meshes` and
    `PartDecoder` state. */
module PartReading {
  import opened Wrappers
  import opened Nbt
  import opened Geometry
  import opened NbtVectors
  import opened Cuboids
  import opened Meshes
  import opened TextureSizes
  import opened PartDecoder

  /** Whether an operation that returns nothing threw, and with what. */
  function OutcomeOf<T>(r: Result<T>): (o: Outcome)
    ensures o.Pass? <==> r.Ok?
    ensures o.Fail? ==> o.msg == r.msg
  {
    if r.Ok? then Pass else Fail(r.msg)
  }

  class PartReader {
    /** `facesByTexture` of the part being read. */
    var facesByTexture: seq<int>
    /** `bufferBuilders`, one vertex list per texture slot. */
    var builders: seq<seq<Vertex>>
    var from: Vec3
    var to: Vec3
    var ftDiff: Vec3
    var uv: Vec4
    /** `index[0]`. */
    var index: nat
    const env: Env

    /** A reader for one avatar: the builders it was given, the counter at
        0, and the static vectors at zero. */
    constructor (env: Env, builders: seq<seq<Vertex>>)
      ensures this.env == env && this.builders == builders
      ensures facesByTexture == [] && index == 0
      ensures ScratchOf() == Scratch(Zero3, Zero3, Zero3, Zero4)
    {
      this.env := env;
      this.builders := builders;
      facesByTexture := [];
      index := 0;
      from, to, ftDiff, uv := Zero3, Zero3, Zero3, Zero4;
    }

    function SinkOf(): Sink
      reads this
    {
      Sink(facesByTexture, builders)
    }

    function ScratchOf(): Scratch
      reads this
    {
      Scratch(from, to, ftDiff, uv)
    }

    function StateOf(): DecodeState
      reads this
    {
      DecodeState(builders, ScratchOf(), index)
    }

    /** The two `while` loops that grow `facesByTexture` and the builders
        to hold slot `texId`, then `facesByTexture.set(texId, get(texId) + 1)`,
        which throws for a negative slot. */
    method ClaimSlot(texId: int) returns (r: Outcome)
      modifies this`facesByTexture, this`builders
      ensures r == OutcomeOf(Claim(old(SinkOf()), texId))
      ensures r.Pass? ==> SinkOf() == Claim(old(SinkOf()), texId).value
    {
      ghost var f0, b0 := facesByTexture, builders;
      while texId >= |facesByTexture|
        invariant facesByTexture == Grow(f0, |facesByTexture|, 0)
        invariant |facesByTexture| == |f0| || |facesByTexture| <= texId + 1
        invariant builders == b0
        decreases texId - |facesByTexture|
      {
        GrowStep(f0, |facesByTexture|, 0);
        facesByTexture := facesByTexture + [0];
      }
      while texId >= |builders|
        invariant builders == Grow(b0, |builders|, [])
        invariant |builders| == |b0| || |builders| <= texId + 1
        invariant facesByTexture == Grow(f0, texId + 1, 0)
        decreases texId - |builders|
      {
        GrowStep(b0, |builders|, []);
        builders := builders + [[]];
      }
      if texId < 0 {
        return Fail("IndexOutOfBoundsException");
      }
      assert builders == Grow(b0, texId + 1, []);
      facesByTexture := facesByTexture[texId := facesByTexture[texId] + 1];
      return Pass;
    }

    /** The `for` loop of `readFace`: the four corners of face `d`, each
        with the UV corner `uvValues[(i + rotation) % 4]`, appended to
        builder `texId`; a negative index into `uvValues` throws. */
    method EmitFace(texId: nat, d: Direction, rotation: int) returns (r: Outcome)
      requires texId < |builders|
      modifies this`builders
      ensures r.Pass? <==> SlotsValid(rotation)
      ensures r.Fail? ==> r.msg == "ArrayIndexOutOfBoundsException"
      ensures r.Pass? ==> builders == old(builders)[texId := old(builders)[texId] + FaceVertices(from, ftDiff, uv, d, rotation)]
    {
      ghost var out: seq<Vertex> := [];
      assert builders[texId] + out == builders[texId];
      for i := 0 to 4
        invariant |out| == i
        invariant forall j :: 0 <= j < i ==> UvSlot(j, rotation) >= 0
        invariant forall j :: 0 <= j < i ==> out[j] == FaceVertex(from, ftDiff, uv, d, j, UvSlot(j, rotation))
        invariant builders == old(builders)[texId := old(builders)[texId] + out]
      {
        var slot := UvSlot(i, rotation);
        if slot < 0 {
          return Fail("ArrayIndexOutOfBoundsException");
        }
        var v := FaceVertex(from, ftDiff, uv, d, i, slot);
        assert builders[texId] + [v] == old(builders)[texId] + (out + [v]);
        builders := builders[texId := builders[texId] + [v]];
        out := out + [v];
      }
      assert out == FaceVertices(from, ftDiff, uv, d, rotation);
      return Pass;
    }

    /** `readFace(faces, facesByTexture, builders, direction)`. */
    method ReadFace(cube: Compound, d: Direction) returns (r: Outcome)
      modifies this`facesByTexture, this`builders, this`uv
      ensures r == OutcomeOf(FaceSpec(cube, d, old(SinkOf()), old(ScratchOf())))
      ensures r.Pass? ==> (SinkOf(), ScratchOf()) == FaceSpec(cube, d, old(SinkOf()), old(ScratchOf())).value
    {
      if Key(d) !in cube {
        return Pass;
      }
      var face := GetCompound(cube, Key(d));
      var texId := GetShort(face, "tex");
      r := ClaimSlot(texId);
      if r.Fail? {
        return;
      }
      var rotation := RotationSteps(GetFloat(face, "rot"));
      var read := ReadVec4(face, "uv", uv);
      if read.Err? {
        return Fail(read.msg);
      }
      uv := read.value;
      r := EmitFace(texId, d, rotation);
    }

    /** `readCuboid(facesByTexture, builders, data)`: `from` and `to` read
        (each keeps its old value for a list of an unhandled element type),
        inflated, `ftDiff` set to their difference, then the six faces of
        `cube_data` in the order of `faceData`. */
    method ReadCuboid(data: Compound) returns (r: Outcome)
      modifies this`facesByTexture, this`builders, this`from, this`to, this`ftDiff, this`uv
      ensures r == OutcomeOf(CuboidSpec(data, old(SinkOf()), old(ScratchOf())))
      ensures r.Pass? ==> (SinkOf(), ScratchOf()) == CuboidSpec(data, old(SinkOf()), old(ScratchOf())).value
    {
      var f := ReadVec3(data, "f", from);
      if f.Err? {
        return Fail(f.msg);
      }
      from := f.value;
      var t := ReadVec3(data, "t", to);
      if t.Err? {
        return Fail(t.msg);
      }
      to := t.value;
      var inflate := if "inf" in data then GetFloat(data, "inf") else 0.0;
      from := Shift(from, -inflate);
      to := Shift(to, inflate);
      ftDiff := Sub(to, from);
      assert ScratchOf() == CuboidBox(data, old(ScratchOf())).value;
      var cube := GetCompound(data, "cube_data");
      for j := 0 to |Directions|
        invariant FacesFrom(cube, j, SinkOf(), ScratchOf()) == CuboidSpec(data, old(SinkOf()), old(ScratchOf()))
      {
        r := ReadFace(cube, Directions[j]);
        if r.Fail? {
          return;
        }
      }
      return Pass;
    }

    /** The first inner loop of `readMeshRegular`: the `n` corners of the
        face starting at `vi` in `fac` and `uvi` in `uvs` read into `posArr`
        and `uvArr`. */
    method LoadFace(m: MeshLists, vi: int, uvi: int, n: nat, posArr: array<real>, uvArr: array<real>) returns (r: Outcome)
      requires posArr.Length == 12 && uvArr.Length == 8 && posArr != uvArr
      modifies posArr, uvArr
      ensures r == OutcomeOf(LoadCorners(m, vi, uvi, n, old(Corners(posArr[..], uvArr[..]))))
      ensures r.Pass? ==> Corners(posArr[..], uvArr[..]) == LoadCorners(m, vi, uvi, n, old(Corners(posArr[..], uvArr[..]))).value
    {
      ghost var c0 := Corners(posArr[..], uvArr[..]);
      for j := 0 to n
        invariant LoadCorners(m, vi, uvi, j, c0) == Ok(Corners(posArr[..], uvArr[..]))
      {
        var vid := VertexIndex(m, vi + j);
        if vid.Err? {
          LoadCornersStops(m, vi, uvi, j + 1, n, c0);
          return Fail(vid.msg);
        }
        if j >= 4 {
          LoadCornersStops(m, vi, uvi, j + 1, n, c0);
          return Fail("ArrayIndexOutOfBoundsException");
        }
        ghost var c := Corners(posArr[..], uvArr[..]);
        StoreCorner(m, vi, uvi, j, vid.value, posArr, uvArr);
        assert LoadCorners(m, vi, uvi, j + 1, c0) == LoadCorner(m, vi, uvi, j, c);
      }
      return Pass;
    }

    /** One iteration of that loop once corner `j`'s vertex index `vid` is
        read: its position and UV pair stored. */
    static method StoreCorner(m: MeshLists, vi: int, uvi: int, j: nat, vid: int, posArr: array<real>, uvArr: array<real>)
      requires posArr.Length == 12 && uvArr.Length == 8 && posArr != uvArr
      requires j < 4 && VertexIndex(m, vi + j) == Ok(vid)
      modifies posArr, uvArr
      ensures LoadCorner(m, vi, uvi, j, old(Corners(posArr[..], uvArr[..]))) == Ok(Corners(posArr[..], uvArr[..]))
    {
      var p := VertexPos(m, vid);
      posArr[3 * j] := p.x;
      posArr[3 * j + 1] := p.y;
      posArr[3 * j + 2] := p.z;
      uvArr[2 * j] := ListFloat(m.uvs, uvi + 2 * j);
      uvArr[2 * j + 1] := ListFloat(m.uvs, uvi + 2 * j + 1);
    }

    /** The second inner loop of `readMeshRegular` and the repeated third
        corner of a triangle: the face's vertices appended to builder
        `texId`. */
    method EmitMeshFace(texId: nat, n: nat, posArr: array<real>, uvArr: array<real>, normal: Vec3)
      requires posArr.Length == 12 && uvArr.Length == 8 && n <= 4
      requires texId < |builders|
      modifies this`builders
      ensures builders == old(builders)[texId := old(builders)[texId] + FaceOut(Corners(posArr[..], uvArr[..]), n, normal)]
    {
      ghost var c := Corners(posArr[..], uvArr[..]);
      ghost var vs := FaceOut(c, n, normal);
      assert builders[texId] + vs[..0] == builders[texId];
      for j := 0 to n
        invariant builders == old(builders)[texId := old(builders)[texId] + vs[..j]]
      {
        var v := Vertex(Vec3(posArr[3 * j], posArr[3 * j + 1], posArr[3 * j + 2]), uvArr[2 * j], uvArr[2 * j + 1], normal);
        assert v == vs[j];
        assert vs[..j] + [v] == vs[..j + 1];
        assert builders[texId] + [v] == old(builders)[texId] + (vs[..j] + [v]);
        builders := builders[texId := builders[texId] + [v]];
      }
      if n == 3 {
        var v := Vertex(Vec3(posArr[6], posArr[7], posArr[8]), uvArr[4], uvArr[5], normal);
        assert v == vs[3];
        assert vs[..3] + [v] == vs;
        assert builders[texId] + [v] == old(builders)[texId] + (vs[..3] + [v]);
        builders := builders[texId := builders[texId] + [v]];
      } else {
        assert vs[..n] == vs;
      }
    }

    /** The rest of one iteration of the outer loop of `readMeshRegular`,
        once the face has claimed slot `texId`: its corners loaded, its
        normal computed from the first three, its vertices emitted. */
    method LoadEmitFace(m: MeshLists, texId: nat, n: nat, vi: int, uvi: int, posArr: array<real>, uvArr: array<real>)
        returns (r: Outcome)
      requires posArr.Length == 12 && uvArr.Length == 8 && posArr != uvArr
      requires texId < |builders|
      modifies this`builders, posArr, uvArr
      ensures var load := LoadCorners(m, vi, uvi, n, old(Corners(posArr[..], uvArr[..])));
        && r == OutcomeOf(load)
        && (r.Pass? ==> var c := load.value;
              && Corners(posArr[..], uvArr[..]) == c
              && SinkOf() == Emit(old(SinkOf()), texId, FaceOut(c, n, env.normalOf(Point(c, 0), Point(c, 1), Point(c, 2)))))
    {
      r := LoadFace(m, vi, uvi, n, posArr, uvArr);
      if r.Fail? {
        return;
      }
      ghost var c := Corners(posArr[..], uvArr[..]);
      var normal := env.normalOf(Vec3(posArr[0], posArr[1], posArr[2]), Vec3(posArr[3], posArr[4], posArr[5]),
                                 Vec3(posArr[6], posArr[7], posArr[8]));
      assert normal == env.normalOf(Point(c, 0), Point(c, 1), Point(c, 2));
      EmitMeshFace(texId, n, posArr, uvArr, normal);
    }

    /** One iteration of the outer loop of `readMeshRegular`: face `ti`
        claims its slot, loads its corners and emits its vertices. */
    method ReadMeshFace(m: MeshLists, ti: nat, vi: int, uvi: int, posArr: array<real>, uvArr: array<real>)
        returns (r: Outcome, vi': int, uvi': int)
      requires posArr.Length == 12 && uvArr.Length == 8 && posArr != uvArr
      modifies this`facesByTexture, this`builders, posArr, uvArr
      ensures var s := old(MeshState(SinkOf(), Corners(posArr[..], uvArr[..]), vi, uvi));
        && r == OutcomeOf(MeshFace(m, env.normalOf, ti, s))
        && (r.Pass? ==> MeshFace(m, env.normalOf, ti, s) == Ok(MeshState(SinkOf(), Corners(posArr[..], uvArr[..]), vi', uvi')))
    {
      ghost var s := MeshState(SinkOf(), Corners(posArr[..], uvArr[..]), vi, uvi);
      MeshFaceErrors(m, env.normalOf, ti, s);
      var packed := ListShort(m.tex, ti);
      var texId, numVerts := packed / 16, packed % 16;
      vi', uvi' := vi + numVerts, uvi + 2 * numVerts;
      assert texId == TexIdOf(packed) && numVerts == VertsOf(packed);
      r := ClaimSlot(texId);
      if r.Fail? {
        return;
      }
      ghost var k1 := SinkOf();
      assert Claim(s.sink, texId) == Ok(k1);
      assert Corners(posArr[..], uvArr[..]) == s.corners;
      r := LoadEmitFace(m, texId, numVerts, vi, uvi, posArr, uvArr);
      if r.Pass? {
        ghost var c := LoadCorners(m, vi, uvi, numVerts, s.corners).value;
        ghost var normal := env.normalOf(Point(c, 0), Point(c, 1), Point(c, 2));
        assert Corners(posArr[..], uvArr[..]) == c;
        assert SinkOf() == Emit(k1, texId, FaceOut(c, numVerts, normal));
        MeshFaceLoaded(m, env.normalOf, ti, s, k1, c);
      }
    }

    /** `readMeshRegular(facesByTexture, builders, meshData)`. */
    method ReadMeshRegular(meshData: Compound) returns (r: Outcome)
      modifies this`facesByTexture, this`builders
      ensures r == OutcomeOf(MeshSpec(meshData, old(SinkOf()), env.normalOf))
      ensures r.Pass? ==> SinkOf() == MeshSpec(meshData, old(SinkOf()), env.normalOf).value
    {
      var m := ListsOf(meshData);
      var posArr := new real[12](_ => 0.0);
      var uvArr := new real[8](_ => 0.0);
      assert Corners(posArr[..], uvArr[..]) == FreshCorners;
      ghost var target := MeshFrom(m, env.normalOf, 0, MeshStart(old(SinkOf())));
      var vi, uvi := 0, 0;
      for ti := 0 to |m.tex|
        invariant MeshFrom(m, env.normalOf, ti, MeshState(SinkOf(), Corners(posArr[..], uvArr[..]), vi, uvi)) == target
      {
        ghost var s := MeshState(SinkOf(), Corners(posArr[..], uvArr[..]), vi, uvi);
        MeshFromFace(m, env.normalOf, ti, s);
        r, vi, uvi := ReadMeshFace(m, ti, vi, uvi, posArr, uvArr);
        if r.Fail? {
          return;
        }
      }
      return Pass;
    }

    /** The geometry part of `read`: a new, empty `facesByTexture`, then
        `readCuboid` when the part has cube data, else `readMesh` (which
        reads `mesh_data` with `readMeshRegular`) when it has mesh data. */
    method ReadGeometry(c: Compound) returns (r: Result<PartType>)
      modifies this`facesByTexture, this`builders, this`from, this`to, this`ftDiff, this`uv
      ensures match GeometryOf(c, env, old(StateOf()))
        case Ok((partType, k, sc)) => r == Ok(partType) && SinkOf() == k && ScratchOf() == sc
        case Err(e) => r == Err(e)
    {
      facesByTexture := [];
      if HasCubeData(c) {
        var o := ReadCuboid(c);
        if o.Fail? {
          return Err(o.msg);
        }
        return Ok(Cube);
      } else if HasMeshData(c) {
        var o := ReadMeshRegular(GetCompound(c, "mesh_data"));
        if o.Fail? {
          return Err(o.msg);
        }
        return Ok(Mesh);
      }
      return Ok(Group);
    }

    /** `read(partCompound, bufferBuilders, index, textureSets)`: the part
        and, on the way, its subtree's vertices in the builders, the
        scratch vectors as the last cuboid left them, and the counter past
        every part of the subtree with geometry. */
    method Read(c: Compound) returns (r: Result<PartData>)
      modifies this
      ensures match DecodePart(c, env, old(StateOf()))
        case Ok((p, st)) => r == Ok(p) && StateOf() == st
        case Err(e) => r == Err(e)
      decreases CompoundTag(c), 2
    {
      ghost var st0 := StateOf();
      DecodePartErrors(c, env, st0);
      var rot := ReadVec3(c, "rot", Zero3);
      if rot.Err? {
        return Err(rot.msg);
      }
      var pivot := ReadVec3(c, "piv", rot.value);
      if pivot.Err? {
        return Err(pivot.msg);
      }
      var primary := RenderTypeOf(c, "primary", env.renderTypes);
      var secondary := RenderTypeOf(c, "secondary", env.renderTypes);
      var visible := if "vsb" in c then Some(GetBoolean(c, "vsb")) else None;
      var partType := ReadGeometry(c);
      if partType.Err? {
        return Err(partType.msg);
      }
      var faces := facesByTexture;
      ghost var k, sc := SinkOf(), ScratchOf();
      assert GeometryOf(c, env, st0) == Ok((partType.value, k, sc));
      var newIndex: int := -1;
      if partType.value != Group {
        newIndex := index;
        index := index + 1;
      }
      DecodePartAfterGeometry(c, env, st0, rot.value, pivot.value, partType.value, k, sc);
      r := ReadRest(c, rot.value, pivot.value, primary, secondary, visible, partType.value, newIndex, faces);
    }

    /** The rest of `read` after the part's own geometry: the children, then
        `storeTexSize` with the faces and index of this part, then the `pt`
        key. */
    method ReadRest(c: Compound, rot: Vec3, pivot: Vec3, primary: Option<string>, secondary: Option<string>,
                    visible: Option<bool>, partType: PartType, newIndex: int, faces: seq<int>)
        returns (r: Result<PartData>)
      modifies this
      ensures match FinishPart(c, env, rot, pivot, primary, secondary, visible, partType, newIndex, faces, old(StateOf()))
        case Ok((p, st)) => r == Ok(p) && StateOf() == st
        case Err(e) => r == Err(e)
      decreases CompoundTag(c), 1
    {
      var children := ReadChildren(c);
      if children.Err? {
        return Err(children.msg);
      }
      var size := StoreTexSize(Sizes(children.value), newIndex, faces, env.textures);
      if size.Err? {
        return Err(size.msg);
      }
      var parentType := ParentTypeOf(c);
      if parentType.Err? {
        return Err(parentType.msg);
      }
      return Ok(PartData(GetString(c, "name"), rot, pivot, primary, secondary, visible,
                         partType, newIndex, faces, children.value, size.value, parentType.value));
    }

    /** The children loop of `read`: each element of `chld` cast to a
        compound and read in turn. */
    method ReadChildren(c: Compound) returns (r: Result<seq<PartData>>)
      modifies this
      ensures match DecodeChildren(c, 0, env, old(StateOf()), [])
        case Ok((ps, st)) => r == Ok(ps) && StateOf() == st
        case Err(e) => r == Err(e)
      decreases CompoundTag(c), 0
    {
      var items := ChildItems(c);
      var acc := [];
      for i := 0 to |items|
        invariant DecodeChildren(c, i, env, StateOf(), acc) == DecodeChildren(c, 0, env, old(StateOf()), [])
      {
        if !items[i].CompoundTag? {
          return Err("ClassCastException");
        }
        assert items[i] in c["chld"].items;
        var child := Read(items[i].entries);
        if child.Err? {
          return Err(child.msg);
        }
        acc := acc + [child.value];
      }
      return Ok(acc);
    }
  }
}

/** `FiguraModelPart.read`: a part compound decoded, with its children,
    into a tree of parts. Decoding threads three pieces of shared state
    through the whole tree, in pre-order: the avatar's vertex builders, the
    static scratch vectors of the cuboid reader, and the counter `index[0]`
    that numbers the parts carrying geometry. The functions here state the
    result; `PartReading.PartReader.Read` computes it in place. */
module PartDecoder {
  import opened Wrappers
  import opened Nbt
  import opened Geometry
  import opened NbtVectors
  import opened Cuboids
  import opened Meshes
  import opened TextureSizes
  import ParentTypes

  /** `PartCustomization.PartType`. */
  datatype PartType = Group | Cube | Mesh

  /** A decoded part: its name, the transform and render settings it reads
      into its customization (`None` for a render type it leaves unset), its
      geometry, its children, and what `storeTexSize` and the `pt` key give
      it. */
  datatype PartData = PartData(
    name: string,
    rot: Vec3,
    pivot: Vec3,
    primary: Option<string>,
    secondary: Option<string>,
    visible: Option<bool>,
    partType: PartType,
    index: int,
    facesByTexture: seq<int>,
    children: seq<PartData>,
    texSize: (int, int),
    parentType: ParentTypes.ParentType)

  /** What the decoder reads but never changes: the size of each texture
      set, the names `FiguraTextureSet.RenderTypes.valueOf` accepts, and the
      mesh normal (floating-point vector arithmetic, left a parameter). */
  datatype Env = Env(textures: seq<(int, int)>, renderTypes: set<string>, normalOf: NormalFn)

  /** The state shared by the whole decode: the builders, the cuboid
      scratch vectors and the next geometry index. */
  datatype DecodeState = DecodeState(builders: seq<seq<Vertex>>, scratch: Scratch, index: nat)

  /** The children of a part compound: `getList("chld", TAG_COMPOUND)`. */
  function ChildItems(c: Compound): seq<Tag> {
    GetList(c, "chld", TAG_COMPOUND).items
  }

  /** A render type read from `key`: set when the key is present and its
      string names a render type; `valueOf` failing is caught and leaves
      it unset. */
  function RenderTypeOf(c: Compound, key: string, renderTypes: set<string>): (r: Option<string>)
    ensures r.Some? <==> key in c && GetString(c, key) in renderTypes
    ensures r.Some? ==> r.value == GetString(c, key)
  {
    if key in c && GetString(c, key) in renderTypes then Some(GetString(c, key)) else None
  }

  /** The geometry of a part: a cuboid when `cube_data` is a non-empty
      compound, else a mesh when `mesh_data` is, else none. The part's face
      counts start from a new empty list; the builders are shared. */
  function GeometryOf(c: Compound, env: Env, st: DecodeState): Result<(PartType, Sink, Scratch)> {
    var k := Sink([], st.builders);
    if HasCubeData(c) then
      match CuboidSpec(c, k, st.scratch)
      case Err(e) => Err(e)
      case Ok((k', sc)) => Ok((Cube, k', sc))
    else if HasMeshData(c) then
      match MeshSpec(GetCompound(c, "mesh_data"), k, env.normalOf)
      case Err(e) => Err(e)
      case Ok(k') => Ok((Mesh, k', st.scratch))
    else Ok((Group, k, st.scratch))
  }

  /** `pt`: `ParentType.valueOf`, which throws for a name that is not a
      constant's; `None` when the key is absent. */
  function ParentTypeOf(c: Compound): Result<ParentTypes.ParentType> {
    if "pt" in c then ParentTypes.ValueOf(GetString(c, "pt")) else Ok(ParentTypes.None)
  }

  /** The sizes the children report. */
  function Sizes(ps: seq<PartData>): (s: seq<(int, int)>)
    ensures |s| == |ps| && forall i :: 0 <= i < |ps| ==> s[i] == ps[i].texSize
  {
    seq(|ps|, i requires 0 <= i < |ps| => ps[i].texSize)
  }

  /** `read(partCompound, bufferBuilders, index, textureSets)`. */
  function DecodePart(c: Compound, env: Env, st: DecodeState): Result<(PartData, DecodeState)>
    decreases CompoundTag(c), 2
  {
    match ReadVec3(c, "rot", Zero3)
    case Err(e) => Err(e)
    case Ok(rot) =>
      match ReadVec3(c, "piv", rot)
      case Err(e) => Err(e)
      case Ok(pivot) =>
        var primary := RenderTypeOf(c, "primary", env.renderTypes);
        var secondary := RenderTypeOf(c, "secondary", env.renderTypes);
        var visible := if "vsb" in c then Some(GetBoolean(c, "vsb")) else None;
        match GeometryOf(c, env, st)
        case Err(e) => Err(e)
        case Ok((partType, k, sc)) =>
          var index := if partType == Group then -1 else st.index as int;
          var st1 := DecodeState(k.builders, sc, if partType == Group then st.index else st.index + 1);
          FinishPart(c, env, rot, pivot, primary, secondary, visible, partType, index, k.facesByTexture, st1)
  }

  /** The rest of `read` once the part's own geometry is read and numbered:
      its children, from the state `st` they start in, then `storeTexSize`
      and the `pt` key. */
  function FinishPart(c: Compound, env: Env, rot: Vec3, pivot: Vec3, primary: Option<string>, secondary: Option<string>,
                      visible: Option<bool>, partType: PartType, index: int, faces: seq<int>, st: DecodeState)
    : Result<(PartData, DecodeState)>
    decreases CompoundTag(c), 1
  {
    match DecodeChildren(c, 0, env, st, [])
    case Err(e) => Err(e)
    case Ok((children, st2)) =>
      match TexSizeOf(Sizes(children), index, faces, env.textures)
      case Err(e) => Err(e)
      case Ok(size) =>
        match ParentTypeOf(c)
        case Err(e) => Err(e)
        case Ok(parentType) =>
          var p := PartData(GetString(c, "name"), rot, pivot, primary, secondary,
                            visible, partType, index, faces, children, size, parentType);
          Ok((p, st2))
  }

  /** The loop over the children of `parent` from child `i` on, `acc` the
      children read so far; an element that is not a compound fails the
      cast `(CompoundTag) tag`. */
  function DecodeChildren(parent: Compound, i: nat, env: Env, st: DecodeState, acc: seq<PartData>): Result<(seq<PartData>, DecodeState)>
    requires i <= |ChildItems(parent)|
    decreases CompoundTag(parent), 0, |ChildItems(parent)| - i
  {
    var items := ChildItems(parent);
    if i == |items| then Ok((acc, st))
    else if !items[i].CompoundTag? then Err("ClassCastException")
    else
      assert items[i] in parent["chld"].items;
      match DecodePart(items[i].entries, env, st)
      case Err(e) => Err(e)
      case Ok((p, st1)) => DecodeChildren(parent, i + 1, env, st1, acc + [p])
  }

  // ---- geometry indices ----

  /** The geometry indices of a tree in pre-order, parent before children,
      leaving out the -1 of parts without geometry. */
  function GeomIndices(p: PartData): seq<int>
    decreases p, 1
  {
    (if p.index != -1 then [p.index] else []) + GeomIndicesOf(p.children)
  }

  function GeomIndicesOf(ps: seq<PartData>): seq<int>
    decreases ps, 0
  {
    if ps == [] then [] else GeomIndices(ps[0]) + GeomIndicesOf(ps[1..])
  }

  /** `s` is `lo, lo + 1, ..., hi - 1`. */
  predicate Consecutive(s: seq<int>, lo: int, hi: int) {
    |s| == hi - lo && forall j :: 0 <= j < |s| ==> s[j] == lo + j
  }

  lemma ConsecutiveJoin(a: seq<int>, b: seq<int>, lo: int, mid: int, hi: int)
    requires Consecutive(a, lo, mid) && Consecutive(b, mid, hi)
    ensures Consecutive(a + b, lo, hi)
  {
  }

  /** Decoding `c` from `st` gives the part `p` and leaves the state `st'`. */
  ghost predicate PartGives(c: Compound, env: Env, st: DecodeState, p: PartData, st': DecodeState) {
    DecodePart(c, env, st) == Ok((p, st'))
  }

  /** Decoding the children of `parent` from child `i` on, after `acc`,
      gives `ps` and leaves the state `st'`. */
  ghost predicate ChildrenGive(parent: Compound, i: nat, env: Env, st: DecodeState, acc: seq<PartData>,
                               ps: seq<PartData>, st': DecodeState) {
    i <= |ChildItems(parent)| && DecodeChildren(parent, i, env, st, acc) == Ok((ps, st'))
  }

  /** A decoded part, taken apart: its type comes from its data, it is
      numbered when it has geometry, and its children are decoded from the
      state after its own geometry. */
  lemma DecodePartSplit(c: Compound, env: Env, st: DecodeState, p: PartData, st': DecodeState)
    returns (st1: DecodeState)
    requires PartGives(c, env, st, p, st')
    ensures p.partType == Cube <==> HasCubeData(c)
    ensures p.partType == Mesh <==> !HasCubeData(c) && HasMeshData(c)
    ensures p.index == if p.partType == Group then -1 else st.index as int
    ensures st1.index == if p.partType == Group then st.index else st.index + 1
    ensures ChildrenGive(c, 0, env, st1, [], p.children, st')
  {
    var rot := ReadVec3(c, "rot", Zero3).value;
    var pivot := ReadVec3(c, "piv", rot).value;
    var primary, secondary := RenderTypeOf(c, "primary", env.renderTypes), RenderTypeOf(c, "secondary", env.renderTypes);
    var visible := if "vsb" in c then Some(GetBoolean(c, "vsb")) else None;
    var (partType, k, sc) := GeometryOf(c, env, st).value;
    var index := if partType == Group then -1 else st.index as int;
    st1 := DecodeState(k.builders, sc, if partType == Group then st.index else st.index + 1);
    FinishPartSplit(c, env, rot, pivot, primary, secondary, visible, partType, index, k.facesByTexture, st1);
  }

  /** `DecodePart` fails with the first of the rotation, the pivot and the
      geometry that fails. */
  lemma DecodePartErrors(c: Compound, env: Env, st: DecodeState)
    ensures var rot := ReadVec3(c, "rot", Zero3);
      rot.Err? ==> DecodePart(c, env, st) == Err(rot.msg)
    ensures var rot := ReadVec3(c, "rot", Zero3);
      rot.Ok? && ReadVec3(c, "piv", rot.value).Err? ==> DecodePart(c, env, st) == Err(ReadVec3(c, "piv", rot.value).msg)
    ensures var rot := ReadVec3(c, "rot", Zero3);
      rot.Ok? && ReadVec3(c, "piv", rot.value).Ok? && GeometryOf(c, env, st).Err? ==> DecodePart(c, env, st) == Err(GeometryOf(c, env, st).msg)
  {
  }

  /** Once the vectors and the geometry of a part are read, the rest of
      `DecodePart` is `FinishPart` from the numbered state. */
  lemma DecodePartAfterGeometry(c: Compound, env: Env, st: DecodeState, rot: Vec3, pivot: Vec3,
                                partType: PartType, k: Sink, sc: Scratch)
    requires ReadVec3(c, "rot", Zero3) == Ok(rot) && ReadVec3(c, "piv", rot) == Ok(pivot)
    requires GeometryOf(c, env, st) == Ok((partType, k, sc))
    ensures DecodePart(c, env, st)
         == FinishPart(c, env, rot, pivot, RenderTypeOf(c, "primary", env.renderTypes),
                       RenderTypeOf(c, "secondary", env.renderTypes),
                       if "vsb" in c then Some(GetBoolean(c, "vsb")) else None, partType,
                       if partType == Group then -1 else st.index as int, k.facesByTexture,
                       DecodeState(k.builders, sc, if partType == Group then st.index else st.index + 1))
  {
  }

  /** The part `FinishPart` builds keeps the type and index it is given and
      holds the children decoded from the state it is given. */
  lemma FinishPartSplit(c: Compound, env: Env, rot: Vec3, pivot: Vec3, primary: Option<string>, secondary: Option<string>,
                        visible: Option<bool>, partType: PartType, index: int, faces: seq<int>, st: DecodeState)
    requires FinishPart(c, env, rot, pivot, primary, secondary, visible, partType, index, faces, st).Ok?
    ensures var (p, st') := FinishPart(c, env, rot, pivot, primary, secondary, visible, partType, index, faces, st).value;
      && p.partType == partType && p.index == index
      && DecodeChildren(c, 0, env, st, []) == Ok((p.children, st'))
  {
  }

  /** A part decoded successfully is a cuboid when it has cube data, else a
      mesh when it has mesh data, else a group; exactly its geometry gives
      it an index; and the geometry indices of its subtree, in pre-order,
      are the counter's values from where it started to where it ends. */
  lemma {:induction false} DecodeNumbersPreOrder(c: Compound, env: Env, st: DecodeState, p: PartData, st': DecodeState)
    requires PartGives(c, env, st, p, st')
    ensures p.partType == Cube <==> HasCubeData(c)
    ensures p.partType == Mesh <==> !HasCubeData(c) && HasMeshData(c)
    ensures p.index == -1 <==> p.partType == Group
    ensures p.index != -1 ==> p.index == st.index
    ensures Consecutive(GeomIndices(p), st.index, st'.index)
    decreases CompoundTag(c), 1
  {
    var st1 := DecodePartSplit(c, env, st, p, st');
    DecodeChildrenNumbers(c, 0, env, st1, [], p.children, st');
    assert p.children[0..] == p.children;
    var own := if p.index != -1 then [p.index] else [];
    ConsecutiveJoin(own, GeomIndicesOf(p.children), st.index, st1.index, st'.index);
  }

  /** One successful step of the children's loop. */
  lemma DecodeChildrenStep(parent: Compound, i: nat, env: Env, st: DecodeState, acc: seq<PartData>)
    requires i < |ChildItems(parent)|
    requires DecodeChildren(parent, i, env, st, acc).Ok?
    ensures ChildItems(parent)[i].CompoundTag?
    ensures CompoundTag(ChildItems(parent)[i].entries) < CompoundTag(parent)
    ensures DecodePart(ChildItems(parent)[i].entries, env, st).Ok?
    ensures var (p, st1) := DecodePart(ChildItems(parent)[i].entries, env, st).value;
      DecodeChildren(parent, i, env, st, acc) == DecodeChildren(parent, i + 1, env, st1, acc + [p])
  {
    assert ChildItems(parent)[i] in parent["chld"].items;
  }

  /** Pre-order indices of `acc + [p] + rest` split at `acc`. */
  lemma SplitAfter(ps: seq<PartData>, acc: seq<PartData>, p: PartData)
    requires |acc| < |ps| && ps[..|acc| + 1] == acc + [p]
    ensures GeomIndicesOf(ps[|acc|..]) == GeomIndices(p) + GeomIndicesOf(ps[|acc| + 1..])
  {
    assert ps[|acc|..][1..] == ps[|acc| + 1..];
    assert ps[|acc|..][0] == p;
  }

  /** Child `p` numbered from `lo` to `mid`, followed by children numbered
      from `mid` to `hi`: all of them numbered from `lo` to `hi`. */
  lemma ChildNumbersJoin(acc: seq<PartData>, p: PartData, ps: seq<PartData>, lo: int, mid: int, hi: int)
    requires Consecutive(GeomIndices(p), lo, mid)
    requires |acc| + 1 <= |ps| && ps[..|acc| + 1] == acc + [p]
    requires Consecutive(GeomIndicesOf(ps[|acc| + 1..]), mid, hi)
    ensures |acc| <= |ps| && ps[..|acc|] == acc
    ensures Consecutive(GeomIndicesOf(ps[|acc|..]), lo, hi)
  {
    assert ps[..|acc|] == (acc + [p])[..|acc|];
    SplitAfter(ps, acc, p);
    ConsecutiveJoin(GeomIndices(p), GeomIndicesOf(ps[|acc| + 1..]), lo, mid, hi);
  }

  /** The children read from child `i` on are numbered consecutively from
      the counter's value at child `i`. */
  lemma {:induction false} DecodeChildrenNumbers(parent: Compound, i: nat, env: Env, st: DecodeState, acc: seq<PartData>,
                                                 ps: seq<PartData>, st': DecodeState)
    requires ChildrenGive(parent, i, env, st, acc, ps, st')
    ensures |acc| <= |ps| && ps[..|acc|] == acc
    ensures Consecutive(GeomIndicesOf(ps[|acc|..]), st.index, st'.index)
    decreases CompoundTag(parent), 0, |ChildItems(parent)| - i
  {
    if i < |ChildItems(parent)| {
      var c, p, st1 := ChildGives(parent, i, env, st, acc, ps, st');
      DecodeNumbersPreOrder(c, env, st, p, st1);
      DecodeChildrenNumbers(parent, i + 1, env, st1, acc + [p], ps, st');
      ChildNumbersJoin(acc, p, ps, st.index, st1.index, st'.index);
    } else {
      ChildrenEnd(parent, i, env, st, acc, ps, st');
      assert ps[|acc|..] == [];
    }
  }

  /** `DecodeChildrenStep`, on given results. */
  lemma ChildGives(parent: Compound, i: nat, env: Env, st: DecodeState, acc: seq<PartData>, ps: seq<PartData>, st': DecodeState)
    returns (c: Compound, p: PartData, st1: DecodeState)
    requires i < |ChildItems(parent)| && ChildrenGive(parent, i, env, st, acc, ps, st')
    ensures CompoundTag(c) < CompoundTag(parent)
    ensures PartGives(c, env, st, p, st1) && ChildrenGive(parent, i + 1, env, st1, acc + [p], ps, st')
  {
    DecodeChildrenStep(parent, i, env, st, acc);
    c := ChildItems(parent)[i].entries;
    p, st1 := DecodePart(c, env, st).value.0, DecodePart(c, env, st).value.1;
  }

  /** Past the last child, the children read are those read before. */
  lemma ChildrenEnd(parent: Compound, i: nat, env: Env, st: DecodeState, acc: seq<PartData>, ps: seq<PartData>, st': DecodeState)
    requires i == |ChildItems(parent)| && ChildrenGive(parent, i, env, st, acc, ps, st')
    ensures ps == acc && st' == st
  {
  }

  /** Decoding a whole model from the counter at 0 numbers its parts with
      geometry 0, 1, 2, ... in pre-order. */
  lemma DecodeFromZero(c: Compound, env: Env, builders: seq<seq<Vertex>>, sc: Scratch)
    requires DecodePart(c, env, DecodeState(builders, sc, 0)).Ok?
    ensures var (p, st') := DecodePart(c, env, DecodeState(builders, sc, 0)).value;
      forall j :: 0 <= j < |GeomIndices(p)| ==> GeomIndices(p)[j] == j
  {
    var (p, st') := DecodePart(c, env, DecodeState(builders, sc, 0)).value;
    DecodeNumbersPreOrder(c, env, DecodeState(builders, sc, 0), p, st');
  }

  // ---- transform and settings ----

  /** The pivot is read into the vector that already holds the rotation:
      without `piv` it is zero, and a `piv` list of an element type the
      reader does not handle leaves it equal to the rotation. The render
      types are set exactly when their names are valid. */
  lemma DecodedSettings(c: Compound, env: Env, st: DecodeState)
    requires DecodePart(c, env, st).Ok?
    ensures var p := DecodePart(c, env, st).value.0;
      && ("piv" !in c ==> p.pivot == Zero3)
      && ("piv" in c && c["piv"].ListTag? && !Handled(c["piv"]) ==> p.pivot == p.rot)
      && ("rot" !in c ==> p.rot == Zero3)
      && (p.primary.Some? <==> "primary" in c && GetString(c, "primary") in env.renderTypes)
      && (p.secondary.Some? <==> "secondary" in c && GetString(c, "secondary") in env.renderTypes)
      && (p.visible.Some? <==> "vsb" in c)
      && ("pt" in c ==> ParentTypes.Name(p.parentType) == GetString(c, "pt"))
      && ("pt" !in c ==> p.parentType == ParentTypes.None)
  {
  }

  /** A `pt` naming no constant makes the whole decode fail. */
  lemma BadParentTypeFails(c: Compound, env: Env, st: DecodeState)
    requires "pt" in c && forall t :: ParentTypes.Name(t) != GetString(c, "pt")
    ensures DecodePart(c, env, st).Err?
  {
  }

  // ---- texture sizes ----

  /** Every size in the tree is either `(-1, -1)` or free of -1. */
  predicate SizesPaired(p: PartData)
    decreases p
  {
    && Paired(p.texSize)
    && forall i :: 0 <= i < |p.children| ==> SizesPaired(p.children[i])
  }

  /** With texture sets of real sizes, every part of a decoded tree reports
      either no size or a full one. */
  lemma {:induction false} DecodedSizesPaired(c: Compound, env: Env, st: DecodeState)
    requires RealSizes(env.textures)
    requires DecodePart(c, env, st).Ok?
    ensures SizesPaired(DecodePart(c, env, st).value.0)
    decreases CompoundTag(c), 1
  {
    var (partType, k, sc) := GeometryOf(c, env, st).value;
    var index := if partType == Group then -1 else st.index as int;
    var st1 := DecodeState(k.builders, sc, if partType == Group then st.index else st.index + 1);
    DecodeChildrenPaired(c, 0, env, st1, []);
    var children := DecodeChildren(c, 0, env, st1, []).value.0;
    assert AllPaired(Sizes(children));
    TexSizePaired(Sizes(children), index, k.facesByTexture, env.textures);
  }

  lemma {:induction false} DecodeChildrenPaired(parent: Compound, i: nat, env: Env, st: DecodeState, acc: seq<PartData>)
    requires RealSizes(env.textures)
    requires i <= |ChildItems(parent)|
    requires forall j :: 0 <= j < |acc| ==> SizesPaired(acc[j])
    requires DecodeChildren(parent, i, env, st, acc).Ok?
    ensures var ps := DecodeChildren(parent, i, env, st, acc).value.0;
      forall j :: 0 <= j < |ps| ==> SizesPaired(ps[j])
    decreases CompoundTag(parent), 0, |ChildItems(parent)| - i
  {
    if i < |ChildItems(parent)| {
      DecodeChildrenStep(parent, i, env, st, acc);
      var c := ChildItems(parent)[i].entries;
      DecodedSizesPaired(c, env, st);
      var (p, st1) := DecodePart(c, env, st).value;
      DecodeChildrenPaired(parent, i + 1, env, st1, acc + [p]);
    }
  }

  /** A decoded part with a size of its own shares it with all of its
      children and with the one texture set it draws from. */
  lemma DecodedSizeShared(c: Compound, env: Env, st: DecodeState)
    requires RealSizes(env.textures)
    requires DecodePart(c, env, st).Ok?
    requires DecodePart(c, env, st).value.0.texSize.0 != -1
    ensures var p := DecodePart(c, env, st).value.0;
      && (forall i :: 0 <= i < |p.children| ==> p.children[i].texSize == p.texSize)
      && (p.partType != Group ==>
            forall j :: 0 <= j < |p.facesByTexture| && p.facesByTexture[j] > 0 ==>
              j < |env.textures| && env.textures[j] == p.texSize)
  {
    DecodedSizesPaired(c, env, st);
    var p := DecodePart(c, env, st).value.0;
    assert AllPaired(Sizes(p.children));
    ReportedSizeIsShared(Sizes(p.children), p.index, p.facesByTexture, env.textures, p.texSize.0, p.texSize.1);
  }
}

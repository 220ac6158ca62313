/** A decoded `FiguraModelPart` as scripts and the renderer see it: its
    place in the part tree, the visibility it inherits from its ancestors,
    the child lookup with its cache, the render budget walk, the setters
    scripts call with their error messages, and the vanilla transforms it
    copies from the game's model onto its customization. */
module ModelParts {
  import opened Wrappers
  import opened Geometry
  import opened RenderBudget
  import ParentTypes
  import PartDecoder

  // ---------------------------------------------------------------------
  // The game's side of the vanilla transforms
  // ---------------------------------------------------------------------

  /** A part of the game's own entity model: its position and its rotation
      angles in radians. */
  datatype VanillaPart = VanillaPart(x: real, y: real, z: real, xRot: real, yRot: real, zRot: real)

  /** The game's entity model, as far as `applyVanillaTransforms` tells its
      kinds apart. */
  datatype EntityModel =
    | Humanoid(head: VanillaPart, body: VanillaPart, leftArm: VanillaPart,
               rightArm: VanillaPart, leftLeg: VanillaPart, rightLeg: VanillaPart)
    | Elytra(leftWing: VanillaPart, rightWing: VanillaPart)
    | OtherModel

  /** A call made on the part's `PartCustomization`, whose own code is not
      part of this model. */
  datatype CustomizationCall =
    | SetBonusPivot(v: Vec3)
    | SetBonusPos(v: Vec3)
    | SetBonusRot(v: Vec3)

  /** The two switches of `applyVanillaTransforms`: the game part a parent
      type follows in this kind of model, `null` for any other. */
  function PartFor(model: EntityModel, pt: ParentTypes.ParentType): (r: Option<VanillaPart>)
    ensures r.Some? <==>
      || (model.Humanoid? && pt in {ParentTypes.Head, ParentTypes.Body, ParentTypes.LeftArm,
                                    ParentTypes.RightArm, ParentTypes.LeftLeg, ParentTypes.RightLeg})
      || (model.Elytra? && pt in {ParentTypes.LeftElytra, ParentTypes.RightElytra})
  {
    match model
    case Humanoid(head, body, leftArm, rightArm, leftLeg, rightLeg) =>
      (match pt
       case Head => Some(head)
       case Body => Some(body)
       case LeftArm => Some(leftArm)
       case RightArm => Some(rightArm)
       case LeftLeg => Some(leftLeg)
       case RightLeg => Some(rightLeg)
       case _ => None)
    case Elytra(leftWing, rightWing) =>
      (match pt
       case LeftElytra => Some(leftWing)
       case RightElytra => Some(rightWing)
       case _ => None)
    case OtherModel => None
  }

  /** The pivot `applyVanillaTransform` derives: the game's offset for the
      parent type less the game part's position, with z mirrored. */
  function DefaultPivot(offset: Vec3, part: VanillaPart): Vec3 {
    Mul(Sub(offset, Vec3(part.x, part.y, part.z)), Vec3(1.0, 1.0, -1.0))
  }

  /** The calls `applyVanillaTransform` makes for a game part; `offset` is
      what `VanillaPartOffsetManager.getVanillaOffset` returns and `degrees`
      stands for `Math.toDegrees`. */
  function TransformCalls(offset: Vec3, part: VanillaPart, degrees: real -> real): seq<CustomizationCall> {
    var pivot := DefaultPivot(offset, part);
    [SetBonusPivot(pivot), SetBonusPos(pivot),
     SetBonusRot(Vec3(degrees(-part.xRot), degrees(-part.yRot), degrees(part.zRot)))]
  }

  /** The calls `resetVanillaTransforms` makes on a vanilla-parented part. */
  const ResetCalls: seq<CustomizationCall> :=
    [SetBonusPivot(Zero3), SetBonusPos(Zero3), SetBonusRot(Zero3)]

  /** The kinds of bonus a call sets: 0 pivot, 1 position, 2 rotation. */
  function Kind(c: CustomizationCall): nat {
    match c
    case SetBonusPivot(_) => 0
    case SetBonusPos(_) => 1
    case SetBonusRot(_) => 2
  }

  /** The value the last call of a kind set, if any: what the customization
      holds for that bonus after the calls. */
  function Latest(calls: seq<CustomizationCall>, kind: nat): (r: Option<Vec3>)
    ensures r.Some? <==> exists i :: 0 <= i < |calls| && Kind(calls[i]) == kind
  {
    if calls == [] then None
    else if Kind(calls[|calls| - 1]) == kind then Some(calls[|calls| - 1].v)
    else
      var r := Latest(calls[..|calls| - 1], kind);
      assert forall i :: 0 <= i < |calls| - 1 ==> calls[..|calls| - 1][i] == calls[i];
      r
  }

  /** Later calls win: the latest value after `a + b` is `b`'s when `b` sets
      that kind at all, and `a`'s otherwise. */
  lemma {:induction false} LatestAppend(a: seq<CustomizationCall>, b: seq<CustomizationCall>, kind: nat)
    ensures Latest(a + b, kind) == if Latest(b, kind).Some? then Latest(b, kind) else Latest(a, kind)
    decreases |b|
  {
    if b != [] {
      var b' := b[..|b| - 1];
      assert (a + b)[..|a + b| - 1] == a + b';
      assert (a + b)[|a + b| - 1] == b[|b| - 1];
      LatestAppend(a, b', kind);
    } else {
      assert a + b == a;
    }
  }

  // ---------------------------------------------------------------------
  // The parent chain and visibility
  // ---------------------------------------------------------------------

  /** `chain` lists a part and its ancestors, each the `parent` of the one
      before, ending at a root. */
  ghost predicate ParentChain(chain: seq<ModelPart>)
    reads chain
  {
    && |chain| > 0
    && (forall i :: 0 <= i < |chain| - 1 ==> chain[i].parent == chain[i + 1])
    && chain[|chain| - 1].parent == null
  }

  /** The visibility of the first part in `chain` whose visibility is set,
      `true` when none is. */
  ghost function VisibleOf(chain: seq<ModelPart>): bool
    reads chain
  {
    if chain == [] then true
    else if chain[0].visible.Some? then chain[0].visible.value
    else VisibleOf(chain[1..])
  }

  /** A part shows what the nearest part with a set visibility says, itself
      first and then its ancestors outward, and shows when none is set. */
  lemma {:induction false} VisibleIsNearest(chain: seq<ModelPart>, k: nat)
    requires k <= |chain|
    requires forall j :: 0 <= j < k ==> chain[j].visible.None?
    ensures k == |chain| ==> VisibleOf(chain)
    ensures k < |chain| && chain[k].visible.Some? ==> VisibleOf(chain) == chain[k].visible.value
  {
    if k > 0 {
      VisibleIsNearest(chain[1..], k - 1);
    }
  }

  /** Resetting a part's visibility makes it follow its parent, or show
      when it is a root. */
  lemma ResetFollowsParent(chain: seq<ModelPart>)
    requires ParentChain(chain) && chain[0].visible.None?
    ensures |chain| == 1 ==> VisibleOf(chain)
    ensures |chain| > 1 ==> VisibleOf(chain) == VisibleOf(chain[1..])
  {
    assert VisibleOf(chain) == VisibleOf(chain[1..]);
  }

  /** The first part in `parts` with the name, if any. */
  function FirstNamed(parts: seq<ModelPart>, key: string): (r: Option<ModelPart>)
    ensures r.None? <==> forall i :: 0 <= i < |parts| ==> parts[i].name != key
    ensures r.Some? ==> r.value in parts && r.value.name == key
  {
    if parts == [] then None
    else if parts[0].name == key then Some(parts[0])
    else
      assert forall i :: 1 <= i < |parts| ==> parts[1..][i - 1] == parts[i];
      FirstNamed(parts[1..], key)
  }

  /** The lookup finds the child at the first position with the name. */
  lemma {:induction false} FirstNamedIsFirst(parts: seq<ModelPart>, key: string, i: nat)
    requires i < |parts| && parts[i].name == key
    requires forall j :: 0 <= j < i ==> parts[j].name != key
    ensures FirstNamed(parts, key) == Some(parts[i])
  {
    if i > 0 {
      assert parts[1..][i - 1] == parts[i];
      FirstNamedIsFirst(parts[1..], key, i - 1);
    }
  }

  // ---------------------------------------------------------------------
  // FiguraModelPart
  // ---------------------------------------------------------------------

  class ModelPart {
    const name: string
    var parent: ModelPart?
    const index: int
    const children: seq<ModelPart>
    /** `__index`'s cache: `None` stands for a cached `null`. */
    var childCache: map<string, Option<ModelPart>>
    var parentType: ParentTypes.ParentType
    var facesByTexture: seq<int>
    var textureWidth: int
    var textureHeight: int
    /** The customization's `visible`, `null` when unset. */
    var visible: Option<bool>
    var primaryRenderType: Option<string>
    var secondaryRenderType: Option<string>
    /** The bonus setters called on the customization so far, in order. */
    var customizationCalls: seq<CustomizationCall>

    /** The private constructor, which makes the part the parent of each of
        its children, followed by what `read` assigns to the new part: its
        face counts, its texture size and its parent type. */
    constructor (d: PartDecoder.PartData, children: seq<ModelPart>)
      modifies children`parent
      ensures name == d.name && index == d.index && this.children == children
      ensures forall i :: 0 <= i < |children| ==> children[i].parent == this
      ensures parent == null && childCache == map[]
      ensures parentType == d.parentType && facesByTexture == d.facesByTexture
      ensures (textureWidth, textureHeight) == d.texSize
      ensures visible == d.visible
      ensures primaryRenderType == d.primary && secondaryRenderType == d.secondary
      ensures customizationCalls == []
    {
      name := d.name;
      index := d.index;
      this.children := children;
      parent := null;
      childCache := map[];
      parentType := d.parentType;
      facesByTexture := d.facesByTexture;
      textureWidth := d.texSize.0;
      textureHeight := d.texSize.1;
      visible := d.visible;
      primaryRenderType := d.primary;
      secondaryRenderType := d.secondary;
      customizationCalls := [];
      new;
      for i := 0 to |children|
        invariant forall j :: 0 <= j < i ==> children[j].parent == this
        invariant parent == null && childCache == map[] && customizationCalls == []
        invariant parentType == d.parentType && facesByTexture == d.facesByTexture
        invariant (textureWidth, textureHeight) == d.texSize && visible == d.visible
        invariant primaryRenderType == d.primary && secondaryRenderType == d.secondary
      {
        children[i].parent := this;
      }
    }

    /** `pushVerticesImmediate`: walks the texture slots with the budget in
        `remaining[0]`, shared with the parts rendered after this one, and
        returns the `pushFaces` calls made. */
    method PushVerticesImmediate(remaining: array<int>) returns (pushes: seq<Push>)
      requires remaining.Length > 0
      modifies remaining
      ensures pushes == Walk(facesByTexture, old(remaining[0])).pushes
      ensures remaining[0] == Walk(facesByTexture, old(remaining[0])).remaining
      ensures forall j :: 1 <= j < remaining.Length ==> remaining[j] == old(remaining[j])
    {
      var faces := facesByTexture;
      var rem := remaining[0];
      ghost var w := WalkFrom(faces, 0, rem);
      pushes := [];
      for i := 0 to |faces|
        invariant w.pushes == pushes + WalkFrom(faces, i, rem).pushes
        invariant w.remaining == WalkFrom(faces, i, rem).remaining
        modifies {}
      {
        if rem <= 0 {
          break;
        }
        WalkFromStep(faces, i, rem, pushes);
        var p := Push(i, faces[i] + JavaInt.Min(rem - faces[i], 0));
        rem := rem - faces[i];
        pushes := pushes + [p];
      }
      remaining[0] := rem;
    }

    /** `getVisible`: the walk up the parent chain to the first part whose
        visibility is set. */
    method GetVisible(ghost chain: seq<ModelPart>) returns (b: bool)
      requires ParentChain(chain) && chain[0] == this
      ensures b == VisibleOf(chain)
    {
      var p: ModelPart? := this;
      ghost var k := 0;
      while p != null && p.visible.None?
        invariant k <= |chain|
        invariant k < |chain| ==> p == chain[k]
        invariant k == |chain| ==> p == null
        invariant VisibleOf(chain[k..]) == VisibleOf(chain)
        decreases |chain| - k
      {
        assert chain[k..][1..] == chain[k + 1..];
        p := p.parent;
        k := k + 1;
      }
      b := p == null || p.visible.value;
    }

    /** `setVisible`, whose argument may be `null`. */
    method SetVisible(v: Option<bool>)
      modifies this`visible
      ensures visible == v
    {
      visible := v;
    }

    /** `resetVisible`. */
    method ResetVisible()
      modifies this`visible
      ensures visible == None
    {
      visible := None;
    }

    /** Every cached entry holds what a scan of the children would find. */
    predicate CacheValid()
      reads this`childCache
    {
      forall k :: k in childCache ==> childCache[k] == FirstNamed(children, k)
    }

    /** `__index`: a cached answer when there is one, otherwise the first
        child with the name, or `null`, which is then cached either way. */
    method Index(key: string) returns (r: Option<ModelPart>)
      modifies this`childCache
      ensures key in old(childCache) ==> r == old(childCache)[key] && childCache == old(childCache)
      ensures key !in old(childCache) ==>
                r == FirstNamed(children, key) && childCache == old(childCache)[key := r]
      ensures old(CacheValid()) ==> CacheValid() && r == FirstNamed(children, key)
    {
      if key in childCache {
        return childCache[key];
      }
      for i := 0 to |children|
        invariant childCache == old(childCache)
        invariant FirstNamed(children[i..], key) == FirstNamed(children, key)
      {
        assert children[i..][1..] == children[i + 1..];
        if children[i].name == key {
          childCache := childCache[key := Some(children[i])];
          return Some(children[i]);
        }
      }
      childCache := childCache[key := None];
      return None;
    }

    /** `setParentType`: the constant with exactly that name, or the Lua
        error and no change. */
    method SetParentType(s: string) returns (r: Outcome)
      modifies this`parentType
      ensures r.Pass? <==> exists t :: ParentTypes.Name(t) == s
      ensures r.Pass? ==> ParentTypes.Name(parentType) == s
      ensures r.Fail? ==> r.msg == "Illegal ParentType: \"" + s + "\"." && parentType == old(parentType)
    {
      match ParentTypes.ValueOf(s)
      case Ok(t) =>
        parentType := t;
        r := Pass;
      case Err(_) =>
        r := Fail("Illegal ParentType: \"" + s + "\".");
    }

    /** `getParentType`. */
    function ParentTypeName(): string
      reads this`parentType
    {
      ParentTypes.Name(parentType)
    }

    /** `setPrimaryRenderType`: `renderTypes` holds the names of
        `FiguraTextureSet.RenderTypes`, whose declaration is not part of
        this model. */
    method SetPrimaryRenderType(s: string, renderTypes: set<string>) returns (r: Outcome)
      modifies this`primaryRenderType
      ensures r.Pass? <==> s in renderTypes
      ensures r.Pass? ==> primaryRenderType == Some(s)
      ensures r.Fail? ==> r.msg == "Illegal RenderType: \"" + s + "\"." && primaryRenderType == old(primaryRenderType)
    {
      if s in renderTypes {
        primaryRenderType := Some(s);
        r := Pass;
      } else {
        r := Fail("Illegal RenderType: \"" + s + "\".");
      }
    }

    /** `setSecondaryRenderType`. */
    method SetSecondaryRenderType(s: string, renderTypes: set<string>) returns (r: Outcome)
      modifies this`secondaryRenderType
      ensures r.Pass? <==> s in renderTypes
      ensures r.Pass? ==> secondaryRenderType == Some(s)
      ensures r.Fail? ==> r.msg == "Illegal RenderType: \"" + s + "\"." && secondaryRenderType == old(secondaryRenderType)
    {
      if s in renderTypes {
        secondaryRenderType := Some(s);
        r := Pass;
      } else {
        r := Fail("Illegal RenderType: \"" + s + "\".");
      }
    }

    /** `getTextureSize`: the size, or the Lua error when the part's
        textures differ in size. */
    method GetTextureSize() returns (r: Result<(int, int)>)
      ensures r.Ok? <==> textureWidth != -1 && textureHeight != -1
      ensures r.Ok? ==> r.value == (textureWidth, textureHeight)
      ensures r.Err? ==> r.msg == "Cannot get texture size of part, it has multiple different-sized textures!"
    {
      if textureWidth == -1 || textureHeight == -1 {
        return Err("Cannot get texture size of part, it has multiple different-sized textures!");
      }
      return Ok((textureWidth, textureHeight));
    }

    /** `applyVanillaTransform`: nothing for a missing game part. */
    method ApplyVanillaTransform(part: Option<VanillaPart>, offset: Vec3, degrees: real -> real)
      modifies this`customizationCalls
      ensures part.None? ==> customizationCalls == old(customizationCalls)
      ensures part.Some? ==> customizationCalls == old(customizationCalls) + TransformCalls(offset, part.value, degrees)
    {
      if part.None? {
        return;
      }
      var pivot := DefaultPivot(offset, part.value);
      customizationCalls := customizationCalls + [SetBonusPivot(pivot)];
      customizationCalls := customizationCalls + [SetBonusPos(pivot)];
      var p := part.value;
      customizationCalls := customizationCalls + [SetBonusRot(Vec3(degrees(-p.xRot), degrees(-p.yRot), degrees(p.zRot)))];
    }

    /** `applyVanillaTransforms`: only a vanilla-parented part follows the
        game part its parent type names in the model; `offsetOf` stands for
        `VanillaPartOffsetManager.getVanillaOffset`. */
    method ApplyVanillaTransforms(model: EntityModel, offsetOf: (EntityModel, ParentTypes.ParentType) -> Vec3,
                                  degrees: real -> real)
      modifies this`customizationCalls
      ensures !ParentTypes.Vanilla(parentType) || PartFor(model, parentType).None? ==>
                customizationCalls == old(customizationCalls)
      ensures ParentTypes.Vanilla(parentType) && PartFor(model, parentType).Some? ==>
                customizationCalls == old(customizationCalls)
                  + TransformCalls(offsetOf(model, parentType), PartFor(model, parentType).value, degrees)
    {
      if !ParentTypes.Vanilla(parentType) {
        return;
      }
      if model.Humanoid? || model.Elytra? {
        ApplyVanillaTransform(PartFor(model, parentType), offsetOf(model, parentType), degrees);
      }
    }

    /** `resetVanillaTransforms`. */
    method ResetVanillaTransforms()
      modifies this`customizationCalls
      ensures customizationCalls == old(customizationCalls) + (if ParentTypes.Vanilla(parentType) then ResetCalls else [])
    {
      if ParentTypes.Vanilla(parentType) {
        customizationCalls := customizationCalls + [SetBonusPivot(Zero3)];
        customizationCalls := customizationCalls + [SetBonusPos(Zero3)];
        customizationCalls := customizationCalls + [SetBonusRot(Zero3)];
      }
    }
  }

  // ---------------------------------------------------------------------
  // What the vanilla transforms leave behind
  // ---------------------------------------------------------------------

  /** After a game part is followed, the bonus pivot and the bonus position
      are both the derived pivot, and the bonus rotation is the game part's
      rotation in degrees with x and y negated, whatever was set before. */
  lemma TransformSetsBonus(before: seq<CustomizationCall>, offset: Vec3, part: VanillaPart, degrees: real -> real)
    ensures var after := before + TransformCalls(offset, part, degrees);
      && Latest(after, 0) == Some(DefaultPivot(offset, part))
      && Latest(after, 1) == Some(DefaultPivot(offset, part))
      && Latest(after, 2) == Some(Vec3(degrees(-part.xRot), degrees(-part.yRot), degrees(part.zRot)))
  {
    var t := TransformCalls(offset, part, degrees);
    LatestAppend(before, t, 0);
    LatestAppend(before, t, 1);
    LatestAppend(before, t, 2);
    assert t[..2] == [t[0], t[1]] && t[..2][..1] == [t[0]];
    assert Latest([t[0]], 0) == Some(t[0].v);
    assert Latest(t[..2], 0) == Some(t[0].v);
    assert Latest(t, 0) == Some(t[0].v);
    assert Latest(t[..2], 1) == Some(t[1].v);
    assert Latest(t, 1) == Some(t[1].v);
  }

  /** Resetting a vanilla-parented part zeroes all three bonuses, whatever
      was applied before. */
  lemma ResetZeroesBonus(before: seq<CustomizationCall>)
    ensures forall kind :: 0 <= kind < 3 ==> Latest(before + ResetCalls, kind) == Some(Zero3)
  {
    forall kind | 0 <= kind < 3
      ensures Latest(before + ResetCalls, kind) == Some(Zero3)
    {
      var t := ResetCalls;
      LatestAppend(before, t, kind);
      assert t[..2] == [t[0], t[1]] && t[..2][..1] == [t[0]];
      assert Latest([t[0]], 0) == Some(Zero3);
      assert Latest(t[..2], 0) == Some(Zero3) && Latest(t[..2], 1) == Some(Zero3);
      assert Latest(t, kind) == Some(Zero3);
    }
  }
}

/** `FiguraModelPart.readVec3` / `readVec4` and the geometry tests
    `hasCubeData` / `hasMeshData`. The target vector is shared and
    overwritten in place; a list whose element type is none of float, int,
    short and byte leaves it as it was, which the model states by passing
    the target's current value in and returning its new value. */
module NbtVectors {
  import opened Wrappers
  import opened Nbt
  import opened Geometry

  /** A list element read as a number: `getFloat(i)`, `getInt(i)` or
      `getShort(i)` by the list's element type (0 for a missing element or
      one of another kind), or `((ByteTag) get(i)).getAsByte()`, which throws
      for a missing element or one that is not a byte. */
  function Component(l: Tag, i: nat): Result<real>
    requires l.ListTag?
  {
    if l.elemType == TAG_FLOAT then Ok(ListFloat(l.items, i))
    else if l.elemType == TAG_INT then Ok(ListInt(l.items, i) as real)
    else if l.elemType == TAG_SHORT then Ok(ListShort(l.items, i) as real)
    else
      match ListByte(l.items, i)
      case Ok(b) => Ok(b as real)
      case Err(e) => Err(e)
  }

  /** The element types the switch of `readVec3`/`readVec4` handles. */
  predicate Handled(l: Tag)
    requires l.ListTag?
  {
    l.elemType in {TAG_FLOAT, TAG_INT, TAG_SHORT, TAG_BYTE}
  }

  /** `readVec3(target, tag, name)` with the defaults 0, 0, 0: the new value
      of `target`, or the exception. */
  function ReadVec3(c: Compound, name: string, target: Vec3): (r: Result<Vec3>)
    ensures name !in c ==> r == Ok(Zero3)
    ensures name in c && !c[name].ListTag? ==> r.Err?
  {
    if name !in c then Ok(Zero3)
    else if !c[name].ListTag? then Err("ClassCastException")
    else
      var l := c[name];
      if !Handled(l) then Ok(target)
      else
        match (Component(l, 0), Component(l, 1), Component(l, 2))
        case (Ok(x), Ok(y), Ok(z)) => Ok(Vec3(x, y, z))
        case (Err(e), _, _) => Err(e)
        case (_, Err(e), _) => Err(e)
        case (_, _, Err(e)) => Err(e)
  }

  /** `readVec4(target, tag, name)`: the new value of `target`, or the
      exception. */
  function ReadVec4(c: Compound, name: string, target: Vec4): (r: Result<Vec4>)
    ensures name !in c ==> r == Ok(Zero4)
    ensures name in c && !c[name].ListTag? ==> r.Err?
  {
    if name !in c then Ok(Zero4)
    else if !c[name].ListTag? then Err("ClassCastException")
    else
      var l := c[name];
      if !Handled(l) then Ok(target)
      else
        match (Component(l, 0), Component(l, 1), Component(l, 2), Component(l, 3))
        case (Ok(x), Ok(y), Ok(z), Ok(w)) => Ok(Vec4(x, y, z, w))
        case (Err(e), _, _, _) => Err(e)
        case (_, Err(e), _, _) => Err(e)
        case (_, _, Err(e), _) => Err(e)
        case (_, _, _, Err(e)) => Err(e)
  }

  /** A list of another element type (an empty list, whose element type is
      the end tag, among them) leaves the target as it was; a float, int or
      short list always yields its first three entries, 0 for those it
      lacks; a byte list yields a value exactly when it holds three bytes. */
  lemma ReadVec3Cases(c: Compound, name: string, target: Vec3)
    requires name in c && c[name].ListTag?
    ensures var l := c[name];
      && (!Handled(l) ==> ReadVec3(c, name, target) == Ok(target))
      && (l.elemType == TAG_FLOAT ==>
            ReadVec3(c, name, target) == Ok(Vec3(ListFloat(l.items, 0), ListFloat(l.items, 1), ListFloat(l.items, 2))))
      && (l.elemType in {TAG_INT, TAG_SHORT} ==> ReadVec3(c, name, target).Ok?)
      && (l.elemType == TAG_BYTE ==>
            (ReadVec3(c, name, target).Ok? <==> |l.items| >= 3 && l.items[0].ByteTag? && l.items[1].ByteTag? && l.items[2].ByteTag?))
  {
  }

  /** An empty list under the key leaves the target unchanged: its element
      type is the end tag. */
  lemma EmptyListKeepsTarget(c: Compound, name: string, target: Vec3, target4: Vec4)
    requires name in c && c[name] == ListTag(TAG_END, [])
    ensures ReadVec3(c, name, target) == Ok(target)
    ensures ReadVec4(c, name, target4) == Ok(target4)
  {
  }

  /** `hasCubeData`: a non-empty compound under `cube_data`. */
  predicate HasCubeData(c: Compound) {
    ContainsType(c, "cube_data", TAG_COMPOUND) && GetCompound(c, "cube_data") != map[]
  }

  /** `hasMeshData`: a non-empty compound under `mesh_data`. */
  predicate HasMeshData(c: Compound) {
    ContainsType(c, "mesh_data", TAG_COMPOUND) && GetCompound(c, "mesh_data") != map[]
  }
}

/** `FiguraModelPart.storeTexSize`: the texture size a part reports, or
    `(-1, -1)` when the part and its descendants draw from textures of more
    than one size. A part's size comes from its children's sizes and from
    the texture sets of the slots it has faces in. Texture sets are given by
    their `(width, height)`. */
module TextureSizes {
  import opened Wrappers

  /** What a scan has found so far: one size (`(-1, -1)` for none yet), or
      proof of several. */
  datatype Scan = Known(w: int, h: int) | Multiple

  /** The loop over the children from child `i` on, `(w, h)` the size seen
      so far: a child with several sizes, or a child whose size differs
      from one already seen, means several; otherwise the first child's
      size is adopted. */
  function ChildScan(sizes: seq<(int, int)>, i: nat, w: int, h: int): Scan
    requires i <= |sizes|
    decreases |sizes| - i
  {
    if i == |sizes| then Known(w, h)
    else
      var (cw, ch) := sizes[i];
      if cw == -1 then Multiple
      else if cw != w || ch != h then
        if w != -1 then Multiple else ChildScan(sizes, i + 1, cw, ch)
      else ChildScan(sizes, i + 1, w, h)
  }

  /** A texture set's size disagrees with the size seen so far. */
  predicate Mismatch(w: int, h: int, t: (int, int)) {
    (w != -1 && w != t.0) || (h != -1 && h != t.1)
  }

  /** The loop over the texture slots from slot `j` on, `i` the slot with
      faces seen so far (-1 for none): a slot with faces takes its texture
      set's size (`textureSets.get(j)` throws past the list's end), and a
      second slot with faces or a size that disagrees means several. */
  function SlotScan(faces: seq<int>, textures: seq<(int, int)>, j: nat, i: int, w: int, h: int): Result<Scan>
    requires j <= |faces|
    decreases |faces| - j
  {
    if j == |faces| then Ok(Known(w, h))
    else if faces[j] <= 0 then SlotScan(faces, textures, j + 1, i, w, h)
    else if j >= |textures| then Err("IndexOutOfBoundsException")
    else if Mismatch(w, h, textures[j]) then Ok(Multiple)
    else if i != -1 then Ok(Multiple)
    else SlotScan(faces, textures, j + 1, j, textures[j].0, textures[j].1)
  }

  /** `storeTexSize` for a part with children of sizes `children`, the
      geometry index `index` (-1 for none), the faces per texture slot
      `faces` and the texture sets `textures`: the new
      `(textureWidth, textureHeight)`. */
  function TexSizeOf(children: seq<(int, int)>, index: int, faces: seq<int>, textures: seq<(int, int)>): Result<(int, int)> {
    match ChildScan(children, 0, -1, -1)
    case Multiple => Ok((-1, -1))
    case Known(w, h) =>
      if index == -1 then Ok((w, h))
      else
        match SlotScan(faces, textures, 0, -1, w, h)
        case Err(e) => Err(e)
        case Ok(Multiple) => Ok((-1, -1))
        case Ok(Known(w', h')) => Ok((w', h'))
  }

  /** `storeTexSize` as the source runs it: a loop over the children and,
      for a part with geometry, a loop over its texture slots, each able to
      stop early with `(-1, -1)`. */
  method StoreTexSize(children: seq<(int, int)>, index: int, faces: seq<int>, textures: seq<(int, int)>)
      returns (r: Result<(int, int)>)
    ensures r == TexSizeOf(children, index, faces, textures)
  {
    var w, h := -1, -1;
    for k := 0 to |children|
      invariant ChildScan(children, k, w, h) == ChildScan(children, 0, -1, -1)
    {
      var (cw, ch) := children[k];
      if cw == -1 {
        return Ok((-1, -1));
      }
      if cw != w || ch != h {
        if w != -1 {
          return Ok((-1, -1));
        }
        w, h := cw, ch;
      }
    }
    if index != -1 {
      ghost var w0, h0 := w, h;
      var i := -1;
      for j := 0 to |faces|
        invariant SlotScan(faces, textures, j, i, w, h) == SlotScan(faces, textures, 0, -1, w0, h0)
      {
        if faces[j] > 0 {
          if j >= |textures| {
            return Err("IndexOutOfBoundsException");
          }
          var (tw, th) := textures[j];
          if (w != -1 && w != tw) || (h != -1 && h != th) {
            return Ok((-1, -1));
          }
          if i != -1 {
            return Ok((-1, -1));
          }
          i, w, h := j, tw, th;
        }
      }
    }
    return Ok((w, h));
  }

  // ---- a reference definition ----

  /** All of `sizes` from `i` on equal `s`. */
  predicate AllFrom(sizes: seq<(int, int)>, i: nat, s: (int, int)) {
    forall k :: i <= k < |sizes| ==> sizes[k] == s
  }

  /** The size the children agree on: none without children, the common
      size when all children have the same single size, several otherwise. */
  function ChildrenSize(sizes: seq<(int, int)>): Scan {
    if sizes == [] then Known(-1, -1)
    else if sizes[0].0 != -1 && AllFrom(sizes, 0, sizes[0]) then Known(sizes[0].0, sizes[0].1)
    else Multiple
  }

  /** The first slot from `j` on with faces, or `|faces|`. */
  function FirstPositive(faces: seq<int>, j: nat): (p: nat)
    requires j <= |faces|
    ensures j <= p <= |faces|
    ensures forall k :: j <= k < p ==> faces[k] <= 0
    ensures p < |faces| ==> faces[p] > 0
    decreases |faces| - j
  {
    if j == |faces| || faces[j] > 0 then j else FirstPositive(faces, j + 1)
  }

  /** What the texture slots contribute, given the children's size `(w, h)`:
      nothing without a slot with faces; otherwise the first such slot's
      texture set, provided it agrees with `(w, h)` and no second slot has
      faces; an error as soon as a slot consulted lies past the texture
      sets. */
  function SlotsSize(faces: seq<int>, textures: seq<(int, int)>, w: int, h: int): Result<Scan> {
    var p0 := FirstPositive(faces, 0);
    if p0 == |faces| then Ok(Known(w, h))
    else if p0 >= |textures| then Err("IndexOutOfBoundsException")
    else if Mismatch(w, h, textures[p0]) then Ok(Multiple)
    else
      var p1 := FirstPositive(faces, p0 + 1);
      if p1 == |faces| then Ok(Known(textures[p0].0, textures[p0].1))
      else if p1 >= |textures| then Err("IndexOutOfBoundsException")
      else Ok(Multiple)
  }

  /** The children's loop from child `i` with `(w, h)` seen so far. */
  lemma {:induction false} ChildScanFrom(sizes: seq<(int, int)>, i: nat, w: int, h: int)
    requires i <= |sizes|
    ensures ChildScan(sizes, i, w, h)
      == if i == |sizes| then Known(w, h)
         else if sizes[i].0 != -1 && (w == -1 || sizes[i] == (w, h)) && AllFrom(sizes, i, sizes[i])
         then Known(sizes[i].0, sizes[i].1)
         else Multiple
    decreases |sizes| - i
  {
    if i < |sizes| {
      var (cw, ch) := sizes[i];
      if cw != -1 {
        if cw != w || ch != h {
          if w == -1 {
            ChildScanFrom(sizes, i + 1, cw, ch);
          }
        } else {
          ChildScanFrom(sizes, i + 1, w, h);
        }
      }
    }
  }

  /** The loop over the children computes `ChildrenSize`. */
  lemma ChildScanMatches(sizes: seq<(int, int)>)
    ensures ChildScan(sizes, 0, -1, -1) == ChildrenSize(sizes)
  {
    ChildScanFrom(sizes, 0, -1, -1);
  }

  /** Slots without faces do not change the scan. */
  lemma {:induction false} SlotScanSkips(faces: seq<int>, textures: seq<(int, int)>, j: nat, i: int, w: int, h: int)
    requires j <= |faces|
    ensures SlotScan(faces, textures, j, i, w, h) == SlotScan(faces, textures, FirstPositive(faces, j), i, w, h)
    decreases |faces| - j
  {
    if j < |faces| && faces[j] <= 0 {
      SlotScanSkips(faces, textures, j + 1, i, w, h);
    }
  }

  /** The loop over the slots computes `SlotsSize`. */
  lemma SlotScanMatches(faces: seq<int>, textures: seq<(int, int)>, w: int, h: int)
    ensures SlotScan(faces, textures, 0, -1, w, h) == SlotsSize(faces, textures, w, h)
  {
    SlotScanSkips(faces, textures, 0, -1, w, h);
    var p0 := FirstPositive(faces, 0);
    if p0 < |faces| && p0 < |textures| && !Mismatch(w, h, textures[p0]) {
      SlotScanSkips(faces, textures, p0 + 1, p0, textures[p0].0, textures[p0].1);
    }
  }

  /** `storeTexSize` combines the two: several sizes among the children,
      else the children's size for a part without geometry, else what the
      slots contribute. */
  lemma TexSizeMatches(children: seq<(int, int)>, index: int, faces: seq<int>, textures: seq<(int, int)>)
    ensures TexSizeOf(children, index, faces, textures)
      == match ChildrenSize(children)
         case Multiple => Ok((-1, -1))
         case Known(w, h) =>
           if index == -1 then Ok((w, h))
           else match SlotsSize(faces, textures, w, h)
             case Err(e) => Err(e)
             case Ok(Multiple) => Ok((-1, -1))
             case Ok(Known(w', h')) => Ok((w', h'))
  {
    ChildScanMatches(children);
    match ChildrenSize(children)
    case Multiple =>
    case Known(w, h) => SlotScanMatches(faces, textures, w, h);
  }

  // ---- consequences ----

  /** Texture sets have real, non-negative dimensions. */
  predicate RealSizes(textures: seq<(int, int)>) {
    forall k :: 0 <= k < |textures| ==> textures[k].0 >= 0 && textures[k].1 >= 0
  }

  /** A size is either `(-1, -1)` or has no -1 in it. */
  predicate Paired(s: (int, int)) {
    s.0 == -1 <==> s.1 == -1
  }

  predicate AllPaired(sizes: seq<(int, int)>) {
    forall k :: 0 <= k < |sizes| ==> Paired(sizes[k])
  }

  /** A child with several sizes gives its parent several sizes. */
  lemma MultipleChildMakesMultiple(children: seq<(int, int)>, index: int, faces: seq<int>, textures: seq<(int, int)>, k: nat)
    requires k < |children| && children[k].0 == -1
    ensures TexSizeOf(children, index, faces, textures) == Ok((-1, -1))
  {
    TexSizeMatches(children, index, faces, textures);
    if children[0].0 != -1 {
      assert children[k] != children[0];
    }
  }

  /** Two children of different sizes give their parent several sizes. */
  lemma DifferentChildrenMakeMultiple(children: seq<(int, int)>, index: int, faces: seq<int>, textures: seq<(int, int)>, a: nat, b: nat)
    requires a < |children| && b < |children| && children[a] != children[b]
    ensures TexSizeOf(children, index, faces, textures) == Ok((-1, -1))
  {
    TexSizeMatches(children, index, faces, textures);
    assert children[a] != children[0] || children[b] != children[0];
  }

  /** Faces in two texture slots of a part with geometry give it several
      sizes, when both slots have texture sets. */
  lemma TwoSlotsMakeMultiple(children: seq<(int, int)>, index: int, faces: seq<int>, textures: seq<(int, int)>, a: nat, b: nat)
    requires index != -1
    requires a < b < |faces| && b < |textures| && faces[a] > 0 && faces[b] > 0
    ensures TexSizeOf(children, index, faces, textures) == Ok((-1, -1))
  {
    TexSizeMatches(children, index, faces, textures);
    var p0 := FirstPositive(faces, 0);
    assert p0 <= a;
    if p0 < |faces| {
      assert FirstPositive(faces, p0 + 1) <= b;
    }
  }

  /** A part with geometry whose single textured slot has a texture set of
      another size than its children's has several sizes. */
  lemma SlotDisagreeingWithChildren(children: seq<(int, int)>, index: int, faces: seq<int>, textures: seq<(int, int)>, p: nat)
    requires index != -1 && children != [] && children[0].0 != -1 && children[0].1 != -1
    requires p < |faces| && p < |textures| && faces[p] > 0 && textures[p] != children[0]
    requires forall k :: 0 <= k < p ==> faces[k] <= 0
    ensures TexSizeOf(children, index, faces, textures) == Ok((-1, -1))
  {
    TexSizeMatches(children, index, faces, textures);
    assert FirstPositive(faces, 0) == p;
  }

  /** A part with no children and no geometry has no size. */
  lemma EmptyPartHasNoSize(faces: seq<int>, textures: seq<(int, int)>)
    ensures TexSizeOf([], -1, faces, textures) == Ok((-1, -1))
  {
    TexSizeMatches([], -1, faces, textures);
  }

  /** A leaf with geometry drawn from exactly one slot takes that slot's
      texture set's size. */
  lemma SingleSlotLeaf(index: int, faces: seq<int>, textures: seq<(int, int)>, p: nat)
    requires index != -1 && p < |faces| && p < |textures| && faces[p] > 0
    requires forall k :: 0 <= k < |faces| && k != p ==> faces[k] <= 0
    ensures TexSizeOf([], index, faces, textures) == Ok(textures[p])
  {
    TexSizeMatches([], index, faces, textures);
    assert FirstPositive(faces, 0) == p;
    assert FirstPositive(faces, p + 1) == |faces|;
  }

  /** A reported size is a real one: every child has it, and a part with
      geometry draws from at most one slot, whose texture set has it. */
  lemma ReportedSizeIsShared(children: seq<(int, int)>, index: int, faces: seq<int>, textures: seq<(int, int)>, w: int, h: int)
    requires AllPaired(children)
    requires TexSizeOf(children, index, faces, textures) == Ok((w, h)) && w != -1
    ensures forall k :: 0 <= k < |children| ==> children[k] == (w, h)
    ensures index != -1 ==> forall j :: 0 <= j < |faces| && faces[j] > 0 ==> j < |textures| && textures[j] == (w, h)
    ensures index != -1 ==> forall a, b :: 0 <= a < b < |faces| ==> faces[a] <= 0 || faces[b] <= 0
    ensures children != [] || (index != -1 && exists j :: 0 <= j < |faces| && faces[j] > 0)
  {
    TexSizeMatches(children, index, faces, textures);
    if index != -1 {
      var p0 := FirstPositive(faces, 0);
      if p0 < |faces| {
        var p1 := FirstPositive(faces, p0 + 1);
        assert p1 == |faces|;
        assert forall j :: 0 <= j < |faces| && faces[j] > 0 ==> j == p0;
      }
    }
  }

  /** With texture sets of real sizes and children that each report either
      no size or a full one, the part reports either no size or a full one
      too, so the property carries up the tree. */
  lemma TexSizePaired(children: seq<(int, int)>, index: int, faces: seq<int>, textures: seq<(int, int)>)
    requires AllPaired(children) && RealSizes(textures)
    requires TexSizeOf(children, index, faces, textures).Ok?
    ensures Paired(TexSizeOf(children, index, faces, textures).value)
  {
    TexSizeMatches(children, index, faces, textures);
  }
}

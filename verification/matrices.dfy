/** The scripting constructors `mat2`, `mat3` and `mat4` of the matrices API
    (MatricesAPI.java). A nil column is `None`; entries are reals and nothing
    is computed on them. */
module MatricesApi {
  import opened Wrappers
  import opened VectorsApi

  type Column2 = v: Vector | v.Vec2? witness Vec2(0.0, 0.0)
  type Column3 = v: Vector | v.Vec3? witness Vec3(0.0, 0.0, 0.0)
  type Column4 = v: Vector | v.Vec4? witness Vec4(0.0, 0.0, 0.0, 0.0)

  /** A square matrix of size `n`: either what `FiguraMatN.of()` returns
      (those classes are not part of this model) or the matrix built from its
      entries, listed as `FiguraMatN.of(...)` takes them. */
  datatype Matrix =
    | Default(n: nat)
    | FromEntries(n: nat, entries: seq<real>)

  /** The columns laid end to end, each column top to bottom. */
  function Flatten(cols: seq<seq<real>>): seq<real>
  {
    if cols == [] then [] else cols[0] + Flatten(cols[1..])
  }

  /** The components of the given (all present) columns. */
  function ColumnEntries(cols: seq<Option<Vector>>): seq<seq<real>>
    requires forall c :: 0 <= c < |cols| ==> cols[c].Some?
  {
    seq(|cols|, c requires 0 <= c < |cols| => Components(cols[c].value))
  }

  /** `mat2(col1, col2)`. */
  function Mat2(col1: Option<Column2>, col2: Option<Column2>): (r: Result<Matrix>)
    ensures col1.None? && col2.None? ==> r == Ok(Default(2))
    ensures r.Err? <==> col1.None? != col2.None?
    ensures col1.Some? && col2.Some? ==>
      r == Ok(FromEntries(2, Flatten(ColumnEntries([col1, col2])))) && |r.value.entries| == 4
  {
    if col1.None? && col2.None? then Ok(Default(2))
    else if col1.None? || col2.None? then Err("Invalid arguments to mat2(), needs 0 or 2 arguments!")
    else
      var c1, c2 := col1.value, col2.value;
      assert Flatten([]) == [];
      assert ColumnEntries([col1, col2]) == [Components(c1), Components(c2)];
      assert Flatten([Components(c2)]) == Components(c2) + Flatten([]);
      assert Flatten([Components(c1), Components(c2)]) == Components(c1) + Flatten([Components(c2)]);
      assert Flatten(ColumnEntries([col1, col2])) == [c1.x, c1.y, c2.x, c2.y];
      Ok(FromEntries(2, [c1.x, c1.y,
                         c2.x, c2.y]))
  }

  /** `mat3(col1, col2, col3)`. */
  function Mat3(col1: Option<Column3>, col2: Option<Column3>, col3: Option<Column3>): (r: Result<Matrix>)
    ensures col1.None? && col2.None? && col3.None? ==> r == Ok(Default(3))
    ensures r.Err? <==> !(col1.None? && col2.None? && col3.None?) && !(col1.Some? && col2.Some? && col3.Some?)
    ensures col1.Some? && col2.Some? && col3.Some? ==>
      r == Ok(FromEntries(3, Flatten(ColumnEntries([col1, col2, col3])))) && |r.value.entries| == 9
  {
    if col1.None? && col2.None? && col3.None? then Ok(Default(3))
    else if col1.None? || col2.None? || col3.None? then
      Err("Invalid arguments to mat3(), needs 0 or 3 arguments!")
    else
      var c1, c2, c3 := col1.value, col2.value, col3.value;
      assert Flatten([]) == [];
      assert ColumnEntries([col1, col2, col3]) == [Components(c1), Components(c2), Components(c3)];
      assert Flatten([Components(c3)]) == Components(c3) + Flatten([]);
      assert Flatten([Components(c2), Components(c3)]) == Components(c2) + Flatten([Components(c3)]);
      assert Flatten([Components(c1), Components(c2), Components(c3)])
          == Components(c1) + Flatten([Components(c2), Components(c3)]);
      assert Flatten(ColumnEntries([col1, col2, col3])) == [c1.x, c1.y, c1.z, c2.x, c2.y, c2.z, c3.x, c3.y, c3.z];
      Ok(FromEntries(3, [c1.x, c1.y, c1.z,
                         c2.x, c2.y, c2.z,
                         c3.x, c3.y, c3.z]))
  }

  /** `mat4(col1, col2, col3, col4)`. */
  function Mat4(col1: Option<Column4>, col2: Option<Column4>, col3: Option<Column4>,
                col4: Option<Column4>): (r: Result<Matrix>)
    ensures col1.None? && col2.None? && col3.None? && col4.None? ==> r == Ok(Default(4))
    ensures r.Err? <==> !(col1.None? && col2.None? && col3.None? && col4.None?)
                        && !(col1.Some? && col2.Some? && col3.Some? && col4.Some?)
    ensures col1.Some? && col2.Some? && col3.Some? && col4.Some? ==>
      r == Ok(FromEntries(4, Flatten(ColumnEntries([col1, col2, col3, col4])))) && |r.value.entries| == 16
  {
    if col1.None? && col2.None? && col3.None? && col4.None? then Ok(Default(4))
    else if col1.None? || col2.None? || col3.None? || col4.None? then
      Err("Invalid arguments to mat4(), needs 0 or 4 arguments!")
    else
      FromColumns4(col1.value, col2.value, col3.value, col4.value)
  }

  /** The matrix `mat4` builds from four columns: their entries column by
      column, as `FiguraMat4.of` takes them. */
  function FromColumns4(c1: Column4, c2: Column4, c3: Column4, c4: Column4): (r: Result<Matrix>)
    ensures r == Ok(FromEntries(4, Flatten(ColumnEntries([Some(c1), Some(c2), Some(c3), Some(c4)]))))
    ensures |r.value.entries| == 16
  {
    assert ColumnEntries([Some(c1), Some(c2), Some(c3), Some(c4)])
        == [Components(c1), Components(c2), Components(c3), Components(c4)];
    FlattenFour(Components(c1), Components(c2), Components(c3), Components(c4));
    assert Components(c1) + Components(c2) + Components(c3) + Components(c4)
        == [c1.x, c1.y, c1.z, c1.w, c2.x, c2.y, c2.z, c2.w, c3.x, c3.y, c3.z, c3.w, c4.x, c4.y, c4.z, c4.w];
    Ok(FromEntries(4, [c1.x, c1.y, c1.z, c1.w,
                       c2.x, c2.y, c2.z, c2.w,
                       c3.x, c3.y, c3.z, c3.w,
                       c4.x, c4.y, c4.z, c4.w]))
  }

  /** Four columns laid end to end. */
  lemma FlattenFour(a: seq<real>, b: seq<real>, c: seq<real>, d: seq<real>)
    ensures Flatten([a, b, c, d]) == a + b + c + d
  {
    assert Flatten([]) == [];
    assert Flatten([d]) == d + Flatten([]);
    assert Flatten([c, d]) == c + Flatten([d]);
    assert Flatten([b, c, d]) == b + Flatten([c, d]);
    assert Flatten([a, b, c, d]) == a + Flatten([b, c, d]);
  }
}

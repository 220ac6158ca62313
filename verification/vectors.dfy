/** The scripting constructors `vec`, `vec2` .. `vec6` of the vectors API
    (VectorsAPI.java). A nil script argument is `None`; the components are
    modelled as reals, nothing is computed on them. */
module VectorsApi {
  import opened Wrappers

  /** A vector of two to six components, named x, y, z, w, t, h in order. */
  datatype Vector =
    | Vec2(x: real, y: real)
    | Vec3(x: real, y: real, z: real)
    | Vec4(x: real, y: real, z: real, w: real)
    | Vec5(x: real, y: real, z: real, w: real, t: real)
    | Vec6(x: real, y: real, z: real, w: real, t: real, h: real)

  /** The components of a vector in order. */
  function Components(v: Vector): (c: seq<real>)
    ensures 2 <= |c| <= 6
  {
    match v
    case Vec2(x, y) => [x, y]
    case Vec3(x, y, z) => [x, y, z]
    case Vec4(x, y, z, w) => [x, y, z, w]
    case Vec5(x, y, z, w, t) => [x, y, z, w, t]
    case Vec6(x, y, z, w, t, h) => [x, y, z, w, t, h]
  }

  /** A nil argument stands for 0. */
  function OrZero(d: Option<real>): real {
    d.GetOr(0.0)
  }

  /** True when every argument is replaced by itself or, when nil, by 0. */
  ghost predicate FilledFrom(c: seq<real>, args: seq<Option<real>>)
    requires |c| == |args|
  {
    forall i :: 0 <= i < |c| ==> c[i] == (if args[i].Some? then args[i].value else 0.0)
  }

  function Vec2Of(x: Option<real>, y: Option<real>): (v: Vector)
    ensures v.Vec2? && FilledFrom(Components(v), [x, y])
  {
    Vec2(OrZero(x), OrZero(y))
  }

  function Vec3Of(x: Option<real>, y: Option<real>, z: Option<real>): (v: Vector)
    ensures v.Vec3? && FilledFrom(Components(v), [x, y, z])
  {
    Vec3(OrZero(x), OrZero(y), OrZero(z))
  }

  function Vec4Of(x: Option<real>, y: Option<real>, z: Option<real>, w: Option<real>): (v: Vector)
    ensures v.Vec4? && FilledFrom(Components(v), [x, y, z, w])
  {
    Vec4(OrZero(x), OrZero(y), OrZero(z), OrZero(w))
  }

  function Vec5Of(x: Option<real>, y: Option<real>, z: Option<real>, w: Option<real>,
                  t: Option<real>): (v: Vector)
    ensures v.Vec5? && FilledFrom(Components(v), [x, y, z, w, t])
  {
    Vec5(OrZero(x), OrZero(y), OrZero(z), OrZero(w), OrZero(t))
  }

  function Vec6Of(x: Option<real>, y: Option<real>, z: Option<real>, w: Option<real>,
                  t: Option<real>, h: Option<real>): (v: Vector)
    ensures v.Vec6? && FilledFrom(Components(v), [x, y, z, w, t, h])
  {
    Vec6(OrZero(x), OrZero(y), OrZero(z), OrZero(w), OrZero(t), OrZero(h))
  }

  /** `vec(x, y, z, w, t, h)`: the size of the vector is the position of the
      last non-nil argument; earlier nil arguments become 0; with nothing
      after `x` the call is an error. */
  function Vec(x: Option<real>, y: Option<real>, z: Option<real>, w: Option<real>,
               t: Option<real>, h: Option<real>): (r: Result<Vector>)
    ensures r.Err? <==> y.None? && z.None? && w.None? && t.None? && h.None?
    ensures r.Ok? ==>
      var args := [x, y, z, w, t, h];
      var n := |Components(r.value)|;
      && args[n - 1].Some?
      && (forall k :: n <= k < 6 ==> args[k].None?)
      && FilledFrom(Components(r.value), args[..n])
  {
    if h.Some? then Ok(Vec6Of(x, y, z, w, t, h))
    else if t.Some? then Ok(Vec5Of(x, y, z, w, t))
    else if w.Some? then Ok(Vec4Of(x, y, z, w))
    else if z.Some? then Ok(Vec3Of(x, y, z))
    else if y.Some? then Ok(Vec2Of(x, y))
    else Err("Invalid arguments to vec(), needs at least 2 numbers!")
  }

  /** A nil in the middle does not shorten the vector: `vec(x, nil, z)` is a
      3-vector whose y is 0. */
  lemma VecGapIsZero(a: real, c: real)
    ensures Vec(Some(a), None, Some(c), None, None, None) == Ok(Vec3(a, 0.0, c))
  {
  }

  /** The size chosen by `vec` depends only on which arguments are nil, not
      on their values. */
  lemma VecSizeDependsOnNils(args: seq<Option<real>>, other: seq<Option<real>>)
    requires |args| == 6 && |other| == 6
    requires forall i :: 0 <= i < 6 ==> (args[i].Some? <==> other[i].Some?)
    ensures var r1 := Vec(args[0], args[1], args[2], args[3], args[4], args[5]);
            var r2 := Vec(other[0], other[1], other[2], other[3], other[4], other[5]);
            r1.Ok? == r2.Ok? &&
            (r1.Ok? ==> |Components(r1.value)| == |Components(r2.value)|)
  {
  }
}

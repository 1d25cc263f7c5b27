/** `SceneObject` of `src/shape.js`: a mesh reference with a pose (position, Euler rotation,
    scale) and material colours (ambient, diffuse, specular), all held as mutable `vec3`
    objects. Construction defaults each absent option independently and scales the ambient
    vector in place, which also changes the vector object the caller passed in. The model
    matrix is kept symbolic: which transforms are multiplied, and in which order. */
module Scene {
  import opened Vectors

  /** A mutable `vec3` object: its components are assigned in place, and several fields (of one
      or several scene objects) may refer to the same vector. */
  class Vec3 {
    var x: real
    var y: real
    var z: real

    constructor (x: real, y: real, z: real)
      ensures this.x == x && this.y == y && this.z == z
    {
      this.x := x;
      this.y := y;
      this.z := z;
    }

    /** The vector's current components. */
    function Value(): V3
      reads this
    {
      V3(x, y, z)
    }
  }

  datatype Option<T> = None | Some(value: T)

  /** `ShapeOptions`: every field may be absent (`undefined` or `null`); an absent or `null`
      options object is `NoOptions`. */
  datatype ShapeOptions = ShapeOptions(
    position: Option<Vec3>,
    rotation: Option<Vec3>,
    scale: Option<Vec3>,
    ambient: Option<Vec3>,
    diffuse: Option<Vec3>,
    specular: Option<Vec3>)

  const NoOptions: ShapeOptions := ShapeOptions(None, None, None, None, None, None)

  /** The factor applied to the ambient colour at construction. */
  const AmbientFactor: real := 0.25
  /** The factor from the (scaled) ambient colour to the default diffuse colour. */
  const DiffuseFactor: real := 1.2

  function Times(k: real, v: V3): V3 {
    V3(k * v.x, k * v.y, k * v.z)
  }

  /** The set holding the supplied ambient vector, if any: the only object construction changes
      besides the new scene object. */
  function AmbientFrame(options: ShapeOptions): set<object> {
    if options.ambient.Some? then {options.ambient.value} else {}
  }

  /** `option ?? vec3(...)`: the supplied vector itself, or a fresh vector holding `default`. */
  method Coalesce(option: Option<Vec3>, default: V3) returns (v: Vec3)
    ensures option.Some? ==> v == option.value
    ensures option.None? ==> fresh(v) && v.Value() == default
  {
    if option.Some? {
      v := option.value;
    } else {
      v := new Vec3(default.x, default.y, default.z);
    }
  }

  /** The pose part of construction: position, rotation and scale each take their option, or a
      fresh default of their own. */
  method InitPose(options: ShapeOptions) returns (position: Vec3, rotation: Vec3, scale: Vec3)
    ensures options.position.Some? ==> position == options.position.value
    ensures options.position.None? ==> fresh(position) && position.Value() == V3(0.0, 0.0, 0.0)
    ensures options.rotation.Some? ==> rotation == options.rotation.value
    ensures options.rotation.None? ==> fresh(rotation) && rotation.Value() == V3(0.0, 0.0, 0.0)
    ensures options.scale.Some? ==> scale == options.scale.value
    ensures options.scale.None? ==> fresh(scale) && scale.Value() == V3(1.0, 1.0, 1.0)
    ensures options.position.None? || options.rotation.None? ==> position != rotation
    ensures options.position.None? || options.scale.None? ==> position != scale
    ensures options.rotation.None? || options.scale.None? ==> rotation != scale
  {
    position := Coalesce(options.position, V3(0.0, 0.0, 0.0));
    rotation := Coalesce(options.rotation, V3(0.0, 0.0, 0.0));
    scale := Coalesce(options.scale, V3(1.0, 1.0, 1.0));
  }

  /** The material part of construction: the ambient vector (supplied or a fresh (1,1,1)) is
      scaled by 0.25 in place; then diffuse defaults to a fresh 1.2 times the scaled ambient and
      specular to a fresh (1,1,1). */
  method InitMaterial(options: ShapeOptions) returns (ambient: Vec3, diffuse: Vec3, specular: Vec3)
    modifies AmbientFrame(options)
    ensures options.ambient.Some? ==> ambient == options.ambient.value
    ensures options.ambient.None? ==> fresh(ambient)
    ensures ambient.Value() ==
      Times(AmbientFactor, if options.ambient.Some? then old(options.ambient.value.Value()) else V3(1.0, 1.0, 1.0))
    ensures options.diffuse.Some? ==> diffuse == options.diffuse.value
    ensures options.diffuse.None? ==> fresh(diffuse) && diffuse.Value() == Times(DiffuseFactor, ambient.Value())
    ensures options.specular.Some? ==> specular == options.specular.value
    ensures options.specular.None? ==> fresh(specular) && specular.Value() == V3(1.0, 1.0, 1.0)
    ensures options.ambient.None? || options.diffuse.None? ==> ambient != diffuse
    ensures options.ambient.None? || options.specular.None? ==> ambient != specular
    ensures options.diffuse.None? || options.specular.None? ==> diffuse != specular
  {
    ambient := Coalesce(options.ambient, V3(1.0, 1.0, 1.0));
    ambient.x := AmbientFactor * ambient.x;
    ambient.y := AmbientFactor * ambient.y;
    ambient.z := AmbientFactor * ambient.z;
    diffuse := Coalesce(options.diffuse, V3(ambient.x * DiffuseFactor, ambient.y * DiffuseFactor, ambient.z * DiffuseFactor));
    specular := Coalesce(options.specular, V3(1.0, 1.0, 1.0));
  }

  // ---------------------------------------------------------------------------------------
  // Symbolic model matrices
  // ---------------------------------------------------------------------------------------

  datatype Axis = X | Y | Z

  /** The matrices `translationMatrix`, `rotationMatrix(axis, angle)` and `scaleMatrix` build. */
  datatype Transform = Translation(offset: V3) | Rotation(axis: Axis, angle: real) | Scaling(factors: V3)

  /** A product of transform matrices as `mult` calls build it, bracketing included. */
  datatype MatExpr = Leaf(t: Transform) | Mult(left: MatExpr, right: MatExpr)

  /** The transforms of a product, left to right. */
  function Factors(m: MatExpr): seq<Transform> {
    match m
    case Leaf(t) => [t]
    case Mult(l, r) => Factors(l) + Factors(r)
  }

  /** A product evaluated with a given matrix for each transform and a given multiplication. */
  function Eval<A>(m: MatExpr, leaf: Transform -> A, mult: (A, A) -> A): A {
    match m
    case Leaf(t) => leaf(t)
    case Mult(l, r) => mult(Eval(l, leaf, mult), Eval(r, leaf, mult))
  }

  /** The right-nested product of a non-empty list of transforms. */
  function Product<A>(ts: seq<Transform>, leaf: Transform -> A, mult: (A, A) -> A): A
    requires |ts| > 0
  {
    if |ts| == 1 then leaf(ts[0]) else mult(leaf(ts[0]), Product(ts[1..], leaf, mult))
  }

  ghost predicate Associative<A(!new)>(mult: (A, A) -> A) {
    forall a, b, c :: mult(mult(a, b), c) == mult(a, mult(b, c))
  }

  lemma {:induction false} ProductAppend<A(!new)>(s: seq<Transform>, t: seq<Transform>, leaf: Transform -> A, mult: (A, A) -> A)
    requires Associative(mult)
    requires |s| > 0 && |t| > 0
    ensures Product(s + t, leaf, mult) == mult(Product(s, leaf, mult), Product(t, leaf, mult))
  {
    if |s| > 1 {
      assert (s + t)[1..] == s[1..] + t;
      ProductAppend(s[1..], t, leaf, mult);
    } else {
      assert (s + t)[1..] == t;
    }
  }

  /** Under any associative multiplication a product is the product of its factors in order,
      however the `mult` calls were bracketed. */
  lemma {:induction false} EvalIsProduct<A(!new)>(m: MatExpr, leaf: Transform -> A, mult: (A, A) -> A)
    requires Associative(mult)
    ensures |Factors(m)| > 0
    ensures Eval(m, leaf, mult) == Product(Factors(m), leaf, mult)
  {
    match m
    case Leaf(t) =>
    case Mult(l, r) =>
      EvalIsProduct(l, leaf, mult);
      EvalIsProduct(r, leaf, mult);
      ProductAppend(Factors(l), Factors(r), leaf, mult);
  }

  // ---------------------------------------------------------------------------------------
  // SceneObject
  // ---------------------------------------------------------------------------------------

  /** A scene object drawn with a mesh of type `M`; the mesh is shared, never inspected. */
  class SceneObject<M> {
    var mesh: M
    var position: Vec3
    var rotation: Vec3
    var scale: Vec3
    var ambient: Vec3
    var diffuse: Vec3
    var specular: Vec3

    /** Each field takes its option when present, otherwise a fresh default: position and
        rotation (0,0,0), scale (1,1,1), ambient (1,1,1), specular (1,1,1). The ambient vector
        is then scaled by 0.25 in place, so a supplied one is changed for the caller too. An
        absent diffuse becomes a fresh 1.2 times the scaled ambient. Every default is a vector of
        its own, shared with no other field. Nothing else changes. */
    constructor (mesh: M, options: ShapeOptions)
      modifies AmbientFrame(options)
      ensures this.mesh == mesh
      ensures options.position.Some? ==> position == options.position.value
      ensures options.position.None? ==> fresh(position) && position.Value() == V3(0.0, 0.0, 0.0)
      ensures options.rotation.Some? ==> rotation == options.rotation.value
      ensures options.rotation.None? ==> fresh(rotation) && rotation.Value() == V3(0.0, 0.0, 0.0)
      ensures options.scale.Some? ==> scale == options.scale.value
      ensures options.scale.None? ==> fresh(scale) && scale.Value() == V3(1.0, 1.0, 1.0)
      ensures options.ambient.Some? ==> ambient == options.ambient.value
      ensures options.ambient.None? ==> fresh(ambient)
      ensures ambient.Value() ==
        Times(AmbientFactor, if options.ambient.Some? then old(options.ambient.value.Value()) else V3(1.0, 1.0, 1.0))
      ensures options.diffuse.Some? ==> diffuse == options.diffuse.value
      ensures options.diffuse.None? ==> fresh(diffuse) && diffuse.Value() == Times(DiffuseFactor, ambient.Value())
      ensures options.specular.Some? ==> specular == options.specular.value
      ensures options.specular.None? ==> fresh(specular) && specular.Value() == V3(1.0, 1.0, 1.0)
      ensures options.position.None? ==>
        position != rotation && position != scale && position != ambient && position != diffuse && position != specular
      ensures options.rotation.None? ==>
        rotation != position && rotation != scale && rotation != ambient && rotation != diffuse && rotation != specular
      ensures options.scale.None? ==>
        scale != position && scale != rotation && scale != ambient && scale != diffuse && scale != specular
      ensures options.ambient.None? ==>
        ambient != position && ambient != rotation && ambient != scale && ambient != diffuse && ambient != specular
      ensures options.diffuse.None? ==>
        diffuse != position && diffuse != rotation && diffuse != scale && diffuse != ambient && diffuse != specular
      ensures options.specular.None? ==>
        specular != position && specular != rotation && specular != scale && specular != ambient && specular != diffuse
    {
      this.mesh := mesh;
      var position, rotation, scale := InitPose(options);
      var ambient, diffuse, specular := InitMaterial(options);
      this.position, this.rotation, this.scale := position, rotation, scale;
      this.ambient, this.diffuse, this.specular := ambient, diffuse, specular;
    }

    /** `getModelMatrix`: translation times (Rz times Ry, times Rx), times scale, built from the
        current pose; as a list of factors, T, Rz, Ry, Rx, S. */
    function ModelMatrix(): (m: MatExpr)
      reads this, position, rotation, scale
      ensures Factors(m) ==
        [ Translation(position.Value()), Rotation(Z, rotation.z), Rotation(Y, rotation.y),
          Rotation(X, rotation.x), Scaling(scale.Value()) ]
    {
      var sMat := Leaf(Scaling(scale.Value()));
      var tMat := Leaf(Translation(position.Value()));
      var rMatX := Leaf(Rotation(X, rotation.x));
      var rMatY := Leaf(Rotation(Y, rotation.y));
      var rMatZ := Leaf(Rotation(Z, rotation.z));
      var rMat := Mult(Mult(rMatZ, rMatY), rMatX);
      assert Factors(Mult(rMatZ, rMatY)) == [rMatZ.t] + [rMatY.t];
      assert Factors(rMat) == [rMatZ.t] + [rMatY.t] + [rMatX.t];
      assert Factors(Mult(tMat, rMat)) == [tMat.t] + Factors(rMat);
      Mult(Mult(tMat, rMat), sMat)
    }
  }

  /** For any associative matrix product, the model matrix scales first, then rotates about x,
      then y, then z, then translates: T (Rz (Ry (Rx S))). */
  lemma ModelMatrixOrder<M, A(!new)>(o: SceneObject<M>, leaf: Transform -> A, mult: (A, A) -> A)
    requires Associative(mult)
    ensures Eval(o.ModelMatrix(), leaf, mult) ==
      mult(leaf(Translation(o.position.Value())),
        mult(leaf(Rotation(Z, o.rotation.z)),
          mult(leaf(Rotation(Y, o.rotation.y)),
            mult(leaf(Rotation(X, o.rotation.x)), leaf(Scaling(o.scale.Value()))))))
  {
    var m := o.ModelMatrix();
    EvalIsProduct(m, leaf, mult);
    var fs := Factors(m);
    assert fs[4..] == [fs[4]];
    assert fs[3..][1..] == fs[4..] && fs[2..][1..] == fs[3..] && fs[1..][1..] == fs[2..];
    assert Product(fs[3..], leaf, mult) == mult(leaf(fs[3]), leaf(fs[4]));
    assert Product(fs[2..], leaf, mult) == mult(leaf(fs[2]), Product(fs[3..], leaf, mult));
    assert Product(fs[1..], leaf, mult) == mult(leaf(fs[1]), Product(fs[2..], leaf, mult));
  }

  /** With no rotation and unit scale the model matrix is the translation by the position,
      whenever zero-angle rotations and unit scaling are the identity of the product. */
  lemma ModelMatrixOfPlainPose<M, A(!new)>(o: SceneObject<M>, leaf: Transform -> A, mult: (A, A) -> A, id: A)
    requires Associative(mult)
    requires forall a :: mult(id, a) == a && mult(a, id) == a
    requires forall axis :: leaf(Rotation(axis, 0.0)) == id
    requires leaf(Scaling(V3(1.0, 1.0, 1.0))) == id
    requires o.rotation.Value() == V3(0.0, 0.0, 0.0) && o.scale.Value() == V3(1.0, 1.0, 1.0)
    ensures Eval(o.ModelMatrix(), leaf, mult) == leaf(Translation(o.position.Value()))
  {
    ModelMatrixOrder(o, leaf, mult);
  }

  /** Constructing with no options gives ambient (0.25,0.25,0.25), diffuse (0.3,0.3,0.3) and
      specular (1,1,1), at the origin, unrotated, at unit scale. */
  method DefaultMaterial<M>(mesh: M) returns (o: SceneObject<M>)
    ensures o.ambient.Value() == V3(0.25, 0.25, 0.25)
    ensures o.diffuse.Value() == V3(0.3, 0.3, 0.3)
    ensures o.specular.Value() == V3(1.0, 1.0, 1.0)
    ensures o.position.Value() == V3(0.0, 0.0, 0.0) && o.rotation.Value() == V3(0.0, 0.0, 0.0)
    ensures o.scale.Value() == V3(1.0, 1.0, 1.0)
  {
    o := new SceneObject(mesh, NoOptions);
  }

  /** Handing one ambient vector to two constructions scales it twice: both objects end up
      sharing a vector at 1/16 of its original value. */
  method ReusedAmbient<M>(mesh: M, v: Vec3) returns (o1: SceneObject<M>, o2: SceneObject<M>)
    modifies v
    ensures o1.ambient == v && o2.ambient == v
    ensures v.Value() == Times(0.0625, old(v.Value()))
  {
    var options := ShapeOptions(None, None, None, Some(v), None, None);
    o1 := new SceneObject(mesh, options);
    o2 := new SceneObject(mesh, options);
  }
}

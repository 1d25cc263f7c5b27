/** Immutable vector values of the `mv-redux` library (`vec2`, `vec3`, `vec4`) as they are
    used inside vertex records. Components are exact reals; the `Float32Array` that the
    vertex data finally lands in is not modelled. */
module Vectors {

  datatype V2 = V2(u: real, v: real)

  datatype V3 = V3(x: real, y: real, z: real)

  datatype V4 = V4(x: real, y: real, z: real, w: real)

  /** The numbers `Array.prototype.flat` produces for each vector, in component order. */
  function V2Fields(p: V2): seq<real> {
    [p.u, p.v]
  }

  function V3Fields(p: V3): seq<real> {
    [p.x, p.y, p.z]
  }

  function V4Fields(p: V4): seq<real> {
    [p.x, p.y, p.z, p.w]
  }

  /** One of the six axis-aligned unit vectors: a single component is +1 or -1, the rest 0. */
  predicate IsAxisUnit(n: V3) {
    || (n.x in {1.0, -1.0} && n.y == 0.0 && n.z == 0.0)
    || (n.x == 0.0 && n.y in {1.0, -1.0} && n.z == 0.0)
    || (n.x == 0.0 && n.y == 0.0 && n.z in {1.0, -1.0})
  }
}

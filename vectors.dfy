/** Optional values, for the source's nullable references. */
module Wrappers {
  datatype Option<+T> = None | Some(value: T)
}

/** Three-component vectors over the reals, standing in for the vector library's Vec3f. */
module Vectors {
  datatype Vec3 = Vec3(x: real, y: real, z: real) {
    function Plus(o: Vec3): Vec3 { Vec3(x + o.x, y + o.y, z + o.z) }
    function Minus(o: Vec3): Vec3 { Vec3(x - o.x, y - o.y, z - o.z) }
    function Times(c: real): Vec3 { Vec3(x * c, y * c, z * c) }
    function Over(c: real): Vec3 requires c != 0.0 { Vec3(x / c, y / c, z / c) }
    function LengthSquared(): real { x * x + y * y + z * z }
    /** The same vector with its third component replaced (the source's `v.z = ...`). */
    function WithZ(z': real): Vec3 { Vec3(x, y, z') }
  }

  const Zero := Vec3(0.0, 0.0, 0.0)
}

/** The elementary functions of the estimates, passed in as values. */
module Elementaries {
  /**
   * The elementary functions the estimates call, passed in. `Sound` lists the facts about
   * them the model relies on, each true of the real exponential, logarithm and square root.
   */
  datatype Elementary = Elementary(exp: real -> real, log: real -> real, sqrt: real -> real)

  ghost predicate Sound(e: Elementary)
  {
    e.exp(0.0) == 1.0 &&
    (forall x :: 0.0 < e.exp(x)) &&
    (forall x :: x > 0.0 ==> e.exp(x) > 1.0) &&
    (forall x :: x < 0.0 ==> e.exp(x) < 1.0) &&
    (forall x :: x > 0.0 ==> e.exp(e.log(x)) == x) &&
    e.sqrt(0.0) == 0.0 &&
    (forall x :: x >= 0.0 ==> e.sqrt(x) >= 0.0 && e.sqrt(x) * e.sqrt(x) == x)
  }
}

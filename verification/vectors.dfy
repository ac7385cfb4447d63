/** Three-component vectors over the reals, the coordinate axes, and an
    optional value. Every position, velocity and block centre of the model
    is a `Vec3`; `float` coordinates are modelled as exact reals. */
module Vectors {

  datatype Option<T> = None | Some(value: T)

  datatype Axis = X | Y | Z

  datatype Vec3 = Vec3(x: real, y: real, z: real) {

    /** The component along axis `a`. */
    function Get(a: Axis): real {
      match a
      case X => x
      case Y => y
      case Z => z
    }

    /** This vector with the component along `a` replaced by `v`. */
    function With(a: Axis, v: real): (r: Vec3)
      ensures r.Get(a) == v
      ensures forall b: Axis :: b != a ==> r.Get(b) == Get(b)
    {
      match a
      case X => this.(x := v)
      case Y => this.(y := v)
      case Z => this.(z := v)
    }

    function Add(o: Vec3): Vec3 {
      Vec3(x + o.x, y + o.y, z + o.z)
    }

    function Sub(o: Vec3): Vec3 {
      Vec3(x - o.x, y - o.y, z - o.z)
    }

    function Scale(k: real): Vec3 {
      Vec3(k * x, k * y, k * z)
    }

    /** Squared Euclidean length. */
    function LenSq(): real {
      x * x + y * y + z * z
    }
  }

  const Zero: Vec3 := Vec3(0.0, 0.0, 0.0)

  /** Cross product, as libGDX's `Vector3.crs`. */
  function Cross(a: Vec3, b: Vec3): Vec3 {
    Vec3(a.y * b.z - a.z * b.y, a.z * b.x - a.x * b.z, a.x * b.y - a.y * b.x)
  }

  function Max(a: real, b: real): real {
    if a >= b then a else b
  }

  function Min(a: real, b: real): real {
    if a <= b then a else b
  }
}

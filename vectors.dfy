/** The small vector and colour values a particle carries (THREE.Vector3 and
    THREE.Color reduced to their components), over exact reals. */
module Vectors {

  datatype Vec3 = Vec3(x: real, y: real, z: real)

  datatype Rgb = Rgb(r: real, g: real, b: real)

  const Zero := Vec3(0.0, 0.0, 0.0)

  function Add(a: Vec3, b: Vec3): Vec3 {
    Vec3(a.x + b.x, a.y + b.y, a.z + b.z)
  }

  function Scale(a: Vec3, s: real): Vec3 {
    Vec3(a.x * s, a.y * s, a.z * s)
  }

  /** `color.setRGB(v.x, v.y, v.z)`. */
  function RGB(v: Vec3): Rgb {
    Rgb(v.x, v.y, v.z)
  }

  /** The colour's components as a vector, the inverse of RGB. */
  function ColorVector(c: Rgb): (v: Vec3)
    ensures RGB(v) == c
  {
    Vec3(c.r, c.g, c.b)
  }

}

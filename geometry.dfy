/** The plain value types shared by the mesh and the model (src/mesh.hpp,
    src/model.hpp). Floats are modelled as reals. */
module Geometry {

  /** glm::vec3 */
  datatype Vec3 = Vec3(x: real, y: real, z: real)

  /** glm::vec2 */
  datatype Vec2 = Vec2(x: real, y: real)

  /** struct Vertex: position, normal and texture coordinates. */
  datatype Vertex = Vertex(position: Vec3, normal: Vec3, textureCoords: Vec2)

  /** struct Texture: the GL texture name, its semantic type ("diffuse",
      "specular") and the path it was loaded from, used as the cache key. */
  datatype Texture = Texture(id: nat, typeName: string, filepath: string)

  /** The axis constants X, Y and Z (0, 1 and 2 in the source). */
  datatype Axis = X | Y | Z

  /** The component of `p` along axis `a`. */
  function Coord(p: Vec3, a: Axis): real
  {
    match a
    case X => p.x
    case Y => p.y
    case Z => p.z
  }

  function Abs(r: real): (a: real)
    ensures a >= 0.0 && (a == r || a == -r)
  {
    if r < 0.0 then -r else r
  }

  function Add(a: Vec3, b: Vec3): Vec3
  {
    Vec3(a.x + b.x, a.y + b.y, a.z + b.z)
  }

  function Sub(a: Vec3, b: Vec3): Vec3
  {
    Vec3(a.x - b.x, a.y - b.y, a.z - b.z)
  }

  function Scale(v: Vec3, s: real): Vec3
  {
    Vec3(v.x * s, v.y * s, v.z * s)
  }
}

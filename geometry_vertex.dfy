// The vertex record meshes are made of. Coordinates are f32 in the source and real numbers
// here.
module GeometryVertex {
  datatype Vec2 = Vec2(x: real, y: real)

  datatype Vec3 = Vec3(x: real, y: real, z: real)

  const ZERO2 := Vec2(0.0, 0.0)
  const ZERO3 := Vec3(0.0, 0.0, 0.0)

  datatype Vertex = Vertex(position: Vec3, normal: Vec3, texcoord: Vec2, tangent: Vec3)

  function NewVertex(position: Vec3, normal: Vec3, texcoord: Vec2, tangent: Vec3): (v: Vertex)
    ensures v.position == position && v.normal == normal
    ensures v.texcoord == texcoord && v.tangent == tangent
  {
    Vertex(position, normal, texcoord, tangent)
  }
}

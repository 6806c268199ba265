// The vertex the forward renderer draws: position, normal and colour, and its conversion from
// a loaded mesh vertex.
module RenderVertex {
  import opened GeometryVertex

  datatype MyVertex = MyVertex(position: Vec3, normal: Vec3, color: Vec3)

  /** `MyVertex::new`: nine numbers, three per field, in field order. */
  function New(px: real, py: real, pz: real, nx: real, ny: real, nz: real, r: real, g: real, b: real): (v: MyVertex)
    ensures v.position == Vec3(px, py, pz)
    ensures v.normal == Vec3(nx, ny, nz)
    ensures v.color == Vec3(r, g, b)
  {
    MyVertex(Vec3(px, py, pz), Vec3(nx, ny, nz), Vec3(r, g, b))
  }

  /** `MyVertex::from_vectors`: copies each vector's components into the matching field. */
  function FromVectors(position: Vec3, normal: Vec3, color: Vec3): (v: MyVertex)
    ensures v == New(position.x, position.y, position.z, normal.x, normal.y, normal.z, color.x, color.y, color.z)
  {
    MyVertex(Vec3(position.x, position.y, position.z), Vec3(normal.x, normal.y, normal.z),
             Vec3(color.x, color.y, color.z))
  }

  const WHITE := Vec3(1.0, 1.0, 1.0)

  /** `convert_geometry_vertex`: the mesh vertex's position and normal, coloured white. */
  function ConvertGeometryVertex(v: Vertex): (r: MyVertex)
    ensures r.position == v.position && r.normal == v.normal && r.color == WHITE
  {
    MyVertex(v.position, v.normal, WHITE)
  }

  /** `create_default_triangle`: a red, a green and a blue corner in the z = 0 plane, facing +z. */
  function CreateDefaultTriangle(): (t: seq<MyVertex>)
    ensures |t| == 3
  {
    [New(0.0, 0.5, 0.0, 0.0, 0.0, 1.0, 1.0, 0.0, 0.0),
     New(0.5, -0.5, 0.0, 0.0, 0.0, 1.0, 0.0, 1.0, 0.0),
     New(-0.5, -0.5, 0.0, 0.0, 0.0, 1.0, 0.0, 0.0, 1.0)]
  }

  /** `from_vectors` and `new` agree, and a vertex is rebuilt from its own three vectors. */
  lemma FromVectorsRebuilds(v: MyVertex)
    ensures FromVectors(v.position, v.normal, v.color) == v
  {
  }

  /**
   * Conversion keeps what the renderer draws with and forgets the rest: two mesh vertices
   * convert alike exactly when their positions and normals agree.
   */
  lemma ConvertForgetsTexcoordAndTangent(a: Vertex, b: Vertex)
    ensures ConvertGeometryVertex(a) == ConvertGeometryVertex(b) <==>
      a.position == b.position && a.normal == b.normal
  {
  }

  /**
   * The default triangle: its corners lie in the z = 0 plane, all face +z, are pairwise
   * distinct, and carry the three primary colours in order red, green, blue.
   */
  lemma DefaultTriangleShape()
    ensures forall k :: 0 <= k < 3 ==> CreateDefaultTriangle()[k].position.z == 0.0
    ensures forall k :: 0 <= k < 3 ==> CreateDefaultTriangle()[k].normal == Vec3(0.0, 0.0, 1.0)
    ensures forall i, j :: 0 <= i < j < 3 ==> CreateDefaultTriangle()[i].position != CreateDefaultTriangle()[j].position
    ensures CreateDefaultTriangle()[0].color == Vec3(1.0, 0.0, 0.0)
    ensures CreateDefaultTriangle()[1].color == Vec3(0.0, 1.0, 0.0)
    ensures CreateDefaultTriangle()[2].color == Vec3(0.0, 0.0, 1.0)
  {
  }

  /**
   * Twice the signed area of the default triangle in the xy-plane: non-zero, so the three
   * corners are not collinear.
   */
  lemma DefaultTriangleIsNotDegenerate()
    ensures var t := CreateDefaultTriangle();
      (t[1].position.x - t[0].position.x) * (t[2].position.y - t[0].position.y)
      - (t[2].position.x - t[0].position.x) * (t[1].position.y - t[0].position.y) == -1.0
  {
  }
}

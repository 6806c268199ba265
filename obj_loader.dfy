// The Wavefront OBJ loader: every model the OBJ parser returns is appended to one mesh, its
// indices shifted past the vertices already present, with one subset per model; the merged
// mesh must then pass validation. The parser itself is not modelled: its output is an input.
module ObjLoader {
  import opened Wrappers
  import opened Ints
  import opened Errors
  import opened Decimal
  import opened GeometryVertex
  import opened Mesh
  import opened Paths

  /**
   * One model as the parser returns it with triangulation and a single index per vertex:
   * flat position, normal and texture-coordinate arrays and a triangle index list.
   */
  datatype ObjModel = ObjModel(positions: seq<real>, normals: seq<real>, texcoords: seq<real>, indices: seq<u32>)

  /** The three buffers of a mesh, as values. */
  datatype Buffers = Buffers(vertices: seq<Vertex>, indices: seq<u32>, subsets: seq<Subset>)

  // ---------------------------------------------------------------- one model

  /**
   * The `i`-th vertex of a model: its position; its normal when the normal array reaches it,
   * else zero; its texture coordinate with V flipped when the texture array reaches it, else
   * zero; a zero tangent.
   */
  function ModelVertex(m: ObjModel, i: nat): Vertex
    requires i < |m.positions| / 3
  {
    var position := Vec3(m.positions[i * 3], m.positions[i * 3 + 1], m.positions[i * 3 + 2]);
    var normal :=
      if |m.normals| > 0 && |m.normals| >= (i + 1) * 3 then
        Vec3(m.normals[i * 3], m.normals[i * 3 + 1], m.normals[i * 3 + 2])
      else ZERO3;
    var texcoord :=
      if |m.texcoords| > 0 && |m.texcoords| >= (i + 1) * 2 then
        Vec2(m.texcoords[i * 2], 1.0 - m.texcoords[i * 2 + 1])
      else ZERO2;
    Vertex(position, normal, texcoord, ZERO3)
  }

  function ModelVertices(m: ObjModel): (vs: seq<Vertex>)
    ensures |vs| == |m.positions| / 3
  {
    seq(|m.positions| / 3, i requires 0 <= i < |m.positions| / 3 => ModelVertex(m, i))
  }

  /** The position array of a vertex sequence: three coordinates per vertex. */
  function Positions(vs: seq<Vertex>): (ps: seq<real>)
    decreases |vs|
    ensures |ps| == 3 * |vs|
  {
    if |vs| == 0 then []
    else
      var p := vs[|vs| - 1].position;
      Positions(vs[..|vs| - 1]) + [p.x, p.y, p.z]
  }

  /** The texture-coordinate array of a vertex sequence, with V flipped back. */
  function UnflippedTexcoords(vs: seq<Vertex>): (ts: seq<real>)
    decreases |vs|
    ensures |ts| == 2 * |vs|
  {
    if |vs| == 0 then []
    else
      var t := vs[|vs| - 1].texcoord;
      UnflippedTexcoords(vs[..|vs| - 1]) + [t.x, 1.0 - t.y]
  }

  /** The first `n` vertices of a model carry its first `3n` position values, in order. */
  lemma {:induction false} PositionsPrefix(m: ObjModel, n: nat)
    requires n <= |m.positions| / 3
    ensures Positions(ModelVertices(m)[..n]) == m.positions[..3 * n]
  {
    if n > 0 {
      PositionsPrefix(m, n - 1);
      assert ModelVertices(m)[..n][..n - 1] == ModelVertices(m)[..n - 1];
      assert m.positions[..3 * n] == m.positions[..3 * (n - 1)] + [m.positions[3 * n - 3], m.positions[3 * n - 2], m.positions[3 * n - 1]];
    }
  }

  /** A model's vertices give back its position array: no coordinate is lost or moved. */
  lemma PositionsRoundTrip(m: ObjModel)
    requires |m.positions| % 3 == 0
    ensures Positions(ModelVertices(m)) == m.positions
  {
    PositionsPrefix(m, |m.positions| / 3);
    assert ModelVertices(m)[..|m.positions| / 3] == ModelVertices(m);
    assert m.positions[..3 * (|m.positions| / 3)] == m.positions;
  }

  /** The first `n` vertices carry the first `2n` texture values, V flipped, when the array reaches them. */
  lemma {:induction false} TexcoordsPrefix(m: ObjModel, n: nat)
    requires n <= |m.positions| / 3 && 2 * n <= |m.texcoords|
    ensures UnflippedTexcoords(ModelVertices(m)[..n]) == m.texcoords[..2 * n]
  {
    if n > 0 {
      TexcoordsPrefix(m, n - 1);
      assert ModelVertices(m)[..n][..n - 1] == ModelVertices(m)[..n - 1];
      assert m.texcoords[..2 * n] == m.texcoords[..2 * (n - 1)] + [m.texcoords[2 * n - 2], m.texcoords[2 * n - 1]];
    }
  }

  /**
   * When the texture array covers every vertex, flipping V back on the model's vertices gives
   * the array back.
   */
  lemma TexcoordsRoundTrip(m: ObjModel)
    requires |m.texcoords| == 2 * (|m.positions| / 3)
    ensures UnflippedTexcoords(ModelVertices(m)) == m.texcoords
  {
    TexcoordsPrefix(m, |m.positions| / 3);
    assert ModelVertices(m)[..|m.positions| / 3] == ModelVertices(m);
  }

  /** Without normals or texture coordinates, every vertex has zero normal and texture coordinate. */
  lemma MissingAttributesAreZero(m: ObjModel, i: nat)
    requires i < |m.positions| / 3 && |m.normals| == 0 && |m.texcoords| == 0
    ensures ModelVertices(m)[i].normal == ZERO3 && ModelVertices(m)[i].texcoord == ZERO2
    ensures ModelVertices(m)[i].tangent == ZERO3
  {
  }

  /** Every shifted index fits in a u32; otherwise the addition panics in a debug build. */
  predicate ShiftFits(start: u32, indices: seq<u32>) {
    forall j :: 0 <= j < |indices| ==> start + indices[j] <= U32_MAX
  }

  function Shifted(indices: seq<u32>, start: u32): (r: seq<u32>)
    requires ShiftFits(start, indices)
    ensures |r| == |indices|
  {
    seq(|indices|, j requires 0 <= j < |indices| => start + indices[j])
  }

  function InvalidGeometryError(positionCount: nat): DistRenderError {
    MeshLoading(InvalidGeometry("顶点位置数据不完整: " + NatToString(positionCount) + " 个浮点数"))
  }

  /** Appends model number `id` to the buffers, as one pass of the loader's model loop does. */
  function AddModel(b: Buffers, m: ObjModel, id: nat): Outcome<Result<Buffers, DistRenderError>> {
    if |m.positions| % 3 != 0 then Returned(Err(InvalidGeometryError(|m.positions|)))
    else
      var vertexStart := TruncateU32(|b.vertices|);
      if !ShiftFits(vertexStart, m.indices) then Panic
      else
        var subset := Subset(TruncateU32(id), vertexStart, TruncateU32(|m.positions| / 3),
                             TruncateU32(|b.indices| / 3), TruncateU32(|m.indices| / 3));
        Returned(Ok(Buffers(b.vertices + ModelVertices(m),
                            b.indices + Shifted(m.indices, vertexStart),
                            b.subsets + [subset])))
  }

  /** The buffers after the model loop has run over `models`, or the first error, or a panic. */
  function Assemble(models: seq<ObjModel>): Outcome<Result<Buffers, DistRenderError>>
    decreases |models|
  {
    if |models| == 0 then Returned(Ok(Buffers([], [], [])))
    else
      var prior := Assemble(models[..|models| - 1]);
      if prior.Returned? && prior.value.Ok? then AddModel(prior.value.value, models[|models| - 1], |models| - 1)
      else prior
  }

  // ---------------------------------------------------------------- the whole load

  predicate AnyNormals(models: seq<ObjModel>) {
    exists k :: 0 <= k < |models| && |models[k].normals| > 0
  }

  predicate AnyTexcoords(models: seq<ObjModel>) {
    exists k :: 0 <= k < |models| && |models[k].texcoords| > 0
  }

  /**
   * Normal reconstruction (run when no model has normals) and tangent computation (run when
   * some model has texture coordinates) index the vertex buffer with every index of every
   * whole triangle, before validation, and panic on an index past the end.
   */
  predicate PostProcessingPanics(models: seq<ObjModel>, b: Buffers) {
    (!AnyNormals(models) || AnyTexcoords(models)) &&
    exists p :: 0 <= p < |b.indices| / 3 * 3 && b.indices[p] >= |b.vertices|
  }

  function MeshNameOf(path: Path): string {
    match FileStem(path)
    case Some(stem) => stem
    case None => "Unnamed"
  }

  /**
   * What `load_from_file` does with a path that does or does not exist and with the parser's
   * result: the file check, the parser error, the empty-model check, the model loop, the
   * panics of post-processing and of validation as written, and validation's verdict.
   */
  function LoadSpec(path: Path, pathExists: bool, parsed: Result<seq<ObjModel>, string>)
    : Outcome<Result<Buffers, DistRenderError>>
  {
    if !pathExists then Returned(Err(MeshLoading(MeshFileNotFound(path.text))))
    else if parsed.Err? then Returned(Err(MeshLoading(MeshParseError("tobj 解析失败: " + parsed.error))))
    else if |parsed.value| == 0 then Returned(Err(MeshLoading(ValidationError("OBJ 文件不包含任何模型"))))
    else match Assemble(parsed.value)
      case Panic => Panic
      case Returned(Err(e)) => Returned(Err(e))
      case Returned(Ok(b)) => ValidatedLoad(parsed.value, b)
  }

  /** The end of the load, once the model loop has produced `b`: post-processing, validation. */
  function ValidatedLoad(models: seq<ObjModel>, b: Buffers): Outcome<Result<Buffers, DistRenderError>> {
    if PostProcessingPanics(models, b) then Panic
    else match ValidateAsWritten(|b.vertices|, b.indices, b.subsets)
      case Panic => Panic
      case Returned(Err(f)) => Returned(Err(MeshLoading(ValidationError(ValidationMessage(f)))))
      case Returned(Ok(_)) => Returned(Ok(b))
  }

  /** Post-processing rewrites normals and tangents; positions and texture coordinates stay. */
  predicate SameSurface(a: seq<Vertex>, b: seq<Vertex>) {
    |a| == |b| &&
    forall i :: 0 <= i < |a| ==> a[i].position == b[i].position && a[i].texcoord == b[i].texcoord
  }

  /** An error of the first `k` models is the error of all of them. */
  lemma {:induction false} AssemblePrefix(models: seq<ObjModel>, k: nat)
    requires k <= |models|
    decreases |models|
    ensures !(Assemble(models[..k]).Returned? && Assemble(models[..k]).value.Ok?) ==>
      Assemble(models) == Assemble(models[..k])
  {
    if k < |models| {
      var n := |models| - 1;
      assert models[..n][..k] == models[..k];
      AssemblePrefix(models[..n], k);
    } else {
      assert models[..k] == models;
    }
  }

  lemma AssembleStep(models: seq<ObjModel>, k: nat, b: Buffers)
    requires k < |models| && Assemble(models[..k]) == Returned(Ok(b))
    ensures Assemble(models[..k + 1]) == AddModel(b, models[k], k)
  {
    assert models[..k + 1][..k] == models[..k];
  }

  // ---------------------------------------------------------------- layout of the merged mesh

  /** Number of vertices the models contribute. */
  function VertexTotal(models: seq<ObjModel>): nat
    decreases |models|
  {
    if |models| == 0 then 0 else VertexTotal(models[..|models| - 1]) + |models[|models| - 1].positions| / 3
  }

  /** Number of indices the models contribute. */
  function IndexTotal(models: seq<ObjModel>): nat
    decreases |models|
  {
    if |models| == 0 then 0 else IndexTotal(models[..|models| - 1]) + |models[|models| - 1].indices|
  }

  /** Every model's indices, shifted past the vertices of the models before it, fit in a u32. */
  predicate IndicesFit(models: seq<ObjModel>)
    decreases |models|
  {
    |models| == 0 ||
    (IndicesFit(models[..|models| - 1]) &&
     ShiftFits(TruncateU32(VertexTotal(models[..|models| - 1])), models[|models| - 1].indices))
  }

  /** The merged vertex buffer: each model's vertices after those of the models before it. */
  function MergedVertices(models: seq<ObjModel>): (vs: seq<Vertex>)
    decreases |models|
    ensures |vs| == VertexTotal(models)
  {
    if |models| == 0 then [] else MergedVertices(models[..|models| - 1]) + ModelVertices(models[|models| - 1])
  }

  /** The merged index buffer: each model's indices, shifted by the model's first vertex. */
  function MergedIndices(models: seq<ObjModel>): (ix: seq<u32>)
    requires IndicesFit(models)
    decreases |models|
    ensures |ix| == IndexTotal(models)
  {
    if |models| == 0 then []
    else
      var prior := models[..|models| - 1];
      MergedIndices(prior) + Shifted(models[|models| - 1].indices, TruncateU32(VertexTotal(prior)))
  }

  /**
   * The subset recorded for model `k`: numbered `k`, starting at the vertices and triangles
   * of the models before it, spanning its own vertices and triangles.
   */
  function SubsetFor(models: seq<ObjModel>, k: nat): Subset
    requires k < |models|
  {
    Subset(TruncateU32(k), TruncateU32(VertexTotal(models[..k])), TruncateU32(|models[k].positions| / 3),
           TruncateU32(IndexTotal(models[..k]) / 3), TruncateU32(|models[k].indices| / 3))
  }

  function MergedSubsets(models: seq<ObjModel>): (ss: seq<Subset>)
    ensures |ss| == |models|
  {
    seq(|models|, k requires 0 <= k < |models| => SubsetFor(models, k))
  }

  /**
   * A merge that neither fails nor panics produces exactly the merged buffers: the model loop
   * computes the closed form.
   */
  lemma {:induction false} AssembleClosedForm(models: seq<ObjModel>, b: Buffers)
    requires Assemble(models) == Returned(Ok(b))
    decreases |models|
    ensures IndicesFit(models)
    ensures b == Buffers(MergedVertices(models), MergedIndices(models), MergedSubsets(models))
  {
    if |models| > 0 {
      var n := |models| - 1;
      var prior := models[..n];
      var r := Assemble(prior);
      assert r.Returned? && r.value.Ok?;
      var b0 := r.value.value;
      AssembleClosedForm(prior, b0);
      assert AddModel(b0, models[n], n) == Returned(Ok(b));
      assert models[..n] == prior;
      assert b.subsets == b0.subsets + [SubsetFor(models, n)];
      MergedSubsetsStep(models);
    }
  }

  lemma MergedSubsetsStep(models: seq<ObjModel>)
    requires |models| > 0
    ensures MergedSubsets(models) == MergedSubsets(models[..|models| - 1]) + [SubsetFor(models, |models| - 1)]
  {
    var n := |models| - 1;
    var prior := models[..n];
    forall k | 0 <= k < n ensures SubsetFor(prior, k) == SubsetFor(models, k) {
      assert prior[..k] == models[..k] && prior[k] == models[k];
    }
  }

  /** Vertex `i` of model `k` sits after the vertices of the models before it. */
  lemma {:induction false} MergedVertexAt(models: seq<ObjModel>, k: nat, i: nat)
    requires k < |models| && i < |models[k].positions| / 3
    decreases |models|
    ensures VertexTotal(models[..k]) + i < |MergedVertices(models)|
    ensures MergedVertices(models)[VertexTotal(models[..k]) + i] == ModelVertices(models[k])[i]
  {
    var n := |models| - 1;
    var prior := models[..n];
    var before := MergedVertices(prior);
    assert MergedVertices(models) == before + ModelVertices(models[n]);
    if k < n {
      assert prior[..k] == models[..k] && prior[k] == models[k];
      MergedVertexAt(prior, k, i);
      assert VertexTotal(models[..k]) + i < |before|;
    } else {
      assert models[..k] == prior;
      assert VertexTotal(models[..k]) == |before|;
    }
  }

  /** Index `j` of model `k` sits after the indices of the models before it, shifted by its first vertex. */
  lemma {:induction false} MergedIndexAt(models: seq<ObjModel>, k: nat, j: nat)
    requires IndicesFit(models) && k < |models| && j < |models[k].indices|
    decreases |models|
    ensures IndexTotal(models[..k]) + j < |MergedIndices(models)|
    ensures MergedIndices(models)[IndexTotal(models[..k]) + j] ==
      TruncateU32(VertexTotal(models[..k])) + models[k].indices[j]
  {
    var n := |models| - 1;
    var prior := models[..n];
    if k < n {
      MergedIndexAt(prior, k, j);
      assert prior[..k] == models[..k] && prior[k] == models[k];
    } else {
      assert models[..k] == prior;
      var shifted := Shifted(models[n].indices, TruncateU32(VertexTotal(prior)));
      assert MergedIndices(models)[|MergedIndices(prior)| + j] == shifted[j];
    }
  }

  predicate ModelWellFormed(m: ObjModel) {
    |m.positions| % 3 == 0 && |m.indices| % 3 == 0 &&
    forall j :: 0 <= j < |m.indices| ==> m.indices[j] < |m.positions| / 3
  }

  /** Appending a well-formed model to a well-formed mesh, within u32, keeps it well formed. */
  lemma AppendKeepsWellFormed(b0: Buffers, m: ObjModel, id: nat)
    requires WellFormed(|b0.vertices|, b0.indices, b0.subsets) && ModelWellFormed(m)
    requires |b0.vertices| + |m.positions| / 3 <= U32_MAX && |b0.indices| + |m.indices| <= U32_MAX
    ensures AddModel(b0, m, id).Returned? && AddModel(b0, m, id).value.Ok?
    ensures var b := AddModel(b0, m, id).value.value; WellFormed(|b.vertices|, b.indices, b.subsets)
  {
    var vertexStart := TruncateU32(|b0.vertices|);
    assert vertexStart == |b0.vertices|;
    assert ShiftFits(vertexStart, m.indices);
    var b := AddModel(b0, m, id).value.value;
    var shifted := Shifted(m.indices, vertexStart);
    var vc := |b.vertices|;
    assert vc == |b0.vertices| + |m.positions| / 3 && TruncateU32(vc) == vc;
    assert TruncateU32(|b0.vertices|) == |b0.vertices|;
    assert |b.indices| == |b0.indices| + |m.indices|;
    assert |b.indices| / 3 == |b0.indices| / 3 + |m.indices| / 3;
    assert TruncateU32(|b.indices| / 3) == |b.indices| / 3;
    assert TruncateU32(|b0.indices| / 3) == |b0.indices| / 3;
    forall p | 0 <= p < |b.indices| ensures b.indices[p] < vc {
      if p < |b0.indices| {
        assert b.indices[p] == b0.indices[p];
      } else {
        assert b.indices[p] == shifted[p - |b0.indices|];
      }
    }
    forall j | 0 <= j < |b.subsets|
      ensures SubsetInRange(b.subsets[j], vc, TruncateU32(|b.indices| / 3))
    {
      if j < |b0.subsets| {
        assert b.subsets[j] == b0.subsets[j];
        assert SubsetInRange(b0.subsets[j], TruncateU32(|b0.vertices|), TruncateU32(|b0.indices| / 3));
      }
    }
  }

  /**
   * Models with whole vertices and whole triangles whose indices name their own vertices
   * merge, when the totals fit in u32, into a mesh that passes validation.
   */
  lemma {:induction false} AssembledMeshIsValid(models: seq<ObjModel>)
    requires forall k :: 0 <= k < |models| ==> ModelWellFormed(models[k])
    requires VertexTotal(models) <= U32_MAX && IndexTotal(models) <= U32_MAX
    decreases |models|
    ensures Assemble(models).Returned? && Assemble(models).value.Ok?
    ensures var b := Assemble(models).value.value; WellFormed(|b.vertices|, b.indices, b.subsets)
  {
    if |models| > 0 {
      var n := |models| - 1;
      assert forall k :: 0 <= k < n ==> models[..n][k] == models[k];
      AssembledMeshIsValid(models[..n]);
      var b0 := Assemble(models[..n]).value.value;
      AssembleClosedForm(models[..n], b0);
      AppendKeepsWellFormed(b0, models[n], n);
    }
  }

  /**
   * An existing file whose parser output is a non-empty list of well-formed models loads
   * without error or panic, into the merged mesh.
   */
  lemma WellFormedFileLoads(path: Path, models: seq<ObjModel>)
    requires |models| > 0
    requires forall k :: 0 <= k < |models| ==> ModelWellFormed(models[k])
    requires VertexTotal(models) <= U32_MAX && IndexTotal(models) <= U32_MAX
    ensures Assemble(models).Returned? && Assemble(models).value.Ok?
    ensures LoadSpec(path, true, Ok(models)) == Returned(Ok(Assemble(models).value.value))
  {
    AssembledMeshIsValid(models);
    var b := Assemble(models).value.value;
    assert LoadSpec(path, true, Ok(models)) == ValidatedLoad(models, b);
    assert !PostProcessingPanics(models, b);
    WellFormedDoesNotPanic(|b.vertices|, b.indices, b.subsets);
  }

  /** The loader's vertex loop for one model. */
  method AppendVertices(mesh: MeshData, model: ObjModel)
    modifies mesh
    ensures mesh.vertices == old(mesh.vertices) + ModelVertices(model)
    ensures mesh.indices == old(mesh.indices) && mesh.subsets == old(mesh.subsets) && mesh.name == old(mesh.name)
  {
    var vertexCount := |model.positions| / 3;
    var i := 0;
    while i < vertexCount
      invariant 0 <= i <= vertexCount
      invariant mesh.vertices == old(mesh.vertices) + ModelVertices(model)[..i]
      invariant mesh.indices == old(mesh.indices) && mesh.subsets == old(mesh.subsets) && mesh.name == old(mesh.name)
    {
      var position := Vec3(model.positions[i * 3], model.positions[i * 3 + 1], model.positions[i * 3 + 2]);
      var normal := ZERO3;
      if |model.normals| > 0 && |model.normals| >= (i + 1) * 3 {
        normal := Vec3(model.normals[i * 3], model.normals[i * 3 + 1], model.normals[i * 3 + 2]);
      }
      var texcoord := ZERO2;
      if |model.texcoords| > 0 && |model.texcoords| >= (i + 1) * 2 {
        texcoord := Vec2(model.texcoords[i * 2], 1.0 - model.texcoords[i * 2 + 1]);
      }
      mesh.vertices := mesh.vertices + [Vertex(position, normal, texcoord, ZERO3)];
      assert ModelVertices(model)[..i + 1] == ModelVertices(model)[..i] + [ModelVertex(model, i)];
      i := i + 1;
    }
    assert ModelVertices(model)[..vertexCount] == ModelVertices(model);
  }

  /** The loader's index loop for one model: each index shifted by the model's first vertex. */
  method AppendIndices(mesh: MeshData, indices: seq<u32>, vertexStart: u32)
    requires ShiftFits(vertexStart, indices)
    modifies mesh
    ensures mesh.indices == old(mesh.indices) + Shifted(indices, vertexStart)
    ensures mesh.vertices == old(mesh.vertices) && mesh.subsets == old(mesh.subsets) && mesh.name == old(mesh.name)
  {
    var j := 0;
    while j < |indices|
      invariant 0 <= j <= |indices|
      invariant mesh.indices == old(mesh.indices) + Shifted(indices, vertexStart)[..j]
      invariant mesh.vertices == old(mesh.vertices) && mesh.subsets == old(mesh.subsets) && mesh.name == old(mesh.name)
    {
      mesh.indices := mesh.indices + [vertexStart + indices[j]];
      assert Shifted(indices, vertexStart)[..j + 1] == Shifted(indices, vertexStart)[..j] + [vertexStart + indices[j]];
      j := j + 1;
    }
    assert Shifted(indices, vertexStart)[..j] == Shifted(indices, vertexStart);
  }

  /** One pass of the model loop: the geometry check, the vertices, the indices, the subset. */
  method AppendModel(mesh: MeshData, model: ObjModel, id: nat) returns (err: Option<DistRenderError>)
    requires !AddModel(Buffers(mesh.vertices, mesh.indices, mesh.subsets), model, id).Panic?
    modifies mesh
    ensures AddModel(old(Buffers(mesh.vertices, mesh.indices, mesh.subsets)), model, id) ==
      Returned(if err.Some? then Err(err.value) else Ok(Buffers(mesh.vertices, mesh.indices, mesh.subsets)))
    ensures mesh.name == old(mesh.name)
  {
    var vertexStart := TruncateU32(|mesh.vertices|);
    var faceStart := TruncateU32(mesh.TriangleCount());
    if |model.positions| % 3 != 0 {
      return Some(InvalidGeometryError(|model.positions|));
    }
    var vertexCount := |model.positions| / 3;
    AppendVertices(mesh, model);
    var faceCount := |model.indices| / 3;
    AppendIndices(mesh, model.indices, vertexStart);
    mesh.subsets := mesh.subsets + [Subset(TruncateU32(id), vertexStart, TruncateU32(vertexCount), faceStart, TruncateU32(faceCount))];
    err := None;
  }

  method LoadFromFile(path: Path, pathExists: bool, parsed: Result<seq<ObjModel>, string>)
    returns (r: Result<MeshData, DistRenderError>)
    requires !LoadSpec(path, pathExists, parsed).Panic?
    ensures r.Err? <==> LoadSpec(path, pathExists, parsed).value.Err?
    ensures r.Err? ==> r.error == LoadSpec(path, pathExists, parsed).value.error
    ensures r.Ok? ==>
      var b := LoadSpec(path, pathExists, parsed).value.value;
      fresh(r.value) && SameSurface(r.value.vertices, b.vertices) &&
      r.value.indices == b.indices && r.value.subsets == b.subsets && r.value.name == Some(MeshNameOf(path))
  {
    if !pathExists {
      return Err(MeshLoading(MeshFileNotFound(path.text)));
    }
    if parsed.Err? {
      return Err(MeshLoading(MeshParseError("tobj 解析失败: " + parsed.error)));
    }
    var models := parsed.value;
    if |models| == 0 {
      return Err(MeshLoading(ValidationError("OBJ 文件不包含任何模型")));
    }
    var mesh := new MeshData.WithName(MeshNameOf(path));
    var err := MergeModels(mesh, models);
    if err.Some? {
      return Err(err.value);
    }
    assert LoadSpec(path, pathExists, parsed) == ValidatedLoad(models, Buffers(mesh.vertices, mesh.indices, mesh.subsets));
    r := ValidateLoaded(mesh, models);
  }

  /** The loader's model loop: every model appended in order, stopping at the first error. */
  method MergeModels(mesh: MeshData, models: seq<ObjModel>) returns (err: Option<DistRenderError>)
    requires mesh.vertices == [] && mesh.indices == [] && mesh.subsets == []
    requires !Assemble(models).Panic?
    modifies mesh
    ensures Assemble(models) ==
      Returned(if err.Some? then Err(err.value) else Ok(Buffers(mesh.vertices, mesh.indices, mesh.subsets)))
    ensures mesh.name == old(mesh.name)
  {
    var k := 0;
    while k < |models|
      invariant 0 <= k <= |models|
      invariant Assemble(models[..k]) == Returned(Ok(Buffers(mesh.vertices, mesh.indices, mesh.subsets)))
      invariant mesh.name == old(mesh.name)
    {
      AssembleStep(models, k, Buffers(mesh.vertices, mesh.indices, mesh.subsets));
      AssemblePrefix(models, k + 1);
      err := AppendModel(mesh, models[k], k);
      if err.Some? {
        return;
      }
      k := k + 1;
    }
    assert models[..k] == models;
    err := None;
  }

  /** The end of the load: validation of the merged mesh, its failure reported as a load error. */
  method ValidateLoaded(mesh: MeshData, ghost models: seq<ObjModel>) returns (r: Result<MeshData, DistRenderError>)
    requires !ValidatedLoad(models, Buffers(mesh.vertices, mesh.indices, mesh.subsets)).Panic?
    ensures r.Err? <==> ValidatedLoad(models, Buffers(mesh.vertices, mesh.indices, mesh.subsets)).value.Err?
    ensures r.Err? ==> r.error == ValidatedLoad(models, Buffers(mesh.vertices, mesh.indices, mesh.subsets)).value.error
    ensures r.Ok? ==> r.value == mesh
  {
    var verdict := mesh.Validate();
    AsWrittenAgreesWhenItReturns(|mesh.vertices|, mesh.indices, mesh.subsets);
    if verdict.Err? {
      return Err(MeshLoading(ValidationError(ValidationMessage(verdict.error))));
    }
    return Ok(mesh);
  }

  /** Loading from memory is not supported: every byte string is refused. */
  function LoadFromMemory(data: seq<u8>): (r: Result<Buffers, DistRenderError>)
    ensures r.Err? && r.error.MeshLoading? && r.error.mesh.UnsupportedFormat?
  {
    Err(MeshLoading(UnsupportedFormat("OBJ 加载器暂不支持从内存加载")))
  }

  /** `supported_extensions`. */
  function SupportedExtensions(): seq<string> {
    ["obj"]
  }
}

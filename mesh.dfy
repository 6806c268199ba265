// Mesh data: the vertex and index buffers with their per-model subsets, and the validation
// every loaded mesh goes through.
module Mesh {
  import opened Wrappers
  import opened Ints
  import opened GeometryVertex
  import opened Decimal

  /** One model's share of a merged mesh: a vertex range and a range of triangles. */
  datatype Subset = Subset(id: u32, vertexStart: u32, vertexCount: u32, faceStart: u32, faceCount: u32)
  {
    /** First index of the subset's first triangle; the source panics if it overflows a u32. */
    function IndexStart(): (r: u32)
      requires faceStart * 3 <= U32_MAX
      ensures r % 3 == 0 && r / 3 == faceStart
    {
      faceStart * 3
    }

    /** Number of indices of the subset's triangles. */
    function IndexCount(): (r: u32)
      requires faceCount * 3 <= U32_MAX
      ensures r % 3 == 0 && r / 3 == faceCount
    {
      faceCount * 3
    }
  }

  /** Rust's `as u32` on a length: the low 32 bits. */
  function TruncateU32(n: nat): (r: u32)
    ensures n <= U32_MAX ==> r == n
  {
    n % U32_LIMIT
  }

  /**
   * Why a mesh is rejected. The source reports each case as a formatted message; the model
   * keeps the values the message is made from.
   */
  datatype ValidationFailure =
    | IndexCountNotMultipleOfThree(indexCount: nat)
    | IndexOutOfRange(position: nat, index: u32, vertexCount: u32)
    | SubsetVerticesOutOfRange(subset: nat, vertexStart: u32, vertexCount: u32, totalVertices: u32)
    | SubsetFacesOutOfRange(subset: nat, faceStart: u32, faceCount: u32, totalTriangles: u32)

  /**
   * The message `validate` formats for a failure. For an index out of range it prints the
   * largest vertex index, which a mesh without vertices does not have.
   */
  function ValidationMessage(f: ValidationFailure): string
    requires f.IndexOutOfRange? ==> f.vertexCount > 0
  {
    match f
    case IndexCountNotMultipleOfThree(n) => "索引数量必须是3的倍数，当前为: " + NatToString(n)
    case IndexOutOfRange(i, index, vc) =>
      "索引 " + NatToString(i) + " 处的值 " + NatToString(index) + " 超出顶点范围 (0-" + NatToString(vc - 1) + ")"
    case SubsetVerticesOutOfRange(i, start, count, total) => SubsetMessage(i, true, start, count, total)
    case SubsetFacesOutOfRange(i, start, count, total) => SubsetMessage(i, false, start, count, total)
  }

  /** The two subset messages, which differ only in naming the vertex or the face range. */
  function SubsetMessage(i: nat, vertices: bool, start: nat, count: nat, total: nat): string {
    "子网格 " + NatToString(i) + " 的" + RangeWord(vertices) + "范围超出边界: start=" + NatToString(start) +
    ", count=" + NatToString(count) + ", total=" + NatToString(total)
  }

  function RangeWord(vertices: bool): string {
    if vertices then "顶点" else "面"
  }

  /** Two index-range messages are equal only when they report the same position, index and vertex count. */
  lemma IndexMessageInjective(i: nat, x: u32, v: u32, i2: nat, x2: u32, v2: u32)
    requires v > 0 && v2 > 0
    requires ValidationMessage(IndexOutOfRange(i, x, v)) == ValidationMessage(IndexOutOfRange(i2, x2, v2))
    ensures i == i2 && x == x2 && v == v2
  {
    var p, p2 := "索引 " + NatToString(i) + " 处的值 ", "索引 " + NatToString(i2) + " 处的值 ";
    var q, q2 := p + NatToString(x) + " 超出顶点范围 (0-", p2 + NatToString(x2) + " 超出顶点范围 (0-";
    SameBefore(q + NatToString(v - 1), q2 + NatToString(v2 - 1), ")");
    NumberAfterText(q, v - 1, q2, v2 - 1);
    SameBefore(p + NatToString(x), p2 + NatToString(x2), " 超出顶点范围 (0-");
    NumberAfterText(p, x, p2, x2);
    SameBefore("索引 " + NatToString(i), "索引 " + NatToString(i2), " 处的值 ");
    NumberAfterText("索引 ", i, "索引 ", i2);
  }

  /** Two subset messages are equal only when they name the same subset, range and values. */
  lemma SubsetMessageInjective(i: nat, w: bool, s: nat, c: nat, t: nat, i2: nat, w2: bool, s2: nat, c2: nat, t2: nat)
    requires SubsetMessage(i, w, s, c, t) == SubsetMessage(i2, w2, s2, c2, t2)
    ensures i == i2 && w == w2 && s == s2 && c == c2 && t == t2
  {
    var h, h2 := "子网格 " + NatToString(i) + " 的" + RangeWord(w), "子网格 " + NatToString(i2) + " 的" + RangeWord(w2);
    var a, a2 := h + "范围超出边界: start=" + NatToString(s), h2 + "范围超出边界: start=" + NatToString(s2);
    NumberAfterText(a + ", count=" + NatToString(c) + ", total=", t, a2 + ", count=" + NatToString(c2) + ", total=", t2);
    SameBefore(a + ", count=" + NatToString(c), a2 + ", count=" + NatToString(c2), ", total=");
    NumberAfterText(a + ", count=", c, a2 + ", count=", c2);
    SameBefore(a, a2, ", count=");
    NumberAfterText(h + "范围超出边界: start=", s, h2 + "范围超出边界: start=", s2);
    SameBefore(h, h2, "范围超出边界: start=");
    assert h[|h| - 1] == RangeWord(w)[|RangeWord(w)| - 1] && h2[|h2| - 1] == RangeWord(w2)[|RangeWord(w2)| - 1];
    assert w == w2;
    SameBefore("子网格 " + NatToString(i) + " 的", "子网格 " + NatToString(i2) + " 的", RangeWord(w));
    SameBefore("子网格 " + NatToString(i), "子网格 " + NatToString(i2), " 的");
    NumberAfterText("子网格 ", i, "子网格 ", i2);
  }

  /** The first character tells subset messages from index messages, the last the index-range message. */
  lemma MessageShape(f: ValidationFailure)
    requires f.IndexOutOfRange? ==> f.vertexCount > 0
    ensures |ValidationMessage(f)| > 0
    ensures ValidationMessage(f)[0] == '子' <==> f.SubsetVerticesOutOfRange? || f.SubsetFacesOutOfRange?
    ensures ValidationMessage(f)[|ValidationMessage(f)| - 1] == ')' <==> f.IndexOutOfRange?
  {
    var m := ValidationMessage(f);
    if !f.IndexOutOfRange? {
      var n := match f
        case IndexCountNotMultipleOfThree(k) => k
        case SubsetVerticesOutOfRange(_, _, _, t) => t
        case SubsetFacesOutOfRange(_, _, _, t) => t
        case _ => 0;
      assert m[|m| - 1] == NatToString(n)[|NatToString(n)| - 1];
    }
  }

  /** A validation message names its failure: two failures have the same text exactly when they are equal. */
  lemma ValidationMessageInjective(f: ValidationFailure, g: ValidationFailure)
    requires f.IndexOutOfRange? ==> f.vertexCount > 0
    requires g.IndexOutOfRange? ==> g.vertexCount > 0
    ensures ValidationMessage(f) == ValidationMessage(g) <==> f == g
  {
    if ValidationMessage(f) == ValidationMessage(g) {
      MessageShape(f);
      MessageShape(g);
      if f.IndexCountNotMultipleOfThree? {
        var m := ValidationMessage(f);
        assert m[2] == '数';
        assert g.IndexCountNotMultipleOfThree?;
        NumberAfterText("索引数量必须是3的倍数，当前为: ", f.indexCount, "索引数量必须是3的倍数，当前为: ", g.indexCount);
      } else if f.IndexOutOfRange? {
        IndexMessageInjective(f.position, f.index, f.vertexCount, g.position, g.index, g.vertexCount);
      } else {
        var (fs, fc, ft) := if f.SubsetVerticesOutOfRange? then (f.vertexStart, f.vertexCount, f.totalVertices)
                            else (f.faceStart, f.faceCount, f.totalTriangles);
        var (gs, gc, gt) := if g.SubsetVerticesOutOfRange? then (g.vertexStart, g.vertexCount, g.totalVertices)
                            else (g.faceStart, g.faceCount, g.totalTriangles);
        SubsetMessageInjective(f.subset, f.SubsetVerticesOutOfRange?, fs, fc, ft,
                               g.subset, g.SubsetVerticesOutOfRange?, gs, gc, gt);
      }
    }
  }

  /** Position of the first index at or after `from` that does not name a vertex. */
  function FirstIndexOutOfRange(indices: seq<u32>, vertexCount: nat, from: nat): (r: Option<nat>)
    requires from <= |indices|
    decreases |indices| - from
    ensures r.Some? ==> from <= r.value < |indices| && indices[r.value] >= vertexCount
    ensures r.Some? ==> forall k :: from <= k < r.value ==> indices[k] < vertexCount
    ensures r.None? <==> forall k :: from <= k < |indices| ==> indices[k] < vertexCount
  {
    if from == |indices| then None
    else if indices[from] >= vertexCount then Some(from)
    else FirstIndexOutOfRange(indices, vertexCount, from + 1)
  }

  predicate SubsetInRange(s: Subset, vertexCount: nat, triangleCount: nat) {
    s.vertexStart + s.vertexCount <= vertexCount && s.faceStart + s.faceCount <= triangleCount
  }

  /** The failure the subset at position `i` reports: its vertex range first, then its faces. */
  function SubsetFailure(i: nat, s: Subset, vertexCount: u32, triangleCount: u32): (r: Option<ValidationFailure>)
    ensures r.None? <==> SubsetInRange(s, vertexCount, triangleCount)
    ensures r.Some? ==> (r.value.SubsetVerticesOutOfRange? || r.value.SubsetFacesOutOfRange?) && r.value.subset == i
    ensures r.Some? ==> (r.value.SubsetVerticesOutOfRange? <==> s.vertexStart + s.vertexCount > vertexCount)
  {
    if s.vertexStart + s.vertexCount > vertexCount then
      Some(SubsetVerticesOutOfRange(i, s.vertexStart, s.vertexCount, vertexCount))
    else if s.faceStart + s.faceCount > triangleCount then
      Some(SubsetFacesOutOfRange(i, s.faceStart, s.faceCount, triangleCount))
    else None
  }

  /** The failure of the first subset at or after `from` that leaves the mesh's bounds. */
  function FirstSubsetFailure(subsets: seq<Subset>, vertexCount: u32, triangleCount: u32, from: nat): (r: Option<ValidationFailure>)
    requires from <= |subsets|
    decreases |subsets| - from
    ensures r.None? <==> forall k :: from <= k < |subsets| ==> SubsetInRange(subsets[k], vertexCount, triangleCount)
    ensures r.Some? ==> exists k :: (from <= k < |subsets| && r == SubsetFailure(k, subsets[k], vertexCount, triangleCount) &&
      forall j :: from <= j < k ==> SubsetInRange(subsets[j], vertexCount, triangleCount))
  {
    if from == |subsets| then None
    else match SubsetFailure(from, subsets[from], vertexCount, triangleCount)
      case Some(f) => Some(f)
      case None => FirstSubsetFailure(subsets, vertexCount, triangleCount, from + 1)
  }

  /**
   * What `validate` reports for a mesh with `vertexCount` vertices: the index count is
   * checked first, then every index in order, then every subset in order.
   */
  function ValidateSpec(vertexCount: nat, indices: seq<u32>, subsets: seq<Subset>): Result<(), ValidationFailure> {
    var vc := TruncateU32(vertexCount);
    var tc := TruncateU32(|indices| / 3);
    if |indices| % 3 != 0 then Err(IndexCountNotMultipleOfThree(|indices|))
    else match FirstIndexOutOfRange(indices, vc, 0)
      case Some(k) => Err(IndexOutOfRange(k, indices[k], vc))
      case None =>
        match FirstSubsetFailure(subsets, vc, tc, 0)
        case Some(f) => Err(f)
        case None => Ok(())
  }

  /** A well-formed mesh: whole triangles, indices naming vertices, subsets inside the buffers. */
  predicate WellFormed(vertexCount: nat, indices: seq<u32>, subsets: seq<Subset>) {
    var vc := TruncateU32(vertexCount);
    |indices| % 3 == 0 &&
    (forall k :: 0 <= k < |indices| ==> indices[k] < vc) &&
    (forall j :: 0 <= j < |subsets| ==> SubsetInRange(subsets[j], vc, TruncateU32(|indices| / 3)))
  }

  /** Validation succeeds exactly on well-formed meshes. */
  lemma ValidateAcceptsExactlyWellFormed(vertexCount: nat, indices: seq<u32>, subsets: seq<Subset>)
    ensures ValidateSpec(vertexCount, indices, subsets).Ok? <==> WellFormed(vertexCount, indices, subsets)
  {
  }

  /** In a valid mesh every subset's triangles lie inside the index buffer. */
  lemma SubsetIndicesInBounds(vertexCount: nat, indices: seq<u32>, subsets: seq<Subset>, j: nat)
    requires ValidateSpec(vertexCount, indices, subsets).Ok? && j < |subsets|
    requires |indices| <= U32_MAX
    ensures subsets[j].faceStart * 3 <= U32_MAX && subsets[j].faceCount * 3 <= U32_MAX
    ensures subsets[j].IndexStart() + subsets[j].IndexCount() <= |indices|
  {
    ValidateAcceptsExactlyWellFormed(vertexCount, indices, subsets);
    assert SubsetInRange(subsets[j], TruncateU32(vertexCount), TruncateU32(|indices| / 3));
  }

  lemma ValidateExamples()
    ensures ValidateSpec(3, [0, 1, 2], [Subset(0, 0, 3, 0, 1)]) == Ok(())
    ensures ValidateSpec(3, [0, 1], []) == Err(IndexCountNotMultipleOfThree(2))
    ensures ValidateSpec(3, [0, 1, 3], []) == Err(IndexOutOfRange(2, 3, 3))
    ensures ValidateSpec(3, [0, 1, 2], [Subset(0, 1, 3, 0, 1)]) == Err(SubsetVerticesOutOfRange(0, 1, 3, 3))
    ensures ValidateSpec(3, [0, 1, 2], [Subset(0, 0, 3, 0, 2)]) == Err(SubsetFacesOutOfRange(0, 0, 2, 1))
  {
    assert FirstIndexOutOfRange([0, 1, 3], 3, 2) == Some(2);
  }

  /** The vertex, index and subset buffers of one mesh, filled in place by the loaders. */
  class MeshData {
    var vertices: seq<Vertex>
    var indices: seq<u32>
    var subsets: seq<Subset>
    var name: Option<string>

    constructor ()
      ensures vertices == [] && indices == [] && subsets == [] && name.None?
    {
      vertices, indices, subsets, name := [], [], [], None;
    }

    constructor WithName(n: string)
      ensures vertices == [] && indices == [] && subsets == [] && name == Some(n)
    {
      vertices, indices, subsets, name := [], [], [], Some(n);
    }

    /** `with_capacity`: the buffers start empty; the room it reserves is not modelled. */
    constructor WithCapacity(vertexCapacity: usize, indexCapacity: usize)
      ensures vertices == [] && indices == [] && subsets == [] && name.None?
    {
      vertices, indices, subsets, name := [], [], [], None;
    }

    function VertexCount(): nat
      reads this
    {
      |vertices|
    }

    function IndexCount(): nat
      reads this
    {
      |indices|
    }

    /** Whole triangles in the index buffer. */
    function TriangleCount(): (r: nat)
      reads this
      ensures 3 * r <= |indices| < 3 * r + 3
    {
      |indices| / 3
    }

    method Validate() returns (r: Result<(), ValidationFailure>)
      ensures r == ValidateSpec(|vertices|, indices, subsets)
    {
      if |indices| % 3 != 0 {
        return Err(IndexCountNotMultipleOfThree(|indices|));
      }
      var vertexCount := TruncateU32(|vertices|);
      var i := 0;
      while i < |indices|
        invariant 0 <= i <= |indices|
        invariant FirstIndexOutOfRange(indices, vertexCount, 0) == FirstIndexOutOfRange(indices, vertexCount, i)
      {
        if indices[i] >= vertexCount {
          return Err(IndexOutOfRange(i, indices[i], vertexCount));
        }
        i := i + 1;
      }
      var triangleCount := TruncateU32(|indices| / 3);
      var j := 0;
      while j < |subsets|
        invariant 0 <= j <= |subsets|
        invariant FirstSubsetFailure(subsets, vertexCount, triangleCount, 0) ==
                  FirstSubsetFailure(subsets, vertexCount, triangleCount, j)
      {
        var subset := subsets[j];
        if subset.vertexStart + subset.vertexCount > vertexCount {
          return Err(SubsetVerticesOutOfRange(j, subset.vertexStart, subset.vertexCount, vertexCount));
        }
        if subset.faceStart + subset.faceCount > triangleCount {
          return Err(SubsetFacesOutOfRange(j, subset.faceStart, subset.faceCount, triangleCount));
        }
        j := j + 1;
      }
      r := Ok(());
    }

    method Clear()
      modifies this
      ensures vertices == [] && indices == [] && subsets == [] && name.None?
      ensures ValidateSpec(|vertices|, indices, subsets).Ok?
    {
      vertices, indices, subsets, name := [], [], [], None;
    }
  }

  // ---------------------------------------------------------------- validate as written

  /** The result of running code that may panic (integer overflow in a debug build). */
  datatype Outcome<T> = Panic | Returned(value: T)

  function SubsetsAsWritten(subsets: seq<Subset>, vertexCount: u32, triangleCount: u32, from: nat)
    : (r: Outcome<Result<(), ValidationFailure>>)
    requires from <= |subsets|
    decreases |subsets| - from
    ensures r.Returned? && r.value.Err? ==>
      r.value.error.SubsetVerticesOutOfRange? || r.value.error.SubsetFacesOutOfRange?
  {
    if from == |subsets| then Returned(Ok(()))
    else
      var s := subsets[from];
      if s.vertexStart + s.vertexCount > U32_MAX then Panic
      else if s.vertexStart + s.vertexCount > vertexCount then
        Returned(Err(SubsetVerticesOutOfRange(from, s.vertexStart, s.vertexCount, vertexCount)))
      else if s.faceStart + s.faceCount > U32_MAX then Panic
      else if s.faceStart + s.faceCount > triangleCount then
        Returned(Err(SubsetFacesOutOfRange(from, s.faceStart, s.faceCount, triangleCount)))
      else SubsetsAsWritten(subsets, vertexCount, triangleCount, from + 1)
  }

  /**
   * `validate` exactly as written, in a debug build: the error message for a bad index
   * computes `vertex_count - 1`, and the subset checks add two u32 values; either
   * overflow panics.
   */
  function ValidateAsWritten(vertexCount: nat, indices: seq<u32>, subsets: seq<Subset>)
    : (r: Outcome<Result<(), ValidationFailure>>)
    ensures r.Returned? && r.value.Err? && r.value.error.IndexOutOfRange? ==> r.value.error.vertexCount > 0
  {
    var vc := TruncateU32(vertexCount);
    var tc := TruncateU32(|indices| / 3);
    if |indices| % 3 != 0 then Returned(Err(IndexCountNotMultipleOfThree(|indices|)))
    else match FirstIndexOutOfRange(indices, vc, 0)
      case Some(k) => if vc == 0 then Panic else Returned(Err(IndexOutOfRange(k, indices[k], vc)))
      case None => SubsetsAsWritten(subsets, vc, tc, 0)
  }

  lemma {:induction false} SubsetsAsWrittenAgree(subsets: seq<Subset>, vc: u32, tc: u32, from: nat)
    requires from <= |subsets|
    decreases |subsets| - from
    ensures SubsetsAsWritten(subsets, vc, tc, from).Returned? ==>
      SubsetsAsWritten(subsets, vc, tc, from).value ==
        (match FirstSubsetFailure(subsets, vc, tc, from) case Some(f) => Err(f) case None => Ok(()))
  {
    if from < |subsets| {
      SubsetsAsWrittenAgree(subsets, vc, tc, from + 1);
    }
  }

  /** Whenever the code as written returns, it returns what the corrected validation returns. */
  lemma AsWrittenAgreesWhenItReturns(vertexCount: nat, indices: seq<u32>, subsets: seq<Subset>)
    ensures ValidateAsWritten(vertexCount, indices, subsets).Returned? ==>
      ValidateAsWritten(vertexCount, indices, subsets).value == ValidateSpec(vertexCount, indices, subsets)
  {
    SubsetsAsWrittenAgree(subsets, TruncateU32(vertexCount), TruncateU32(|indices| / 3), 0);
  }

  lemma {:induction false} SubsetsAsWrittenReturn(subsets: seq<Subset>, vc: u32, tc: u32, from: nat)
    requires from <= |subsets|
    requires forall k :: from <= k < |subsets| ==> SubsetInRange(subsets[k], vc, tc)
    decreases |subsets| - from
    ensures SubsetsAsWritten(subsets, vc, tc, from) == Returned(Ok(()))
  {
    if from < |subsets| {
      SubsetsAsWrittenReturn(subsets, vc, tc, from + 1);
    }
  }

  /** On a well-formed mesh the code as written does not panic and accepts the mesh. */
  lemma WellFormedDoesNotPanic(vertexCount: nat, indices: seq<u32>, subsets: seq<Subset>)
    requires WellFormed(vertexCount, indices, subsets)
    ensures ValidateAsWritten(vertexCount, indices, subsets) == Returned(Ok(()))
  {
    SubsetsAsWrittenReturn(subsets, TruncateU32(vertexCount), TruncateU32(|indices| / 3), 0);
  }

  /**
   * A mesh with no vertices and one triangle: the code as written panics while building its
   * error message; the corrected validation reports index 0 as out of range.
   */
  lemma EmptyMeshPanics()
    ensures ValidateAsWritten(0, [0, 0, 0], []) == Panic
    ensures ValidateSpec(0, [0, 0, 0], []) == Err(IndexOutOfRange(0, 0, 0))
  {
  }

  /**
   * A subset starting at the last u32 vertex: the code as written overflows computing its end;
   * the corrected validation reports the subset as out of range.
   */
  lemma SubsetEndOverflowPanics()
    ensures ValidateAsWritten(0, [], [Subset(0, U32_MAX, 1, 0, 0)]) == Panic
    ensures ValidateSpec(0, [], [Subset(0, U32_MAX, 1, 0, 0)]) ==
      Err(SubsetVerticesOutOfRange(0, U32_MAX, 1, 0))
  {
  }
}

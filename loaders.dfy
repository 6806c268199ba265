// Choosing a mesh loader by the file's extension, compared without regard to ASCII case.
module Loaders {
  import opened Wrappers
  import opened Errors
  import opened Paths
  import opened Mesh
  import opened ObjLoader

  datatype Format = ObjFormat | FbxFormat

  /** `to_lowercase` on ASCII letters; other characters are kept. */
  function ToLowerAscii(s: string): (r: string)
    ensures |r| == |s|
    ensures forall k :: 0 <= k < |r| ==> !('A' <= r[k] <= 'Z')
    ensures forall k :: 0 <= k < |s| && !('A' <= s[k] <= 'Z') ==> r[k] == s[k]
    ensures forall k :: 0 <= k < |s| && 'A' <= s[k] <= 'Z' ==> r[k] as int == s[k] as int + 32
  {
    seq(|s|, k requires 0 <= k < |s| => LowerChar(s[k]))
  }

  function LowerChar(c: char): char {
    if 'A' <= c <= 'Z' then (c as int + 32) as char else c
  }

  /**
   * `load_mesh`'s choice: no extension is refused, "obj" and "fbx" (in any case) pick their
   * loader, and any other extension is refused with its lower-cased name in the message.
   */
  function SelectLoader(path: Path): (r: Result<Format, DistRenderError>)
    ensures r == Ok(ObjFormat) <==> Extension(path).Some? && ToLowerAscii(Extension(path).value) == "obj"
    ensures r == Ok(FbxFormat) <==> Extension(path).Some? && ToLowerAscii(Extension(path).value) == "fbx"
    ensures r.Err? ==> r.error.MeshLoading? && r.error.mesh.UnsupportedFormat?
  {
    match Extension(path)
    case None => Err(MeshLoading(UnsupportedFormat("无法确定文件扩展名")))
    case Some(ext) =>
      var lower := ToLowerAscii(ext);
      if lower == "obj" then Ok(ObjFormat)
      else if lower == "fbx" then Ok(FbxFormat)
      else Err(MeshLoading(UnsupportedFormat("不支持的文件格式: ." + lower)))
  }

  /**
   * `load_mesh`: the OBJ loader for OBJ files; the FBX loader, which is not part of this
   * model, for FBX files, its result given as `fbxResult`.
   */
  method LoadMesh(path: Path, pathExists: bool, parsed: Result<seq<ObjModel>, string>,
                  fbxResult: Result<MeshData, DistRenderError>)
    returns (r: Result<MeshData, DistRenderError>)
    requires SelectLoader(path) == Ok(ObjFormat) ==> !LoadSpec(path, pathExists, parsed).Panic?
    ensures SelectLoader(path).Err? ==> r == Err(SelectLoader(path).error)
    ensures SelectLoader(path) == Ok(FbxFormat) ==> r == fbxResult
    ensures SelectLoader(path) == Ok(ObjFormat) ==>
      (r.Err? <==> LoadSpec(path, pathExists, parsed).value.Err?) &&
      (r.Err? ==> r.error == LoadSpec(path, pathExists, parsed).value.error) &&
      (r.Ok? ==>
        var b := LoadSpec(path, pathExists, parsed).value.value;
        SameSurface(r.value.vertices, b.vertices) && r.value.indices == b.indices &&
        r.value.subsets == b.subsets && r.value.name == Some(MeshNameOf(path)))
  {
    var format := SelectLoader(path);
    match format {
      case Err(e) =>
        r := Err(e);
      case Ok(ObjFormat) =>
        r := LoadFromFile(path, pathExists, parsed);
      case Ok(FbxFormat) =>
        r := fbxResult;
    }
  }

  /** Lower-casing is idempotent, and it leaves nothing upper-case behind. */
  lemma LowerIsIdempotent(s: string)
    ensures ToLowerAscii(ToLowerAscii(s)) == ToLowerAscii(s)
    ensures forall k :: 0 <= k < |s| ==> !('A' <= ToLowerAscii(s)[k] <= 'Z')
  {
  }

  /** Two extensions that differ only in ASCII case select the same loader. */
  lemma SelectionIgnoresCase(dir: string, stem: string, ext1: string, ext2: string)
    requires dir == "" || dir[|dir| - 1] == '/'
    requires stem != "" && ext1 != "" && ext2 != ""
    requires NoChar(stem, '/') && NoChar(ext1, '/') && NoChar(ext1, '.') && NoChar(ext2, '/') && NoChar(ext2, '.')
    requires ToLowerAscii(ext1) == ToLowerAscii(ext2)
    ensures SelectLoader(Path(dir + stem + "." + ext1)) == SelectLoader(Path(dir + stem + "." + ext2))
  {
    StemAndExtensionOfName(dir, stem, ext1);
    StemAndExtensionOfName(dir, stem, ext2);
  }

  /** A file `stem.ext` goes to the OBJ loader exactly when `ext` is "obj" in some case. */
  lemma ObjFilesGoToObjLoader(dir: string, stem: string, ext: string)
    requires dir == "" || dir[|dir| - 1] == '/'
    requires stem != "" && ext != ""
    requires NoChar(stem, '/') && NoChar(ext, '/') && NoChar(ext, '.')
    ensures SelectLoader(Path(dir + stem + "." + ext)) == Ok(ObjFormat) <==> ToLowerAscii(ext) == "obj"
    ensures SelectLoader(Path(dir + stem + "." + ext)) == Ok(FbxFormat) <==> ToLowerAscii(ext) == "fbx"
    ensures SelectLoader(Path(dir + stem + "." + ext)).Err? ==>
      SelectLoader(Path(dir + stem + "." + ext)).error ==
        MeshLoading(UnsupportedFormat("不支持的文件格式: ." + ToLowerAscii(ext)))
  {
    StemAndExtensionOfName(dir, stem, ext);
  }

  /** The OBJ loader declares "obj", and every extension it declares is routed to it. */
  lemma DeclaredExtensionsSelectObj(dir: string, stem: string)
    requires dir == "" || dir[|dir| - 1] == '/'
    requires stem != "" && NoChar(stem, '/')
    ensures "obj" in SupportedExtensions()
    ensures forall ext :: ext in SupportedExtensions() ==> SelectLoader(Path(dir + stem + "." + ext)) == Ok(ObjFormat)
  {
    assert ToLowerAscii("obj") == "obj";
    ObjFilesGoToObjLoader(dir, stem, "obj");
  }

  /** A name without a dot, or whose only dot leads it, has no extension to choose by. */
  lemma NoExtensionExamples()
    ensures SelectLoader(Path("README")) == Err(MeshLoading(UnsupportedFormat("无法确定文件扩展名")))
    ensures SelectLoader(Path(".obj")) == Err(MeshLoading(UnsupportedFormat("无法确定文件扩展名")))
  {
    assert LastIndexOf("README", '/') == None;
    assert LastIndexOf("README", '.') == None;
    assert LastIndexOf(".obj", '/') == None;
    LastIndexAt(".obj", '.', 0);
  }
}

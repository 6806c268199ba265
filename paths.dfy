// The parts of `std::path::Path` the mesh loaders use: the final file name, its stem and its
// extension, with the standard library's rules for leading dots, `.` and `..` components and
// trailing separators. Paths are '/'-separated text.
module Paths {
  import opened Wrappers

  datatype Path = Path(text: string)

  /** Position of the last `c` in `s`. */
  function LastIndexOf(s: string, c: char): (r: Option<nat>)
    decreases |s|
    ensures r.Some? ==> r.value < |s| && s[r.value] == c
    ensures r.Some? ==> forall k :: r.value < k < |s| ==> s[k] != c
    ensures r.None? <==> forall k :: 0 <= k < |s| ==> s[k] != c
  {
    if |s| == 0 then None
    else if s[|s| - 1] == c then Some(|s| - 1)
    else LastIndexOf(s[..|s| - 1], c)
  }

  /**
   * `Path::file_name`: the last component when it is a plain name. Empty components and `.`
   * components are skipped, as `Path::components` skips them; a final `..` or a path made
   * only of separators and `.` has no file name.
   */
  function FileName(s: string): (r: Option<string>)
    decreases |s|
    ensures r.Some? ==> r.value != "" && r.value != "." && r.value != ".."
    ensures r.Some? ==> forall k :: 0 <= k < |r.value| ==> r.value[k] != '/'
  {
    match LastIndexOf(s, '/')
    case None => if s == "" || s == "." || s == ".." then None else Some(s)
    case Some(i) =>
      var last := s[i + 1..];
      if last == "" || last == "." then FileName(s[..i])
      else if last == ".." then None
      else Some(last)
  }

  /**
   * Splits a file name at its last dot into the part before and the part after, the way the
   * standard library does before it answers `file_stem` and `extension`: `..` and names whose
   * only dot is the first character are not split.
   */
  function SplitAtDot(name: string): (r: (Option<string>, Option<string>))
    ensures r.0.Some? || r.1.Some?
    ensures r.0.Some? && r.1.Some? ==> name == r.0.value + "." + r.1.value && r.0.value != "" && NoChar(r.1.value, '.')
    ensures r.0.Some? && r.1.None? ==> r.0.value == name
    ensures r.0.None? ==> r.1 == Some(name) && NoChar(name, '.')
  {
    if name == ".." then (Some(name), None)
    else match LastIndexOf(name, '.')
      case None => (None, Some(name))
      case Some(i) => if i == 0 then (Some(name), None) else (Some(name[..i]), Some(name[i + 1..]))
  }

  /** `Path::file_stem`: `before.or(after)`. */
  function FileStem(p: Path): Option<string> {
    match FileName(p.text)
    case None => None
    case Some(name) =>
      var (before, after) := SplitAtDot(name);
      if before.Some? then before else after
  }

  /** `Path::extension`: `before.and(after)`. */
  function Extension(p: Path): (r: Option<string>)
    ensures r.Some? ==> NoChar(r.value, '.') && NoChar(r.value, '/')
  {
    match FileName(p.text)
    case None => None
    case Some(name) =>
      var (before, after) := SplitAtDot(name);
      if before.Some? then after else None
  }

  predicate NoChar(s: string, c: char) {
    forall k :: 0 <= k < |s| ==> s[k] != c
  }

  /** The last occurrence is the one with no further occurrence after it. */
  lemma LastIndexAt(s: string, c: char, i: nat)
    requires i < |s| && s[i] == c
    requires forall k :: i < k < |s| ==> s[k] != c
    ensures LastIndexOf(s, c) == Some(i)
  {
  }

  /** `stem.ext` splits into `stem` and `ext` when neither is empty and `ext` has no dot. */
  lemma SplitNameAtDot(stem: string, ext: string)
    requires stem != "" && ext != "" && NoChar(ext, '.')
    ensures SplitAtDot(stem + "." + ext) == (Some(stem), Some(ext))
  {
    var name := stem + "." + ext;
    assert |name| >= 3;
    assert name[|stem|] == '.';
    assert forall k :: |stem| < k < |name| ==> name[k] == ext[k - |stem| - 1];
    LastIndexAt(name, '.', |stem|);
    assert name[..|stem|] == stem && name[|stem| + 1..] == ext;
  }

  /** A plain name after a directory ending in a separator is the path's file name. */
  lemma FileNameAfterDirectory(dir: string, name: string)
    requires dir == "" || dir[|dir| - 1] == '/'
    requires NoChar(name, '/') && name != "" && name != "." && name != ".."
    ensures FileName(dir + name) == Some(name)
  {
    var s := dir + name;
    if dir == "" {
      assert s == name;
    } else {
      assert forall k :: |dir| <= k < |s| ==> s[k] == name[k - |dir|];
      LastIndexAt(s, '/', |dir| - 1);
      assert s[|dir|..] == name;
    }
  }

  /**
   * A file named `stem.ext`, alone or after a directory ending in a separator, has stem
   * `stem` and extension `ext`: splitting at the last dot gives the name back.
   */
  lemma StemAndExtensionOfName(dir: string, stem: string, ext: string)
    requires dir == "" || dir[|dir| - 1] == '/'
    requires stem != "" && ext != ""
    requires NoChar(stem, '/') && NoChar(ext, '/') && NoChar(ext, '.')
    ensures FileStem(Path(dir + stem + "." + ext)) == Some(stem)
    ensures Extension(Path(dir + stem + "." + ext)) == Some(ext)
  {
    var name := stem + "." + ext;
    assert dir + stem + "." + ext == dir + name;
    assert NoChar(name, '/') by {
      forall k | 0 <= k < |name| ensures name[k] != '/' {
        if k < |stem| { assert name[k] == stem[k]; }
        else if k > |stem| { assert name[k] == ext[k - |stem| - 1]; }
      }
    }
    assert |name| >= 3;
    FileNameAfterDirectory(dir, name);
    SplitNameAtDot(stem, ext);
  }
}

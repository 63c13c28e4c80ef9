/**
 * Path bookkeeping of `process_obj_images` (main.cpp): the subject's output
 * directory, the output file path, and the two index-aligned lists of image
 * paths and names built from the subject directory's entries.
 */
module Paths {
  import opened Wrappers

  /** One entry of a subject directory: its canonical absolute path and its file name. */
  datatype DirEntry = DirEntry(canonicalPath: string, fileName: string)

  /**
   * The subject's output directory, `<root>/<subject>`: a directory named
   * after the subject directly inside the output root.
   */
  function SubjectDir(root: string, obj: string): (d: string)
    ensures |d| == |root| + 1 + |obj| && d[..|root|] == root && d[|root|] == '/' && d[|root| + 1..] == obj
    ensures '/' !in obj ==> SplitPath(d) == (root, obj)
  {
    // the two branches give the same path; the second also proves the split
    if '/' in obj then root + "/" + obj
    else
      SplitJoined(root, obj);
      root + "/" + obj
  }

  /**
   * Where a processed image is written, `<root>/<subject>/<file name>`:
   * inside the subject's output directory, under the image's own name.
   */
  function OutputPath(root: string, obj: string, name: string): (p: string)
    ensures p == SubjectDir(root, obj) + "/" + name
  {
    root + "/" + obj + "/" + name
  }

  /** The position of the last '/' in `s`, if there is one. */
  function LastSlash(s: string): (r: Option<nat>)
    ensures r.Some? ==> r.value < |s| && s[r.value] == '/'
    ensures r.Some? ==> forall k :: r.value < k < |s| ==> s[k] != '/'
    ensures r.None? <==> '/' !in s
    decreases |s|
  {
    if s == [] then None
    else if s[|s| - 1] == '/' then Some(|s| - 1)
    else
      assert s == s[..|s| - 1] + [s[|s| - 1]];
      LastSlash(s[..|s| - 1])
  }

  /** Splits a path into its parent directory and its last component. */
  function SplitPath(p: string): (string, string)
  {
    match LastSlash(p)
    case None => ("", p)
    case Some(k) => (p[..k], p[k + 1..])
  }

  /** A path joined from a directory and a name without '/' splits back into the two. */
  lemma SplitJoined(dir: string, name: string)
    requires '/' !in name
    ensures SplitPath(dir + "/" + name) == (dir, name)
  {
    var p := dir + "/" + name;
    var k := |dir|;
    assert p[k] == '/';
    assert forall j :: k < j < |p| ==> p[j] == name[j - k - 1];
    var r := LastSlash(p);
    assert r.Some? && r.value == k;
    assert p[..k] == dir;
    assert p[k + 1..] == name;
  }

  /**
   * An output path splits back into the subject directory created for the
   * subject and the image's own file name (file names never hold '/').
   */
  lemma OutputPathSplits(root: string, obj: string, name: string)
    requires '/' !in name
    ensures SplitPath(OutputPath(root, obj, name)) == (SubjectDir(root, obj), name)
  {
    SplitJoined(SubjectDir(root, obj), name);
  }

  /**
   * The two lists the source fills while iterating the subject directory:
   * canonical paths and file names, index-aligned with the entries.
   */
  method ListImages(entries: seq<DirEntry>) returns (paths: seq<string>, names: seq<string>)
    ensures |paths| == |entries| && |names| == |entries|
    ensures forall i :: 0 <= i < |entries| ==> paths[i] == entries[i].canonicalPath
    ensures forall i :: 0 <= i < |entries| ==> names[i] == entries[i].fileName
  {
    paths, names := [], [];
    var i := 0;
    while i < |entries|
      invariant 0 <= i <= |entries|
      invariant |paths| == i && |names| == i
      invariant forall j :: 0 <= j < i ==> paths[j] == entries[j].canonicalPath
      invariant forall j :: 0 <= j < i ==> names[j] == entries[j].fileName
    {
      paths := paths + [entries[i].canonicalPath];
      names := names + [entries[i].fileName];
      i := i + 1;
    }
  }
}

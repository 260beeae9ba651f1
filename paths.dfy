/**
 * File-system paths as sequences of segments, with the two operations the
 * loader uses: appending a segment (`PathBuf::join`) and taking a path's
 * extension (`Path::extension`, with an absent extension read as "").
 */
module Paths {
  import opened Outcomes

  type Path = seq<string>

  function Join(dir: Path, name: string): Path
  {
    dir + [name]
  }

  /** Index of the final '.' in a file name, if it has one. */
  function LastDot(name: string): (r: Option<nat>)
    ensures r.None? <==> '.' !in name
    ensures r.Some? ==> r.value < |name| && name[r.value] == '.' && '.' !in name[r.value + 1..]
  {
    if name == [] then None
    else if name[|name| - 1] == '.' then Some(|name| - 1)
    else
      assert name == name[..|name| - 1] + [name[|name| - 1]];
      LastDot(name[..|name| - 1])
  }

  /**
   * The extension of a path's last segment: the text after its final dot.
   * A name without a dot, or whose only dot is its first character (a hidden
   * file such as `.json`), has no extension, read as "".
   */
  function ExtensionOf(p: Path): (e: string)
    ensures '.' !in e
    ensures e != [] ==> |p| > 0 && |e| + 1 < |p[|p| - 1]| && p[|p| - 1][|p[|p| - 1]| - |e| - 1..] == "." + e
  {
    if p == [] then ""
    else
      var name := p[|p| - 1];
      match LastDot(name)
      case None => ""
      case Some(i) =>
        if i == 0 then ""
        else
          assert name[i..] == "." + name[i + 1..];
          name[i + 1..]
  }

  /** A segment `stem.ext` with a non-empty stem and a dot-free `ext` has extension `ext`. */
  lemma JoinedExtension(dir: Path, stem: string, ext: string)
    requires stem != [] && '.' !in ext
    ensures ExtensionOf(Join(dir, stem + "." + ext)) == ext
  {
    var name := stem + "." + ext;
    assert Join(dir, name)[|Join(dir, name)| - 1] == name;
    var r := LastDot(name);
    assert name[|stem|] == '.';
    assert r.Some?;
    assert r.value == |stem|;
    assert name[|stem| + 1..] == ext;
  }

  /** With an empty stem the segment is `.ext`, a hidden file with no extension. */
  lemma HiddenNameHasNoExtension(dir: Path, ext: string)
    requires '.' !in ext
    ensures ExtensionOf(Join(dir, "" + "." + ext)) == ""
  {
  }
}

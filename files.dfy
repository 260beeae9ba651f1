/**
 * The part of the file system the loader touches: which paths exist
 * (`Path::exists`), the text of the files among them (`fs::read_to_string`),
 * and the two ways it is changed (`fs::create_dir_all`, `fs::write`).
 */
module Files {
  import opened Outcomes
  import opened Paths
  import opened Errors

  /** `fs::read_to_string`: a path that holds no text (missing, or a directory) fails with `Io`. */
  function Read(files: map<Path, string>, p: Path): (r: Result<string, ConfigError>)
    ensures r.Ok? <==> p in files
    ensures r.Ok? ==> r.value == files[p]
    ensures r.Err? ==> r.error == Io
  {
    if p in files then Ok(files[p]) else Err(Io)
  }

  /** The directory itself and all its ancestors, as `create_dir_all` creates them. */
  function Prefixes(dir: Path): (ps: set<Path>)
    ensures forall p :: p in ps ==> 0 < |p| <= |dir|
  {
    set k | 0 < k <= |dir| :: dir[..k]
  }

  /** Some ancestor of `dir`, or `dir` itself, is a file, so the directory cannot be created. */
  predicate BlockedByFile(files: map<Path, string>, dir: Path)
  {
    exists k :: 0 < k <= |dir| && dir[..k] in files
  }

  class FileSystem {
    /** Every path that exists, file or directory. */
    var entries: set<Path>
    /** The text of every file. */
    var contents: map<Path, string>

    ghost predicate Valid()
      reads this
    {
      contents.Keys <= entries
    }

    constructor (entries: set<Path>, contents: map<Path, string>)
      requires contents.Keys <= entries
      ensures Valid() && this.entries == entries && this.contents == contents
    {
      this.entries := entries;
      this.contents := contents;
    }

    /** `Path::exists`: true for files and directories alike. */
    predicate Exists(p: Path)
      reads this
    {
      p in entries
    }

    /** `fs::create_dir_all`: creates `dir` and its missing ancestors; existing directories are fine. */
    method CreateDirAll(dir: Path) returns (ok: bool)
      requires Valid()
      modifies this
      ensures Valid()
      ensures ok <==> !BlockedByFile(old(contents), dir)
      ensures contents == old(contents)
      ensures entries == if ok then old(entries) + Prefixes(dir) else old(entries)
    {
      ok := !BlockedByFile(contents, dir);
      if ok {
        entries := entries + Prefixes(dir);
      }
    }

    /** `fs::write`: creates or truncates the file at `p`; writing over a directory fails. */
    method Write(p: Path, text: string) returns (ok: bool)
      requires Valid()
      modifies this
      ensures Valid()
      ensures ok <==> !(p in old(entries) && p !in old(contents))
      ensures ok ==> contents == old(contents)[p := text] && entries == old(entries) + {p}
      ensures !ok ==> contents == old(contents) && entries == old(entries)
    {
      ok := !(p in entries && p !in contents);
      if ok {
        contents := contents[p := text];
        entries := entries + {p};
      }
    }
  }
}

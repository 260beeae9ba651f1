/**
 * `ConfigLoader`: where the configuration directory is, which file in it is
 * the configuration, which decoder reads it, and how a configuration is
 * written back.
 *
 * The platform queries (`dirs::config_dir`, `dirs::home_dir`) are the
 * parameters `platformConfig` and `home`; the format libraries are the
 * parameters `decode` and `encode`, which may fail with a message.
 */
module Loader {
  import opened Outcomes
  import opened Formats
  import opened Errors
  import opened Paths
  import opened Files

  datatype ConfigLoader = ConfigLoader(
    appName: string,
    /** File name searched for, without its extension. */
    fileName: string,
    /** Formats allowed, in search order. */
    formats: seq<Format>,
    /** Directory override; when absent the directory is derived from the platform. */
    configDir: Option<Path>)

  // ---------------------------------------------------------------- builders

  /** A loader with file name `config`, every format in canonical order, and no override. */
  function New(appName: string): (c: ConfigLoader)
    ensures c.appName == appName && c.fileName == "config" && c.configDir == None
    ensures c.formats == [Json, Yaml, Toml, Corn, Xml]
    ensures forall f: Format :: f in c.formats
  {
    var formats := [Json, Yaml, Toml, Corn, Xml];
    ListsEveryFormat(formats);
    ConfigLoader(appName, "config", formats, None)
  }

  lemma ListsEveryFormat(formats: seq<Format>)
    requires formats == [Json, Yaml, Toml, Corn, Xml]
    ensures forall f: Format :: f in formats
  {
    forall f: Format ensures f in formats {
      match f {
        case Json => assert formats[0] == f;
        case Yaml => assert formats[1] == f;
        case Toml => assert formats[2] == f;
        case Corn => assert formats[3] == f;
        case Xml => assert formats[4] == f;
      }
    }
  }

  /** With the default formats, the search goes json, yaml, yml, toml, corn, xml. */
  lemma DefaultCandidates(appName: string)
    ensures ExtensionsOf(New(appName).formats) == ["json", "yaml", "yml", "toml", "corn", "xml"]
  {
  }

  function WithFileName(c: ConfigLoader, fileName: string): (d: ConfigLoader)
    ensures d.fileName == fileName
    ensures d.appName == c.appName && d.formats == c.formats && d.configDir == c.configDir
  {
    c.(fileName := fileName)
  }

  function WithFormats(c: ConfigLoader, formats: seq<Format>): (d: ConfigLoader)
    ensures d.formats == formats
    ensures d.appName == c.appName && d.fileName == c.fileName && d.configDir == c.configDir
  {
    c.(formats := formats)
  }

  function WithConfigDir(c: ConfigLoader, dir: Path): (d: ConfigLoader)
    ensures d.configDir == Some(dir)
    ensures d.appName == c.appName && d.fileName == c.fileName && d.formats == c.formats
  {
    c.(configDir := Some(dir))
  }

  // ------------------------------------------------------ directory resolution

  /**
   * The first of: the override as given; the platform configuration
   * directory joined with the application name; the home directory joined
   * with `.` and the application name. Only when all three are absent does
   * it fail, with `MissingUserDir`.
   */
  function GetConfigDir(c: ConfigLoader, platformConfig: Option<Path>, home: Option<Path>): (r: Result<Path, ConfigError>)
    ensures c.configDir.Some? ==> r == Ok(c.configDir.value)
    ensures c.configDir.None? && platformConfig.Some? ==> r == Ok(platformConfig.value + [c.appName])
    ensures c.configDir.None? && platformConfig.None? && home.Some? ==> r == Ok(home.value + ["." + c.appName])
    ensures r.Err? <==> c.configDir.None? && platformConfig.None? && home.None?
    ensures r.Err? ==> r.error == MissingUserDir
  {
    match c.configDir
    case Some(dir) => Ok(dir)
    case None =>
      match platformConfig
      case Some(dir) => Ok(Join(dir, c.appName))
      case None =>
        match home
        case Some(dir) => Ok(Join(dir, "." + c.appName))
        case None => Err(MissingUserDir)
  }

  // ------------------------------------------------------- candidate search

  /** The candidate extensions, built as the formats are walked in order. */
  method GetExtensions(c: ConfigLoader) returns (exts: seq<string>)
    ensures exts == ExtensionsOf(c.formats)
  {
    exts := [];
    for i := 0 to |c.formats|
      invariant exts == ExtensionsOf(c.formats[..i])
    {
      match c.formats[i] {
        case Json => exts := exts + ["json"];
        case Yaml =>
          exts := exts + ["yaml"];
          exts := exts + ["yml"];
        case Toml => exts := exts + ["toml"];
        case Corn => exts := exts + ["corn"];
        case Xml => exts := exts + ["xml"];
      }
      assert c.formats[..i + 1] == c.formats[..i] + [c.formats[i]];
      ExtensionsOfConcat(c.formats[..i], [c.formats[i]]);
    }
    assert c.formats[..|c.formats|] == c.formats;
  }

  /** The path probed for one extension: `<dir>/<fileName>.<ext>`. */
  function Candidate(dir: Path, fileName: string, ext: string): Path
  {
    Join(dir, fileName + "." + ext)
  }

  /** Candidate `i` exists and no earlier candidate does. */
  predicate FirstExisting(dir: Path, fileName: string, exts: seq<string>, existing: set<Path>, i: int)
  {
    0 <= i < |exts| &&
    Candidate(dir, fileName, exts[i]) in existing &&
    forall j :: 0 <= j < i ==> Candidate(dir, fileName, exts[j]) !in existing
  }

  /** Existing paths at or after the first existing candidate do not change which one is chosen. */
  lemma LaterCandidatesIgnored(dir: Path, fileName: string, exts: seq<string>, existing: set<Path>, extra: set<Path>, i: int)
    requires FirstExisting(dir, fileName, exts, existing, i)
    requires forall j :: 0 <= j < i ==> Candidate(dir, fileName, exts[j]) !in extra
    ensures FirstExisting(dir, fileName, exts, existing + extra, i)
    ensures forall k :: FirstExisting(dir, fileName, exts, existing + extra, k) ==> k == i
  {
  }

  /**
   * Resolves the directory (failing before any probe if that fails), then
   * returns the first candidate path that exists, or `FileNotFound`.
   */
  method TryFindFile(c: ConfigLoader, platformConfig: Option<Path>, home: Option<Path>, fs: FileSystem)
    returns (r: Result<Path, ConfigError>)
    ensures GetConfigDir(c, platformConfig, home).Err? ==> r == Err(MissingUserDir)
    ensures GetConfigDir(c, platformConfig, home).Ok? ==>
      var dir := GetConfigDir(c, platformConfig, home).value;
      var exts := ExtensionsOf(c.formats);
      (r.Err? <==> forall i :: 0 <= i < |exts| ==> Candidate(dir, c.fileName, exts[i]) !in fs.entries) &&
      (r.Err? ==> r.error == FileNotFound) &&
      (r.Ok? ==> exists i :: FirstExisting(dir, c.fileName, exts, fs.entries, i) && r.value == Candidate(dir, c.fileName, exts[i]))
  {
    var dirResult := GetConfigDir(c, platformConfig, home);
    if dirResult.Err? {
      return Err(dirResult.error);
    }
    var dir := dirResult.value;
    var exts := GetExtensions(c);
    var i := 0;
    while i < |exts|
      invariant 0 <= i <= |exts|
      invariant forall j :: 0 <= j < i ==> Candidate(dir, c.fileName, exts[j]) !in fs.entries
    {
      var fullPath := Candidate(dir, c.fileName, exts[i]);
      if fs.Exists(fullPath) {
        assert FirstExisting(dir, c.fileName, exts, fs.entries, i);
        return Ok(fullPath);
      }
      i := i + 1;
    }
    return Err(FileNotFound);
  }

  // ----------------------------------------------------------- decoding

  /** The result `r` reports the outcome `res` of format `f`'s decoder. */
  predicate ReportsDecode<T(==)>(r: Result<T, ConfigError>, f: Format, res: Result<T, string>)
  {
    match res
    case Ok(v) => r == Ok(v)
    case Err(m) => r == Err(Deserialization(DecodeFailed(f, m)))
  }

  function Decoded<T>(f: Format, res: Result<T, string>): (r: Result<T, DeserializationError>)
    ensures r.Err? ==> r.error.DecodeFailed?
  {
    match res
    case Ok(v) => Ok(v)
    case Err(m) => Err(DecodeFailed(f, m))
  }

  /**
   * The decoder dispatch: an extension is decoded by the format that
   * recognises it (exact, case-sensitive match), and any other extension is
   * `UnsupportedExtension`, carrying the extension unchanged.
   */
  function Deserialize<T(==)>(text: string, ext: string, decode: (Format, string) -> Result<T, string>)
    : (r: Result<T, DeserializationError>)
    ensures forall f :: ext in Contribution(f) ==> r == Decoded(f, decode(f, text))
    ensures (forall f :: ext !in Contribution(f)) <==> r == Err(DeserializationError.UnsupportedExtension(ext))
  {
    match ext
    case "json" =>
      assert ext in Contribution(Json);
      Decoded(Json, decode(Json, text))
    case "toml" =>
      assert ext in Contribution(Toml);
      Decoded(Toml, decode(Toml, text))
    case "yaml" | "yml" =>
      assert ext in Contribution(Yaml);
      Decoded(Yaml, decode(Yaml, text))
    case "corn" =>
      assert ext in Contribution(Corn);
      Decoded(Corn, decode(Corn, text))
    case "xml" =>
      assert ext in Contribution(Xml);
      Decoded(Xml, decode(Xml, text))
    case _ => Err(DeserializationError.UnsupportedExtension(ext))
  }

  /** Upper case and the empty string are not extensions any format recognises. */
  lemma UnrecognisedExtensions<T>(text: string, decode: (Format, string) -> Result<T, string>)
    ensures Deserialize(text, "JSON", decode) == Err(DeserializationError.UnsupportedExtension("JSON"))
    ensures Deserialize(text, "", decode) == Err(DeserializationError.UnsupportedExtension(""))
    ensures Deserialize(text, "ini", decode) == Err(DeserializationError.UnsupportedExtension("ini"))
  {
  }

  /**
   * Reads the file at `path` first (failing with `Io` before any decoding),
   * then decodes its text by the path's extension.
   */
  function Load<T(==)>(files: map<Path, string>, path: Path, decode: (Format, string) -> Result<T, string>)
    : (r: Result<T, ConfigError>)
    ensures r == Err(Io) <==> path !in files
    ensures path in files && r.Err? ==> r.error.Deserialization?
    ensures forall f :: path in files && ExtensionOf(path) in Contribution(f) ==>
      ReportsDecode(r, f, decode(f, files[path]))
    ensures path in files && (forall f :: ExtensionOf(path) !in Contribution(f)) ==>
      r == Err(Deserialization(DeserializationError.UnsupportedExtension(ExtensionOf(path))))
  {
    match Read(files, path)
    case Err(e) => Err(e)
    case Ok(text) =>
      match Deserialize(text, ExtensionOf(path), decode)
      case Ok(v) => Ok(v)
      case Err(e) => Err(Deserialization(e))
  }

  /**
   * A candidate found by the search is decoded by the decoder of a listed
   * format that contributed its extension, provided the file name is not empty.
   */
  lemma FoundFileDecodesWithItsFormat<T>(c: ConfigLoader, dir: Path, files: map<Path, string>, i: nat,
                                          decode: (Format, string) -> Result<T, string>)
    requires c.fileName != ""
    requires i < |ExtensionsOf(c.formats)|
    requires Candidate(dir, c.fileName, ExtensionsOf(c.formats)[i]) in files
    ensures exists f :: f in c.formats && ExtensionsOf(c.formats)[i] in Contribution(f)
    ensures var ext := ExtensionsOf(c.formats)[i];
      var path := Candidate(dir, c.fileName, ext);
      forall f :: ext in Contribution(f) ==> f in c.formats && ReportsDecode(Load(files, path, decode), f, decode(f, files[path]))
  {
    var ext := ExtensionsOf(c.formats)[i];
    ExtensionsOfMembership(c.formats, ext);
    var g :| g in c.formats && ext in Contribution(g);
    forall f | ext in Contribution(f) ensures f in c.formats {
      ContributionsDisjoint(f, g, ext);
    }
    JoinedExtension(dir, c.fileName, ext);
  }

  /**
   * With an empty file name every candidate is a hidden name `.<ext>`, which
   * has no extension, so a found file is always rejected as `UnsupportedExtension("")`.
   */
  lemma EmptyFileNameIsUnsupported<T>(dir: Path, ext: string, files: map<Path, string>,
                                      decode: (Format, string) -> Result<T, string>)
    requires '.' !in ext
    requires Candidate(dir, "", ext) in files
    ensures Load(files, Candidate(dir, "", ext), decode) == Err(Deserialization(DeserializationError.UnsupportedExtension("")))
  {
  }

  /** Locates the configuration file and loads it. */
  method FindAndLoad<T(==)>(c: ConfigLoader, platformConfig: Option<Path>, home: Option<Path>, fs: FileSystem,
                        decode: (Format, string) -> Result<T, string>)
    returns (r: Result<T, ConfigError>)
    ensures GetConfigDir(c, platformConfig, home).Err? ==> r == Err(MissingUserDir)
    ensures GetConfigDir(c, platformConfig, home).Ok? ==>
      var dir := GetConfigDir(c, platformConfig, home).value;
      var exts := ExtensionsOf(c.formats);
      ((forall i :: 0 <= i < |exts| ==> Candidate(dir, c.fileName, exts[i]) !in fs.entries) ==> r == Err(FileNotFound)) &&
      (forall i :: FirstExisting(dir, c.fileName, exts, fs.entries, i) ==>
        r == Load(fs.contents, Candidate(dir, c.fileName, exts[i]), decode))
  {
    var file := TryFindFile(c, platformConfig, home, fs);
    if file.Err? {
      return Err(file.error);
    }
    r := Load(fs.contents, file.value, decode);
  }

  // ----------------------------------------------------------- writing

  function Encoded(f: Format, res: Result<string, string>): Result<string, SerializationError>
  {
    match res
    case Ok(text) => Ok(text)
    case Err(m) => Err(EncodeFailed(f, m))
  }

  /** The encoder dispatch: every format but Corn has an encoder; Corn is `UnsupportedExtension("corn")`. */
  function Encode<T>(config: T, format: Format, encode: (Format, T) -> Result<string, string>)
    : (r: Result<string, SerializationError>)
    ensures format == Corn ==> r == Err(SerializationError.UnsupportedExtension("corn"))
    ensures format != Corn ==> (r.Ok? <==> encode(format, config).Ok?)
    ensures r.Ok? ==> r.value == encode(format, config).value
    ensures format != Corn && r.Err? ==> r.error == EncodeFailed(format, encode(format, config).error)
  {
    match format
    case Json => Encoded(Json, encode(Json, config))
    case Yaml => Encoded(Yaml, encode(Yaml, config))
    case Toml => Encoded(Toml, encode(Toml, config))
    case Corn => Err(SerializationError.UnsupportedExtension("corn"))
    case Xml => Encoded(Xml, encode(Xml, config))
  }

  /** The file `save` writes: `<dir>/<fileName>.<canonical extension>`. */
  function SavePath(dir: Path, fileName: string, format: Format): Path
  {
    Join(dir, fileName + "." + Extension(format))
  }

  /**
   * A file written by `save` in some format is decoded, when loaded from
   * where it was written, by that same format's decoder.
   */
  lemma SavedFileDecodesWithSameFormat<T>(dir: Path, fileName: string, format: Format, text: string,
                                          files: map<Path, string>, decode: (Format, string) -> Result<T, string>)
    requires fileName != ""
    ensures var p := SavePath(dir, fileName, format);
      ReportsDecode(Load(files[p := text], p, decode), format, decode(format, text))
  {
    JoinedExtension(dir, fileName, Extension(format));
  }

  /**
   * Encodes first, then resolves the directory, creates it, and writes the
   * one file `SavePath(dir, fileName, format)`. Each failure stops the
   * sequence; nothing is changed unless the directory resolved.
   */
  method Save<T>(c: ConfigLoader, config: T, format: Format, encode: (Format, T) -> Result<string, string>,
                 platformConfig: Option<Path>, home: Option<Path>, fs: FileSystem)
    returns (r: Result<(), ConfigError>)
    requires fs.Valid()
    modifies fs
    ensures fs.Valid()
    ensures Encode(config, format, encode).Err? ==>
      r == Err(Serialization(Encode(config, format, encode).error)) && fs.contents == old(fs.contents) && fs.entries == old(fs.entries)
    ensures Encode(config, format, encode).Ok? && GetConfigDir(c, platformConfig, home).Err? ==>
      r == Err(MissingUserDir) && fs.contents == old(fs.contents) && fs.entries == old(fs.entries)
    ensures Encode(config, format, encode).Ok? && GetConfigDir(c, platformConfig, home).Ok? ==>
      var dir := GetConfigDir(c, platformConfig, home).value;
      var path := SavePath(dir, c.fileName, format);
      if BlockedByFile(old(fs.contents), dir) then
        r == Err(Io) && fs.contents == old(fs.contents) && fs.entries == old(fs.entries)
      else if path in old(fs.entries) && path !in old(fs.contents) then
        r == Err(Io) && fs.contents == old(fs.contents) && fs.entries == old(fs.entries) + Prefixes(dir)
      else
        r == Ok(()) &&
        fs.contents == old(fs.contents)[path := Encode(config, format, encode).value] &&
        fs.entries == old(fs.entries) + Prefixes(dir) + {path}
    ensures r.Err? ==> fs.contents == old(fs.contents)
    ensures r.Ok? ==> GetConfigDir(c, platformConfig, home).Ok?
    ensures r.Ok? ==>
      var path := SavePath(GetConfigDir(c, platformConfig, home).value, c.fileName, format);
      forall p :: p in old(fs.contents) && p != path ==> p in fs.contents && fs.contents[p] == old(fs.contents)[p]
  {
    var encoded := Encode(config, format, encode);
    if encoded.Err? {
      return Err(Serialization(encoded.error));
    }
    var dirResult := GetConfigDir(c, platformConfig, home);
    if dirResult.Err? {
      return Err(dirResult.error);
    }
    var dir := dirResult.value;
    var fullPath := SavePath(dir, c.fileName, format);
    var created := fs.CreateDirAll(dir);
    if !created {
      return Err(Io);
    }
    assert fullPath !in Prefixes(dir);
    var written := fs.Write(fullPath, encoded.value);
    if !written {
      return Err(Io);
    }
    return Ok(());
  }
}

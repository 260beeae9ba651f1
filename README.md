# universal-config: locating, dispatching and saving configuration files

A Dafny model of `ConfigLoader` from the Rust crate `universal-config`
(src/lib.rs). Given an application name, the loader finds the directory
that holds its configuration, probes it for `<file name>.<extension>` over
the extensions of the allowed formats in order, reads the first file that
exists and hands its text to the decoder chosen by the file's extension.
`save` encodes a value in a chosen format and writes it to
`<directory>/<file name>.<canonical extension>`, creating the directory
first.

Modules:

- `Outcomes`: `Option` and `Result`.
- `Formats`: the `Format` enumeration, its canonical extension
  (`Format::extension`), the extensions each format is searched under, and
  the flattening of a format list into the candidate extensions.
- `Errors`: the errors src/lib.rs constructs: `MissingUserDir`,
  `FileNotFound`, `Io`, `Deserialization(UnsupportedExtension | DecodeFailed)`
  and `Serialization(UnsupportedExtension | EncodeFailed)`.
- `Paths`: paths as sequences of segments, `Join` (`PathBuf::join` of one
  segment) and `ExtensionOf` (`Path::extension` with an absent extension
  read as `""`, as `unwrap_or_default` does).
- `Files`: the file system as state: a class `FileSystem` whose `entries`
  are the paths that exist (files and directories, as `Path::exists` sees
  them) and whose `contents` map each file to its text; `Read`
  (`fs::read_to_string`), `CreateDirAll` (`fs::create_dir_all`) and `Write`
  (`fs::write`).
- `Loader`: the `ConfigLoader` value, its builders, directory resolution,
  the candidate search, decode and encode dispatch, `FindAndLoad`, `Load`
  and `Save`.

The platform queries `dirs::config_dir` and `dirs::home_dir` are the
parameters `platformConfig` and `home`. The format libraries (serde_json,
serde_yaml, toml, libcorn, serde_xml_rs) are the parameters
`decode: (Format, string) -> Result<T, string>` and
`encode: (Format, T) -> Result<string, string>`; a library failure carries
its message, which the loader passes on unchanged inside `DecodeFailed` or
`EncodeFailed`.

Where descriptions of the crate and its code differ, the model follows the
code: the decoder is chosen by an exact, case-sensitive comparison of the
extension (there is no lower-casing), and the search accepts any existing
path, directory or file, because `Path::exists` does not check the type.

## Model

| member | source | states |
|---|---|---|
| `Formats.Extension` | src/lib.rs:36-49 | every canonical extension is non-empty and contains no dot, so it is what `Path::extension` returns for `name.<ext>` |
| `Formats.Contribution` | src/lib.rs:192-207 | YAML is searched as `yaml` then `yml`, every other format under one extension; the first extension of each format is its canonical one |
| `Formats.ContributionsDisjoint` | src/lib.rs:192-207 | no extension is contributed by two formats, so a candidate extension names exactly one format |
| `Formats.ExtensionsOfConcat` | src/lib.rs:189-211 | the candidate list of a concatenation of format lists is the concatenation of their candidate lists: order is preserved |
| `Formats.ExtensionsOfLength` | src/lib.rs:189-211 | there are as many candidates as formats plus the number of YAML entries; an empty format list gives no candidates |
| `Formats.ExtensionsOfMembership` | src/lib.rs:189-211 | an extension is a candidate if and only if some listed format contributes it: nothing is added and nothing dropped |
| `Formats.CanonicalExtensionPosition` | src/lib.rs:189-211 | the extensions of the i-th format follow those of the formats before it, as one block that begins with its canonical extension |
| `Loader.New` | src/lib.rs:76-94 | a new loader keeps the application name, has file name `config`, no directory override, and the formats Json, Yaml, Toml, Corn, Xml in that order, which is every format |
| `Loader.DefaultCandidates` | src/lib.rs:80-91 | with the default formats the search probes json, yaml, yml, toml, corn, xml in that order |
| `Loader.WithFileName` | src/lib.rs:99-102 | sets the file name and leaves the application name, formats and override unchanged |
| `Loader.WithFormats` | src/lib.rs:108-111 | sets the format list and leaves the other three fields unchanged |
| `Loader.WithConfigDir` | src/lib.rs:117-120 | sets the override to the given directory and leaves the other three fields unchanged |
| `Loader.GetConfigDir` | src/lib.rs:135-141 | precedence without combination: a set override is returned as given whatever the platform reports; else the platform configuration directory joined with the application name; else home joined with `.` and the name; `MissingUserDir` exactly when all three are absent |
| `Loader.GetExtensions` | src/lib.rs:189-211 | the loop that pushes each format's extensions builds exactly the order-preserving flattening `ExtensionsOf(formats)` |
| `Loader.LaterCandidatesIgnored` | src/lib.rs:153-161 | once a candidate is the first that exists, making any later candidates (or unrelated paths) exist does not change the choice, and no other index is first |
| `Loader.TryFindFile` | src/lib.rs:146-164 | fails with `MissingUserDir` before probing when no directory resolves; otherwise returns the first candidate `<dir>/<file>.<ext>` that exists with no earlier candidate existing, and fails with `FileNotFound` exactly when no candidate exists |
| `Loader.Deserialize` | src/lib.rs:215-236 | an extension recognised by a format (json, toml, yaml or yml, corn, xml) is decoded by that format's decoder, its failure reported with its message; every other extension, and only those, gives `UnsupportedExtension` carrying the extension unchanged |
| `Loader.UnrecognisedExtensions` | src/lib.rs:230-232 | `JSON`, the empty string and `ini` are unsupported extensions, reported as given |
| `Loader.Load` | src/lib.rs:174-186 | the file is read first: `Io` exactly when the path holds no text, and decoding is never attempted then; otherwise every failure is a deserialization failure, the decoder is the one for the path's extension, and an unknown or missing extension gives `UnsupportedExtension` of that extension (`""` when there is none) |
| `Loader.FindAndLoad` | src/lib.rs:128-132 | `MissingUserDir` when no directory resolves, `FileNotFound` when no candidate exists, and otherwise the result of loading the first existing candidate |
| `Loader.FoundFileDecodesWithItsFormat` | src/lib.rs:153-184 | every candidate extension comes from a listed format, and with a non-empty file name a file found at that candidate is decoded by exactly that format's decoder |
| `Loader.EmptyFileNameIsUnsupported` | src/lib.rs:177-184 | with an empty file name a candidate is the hidden name `.<ext>`, which has no extension, so loading it fails with `UnsupportedExtension("")` |
| `Loader.Encode` | src/lib.rs:252-263 | Corn has no encoder and always fails with `UnsupportedExtension("corn")`; every other format succeeds exactly when its encoder does, with the encoder's text, or fails with the encoder's message |
| `Loader.SavedFileDecodesWithSameFormat` | src/lib.rs:266-270 | with a non-empty file name, the file `save` writes in a format has that format's canonical extension (`yaml`, never `yml`), so loading it back uses that same format's decoder on the written text |
| `Loader.Save` | src/lib.rs:251-273 | encodes before resolving the directory (so Corn fails even when no directory exists) and changes nothing on an encoding or directory failure; then creates the directory and its ancestors, failing with `Io` if a file is in the way; then writes only `<dir>/<file>.<canonical extension>`, failing with `Io` if that is a directory; no other file's text changes |
| `Paths.LastDot` | src/lib.rs:177-182 | finds the final dot of a file name: it is a dot and none follows it, and there is none exactly when the name has no dot |
| `Paths.ExtensionOf` | src/lib.rs:177-182 | the extension contains no dot and, when non-empty, is preceded by a dot that is not the first character of the last segment |
| `Paths.JoinedExtension` | src/lib.rs:154 | the extension of `<dir>/<stem>.<ext>` with a non-empty stem and dot-free `ext` is `ext`, so every candidate path carries the extension it was built from |
| `Paths.HiddenNameHasNoExtension` | src/lib.rs:177-182 | `<dir>/.<ext>` has no extension (read as `""`), as for a hidden file |

## Left out

- Real file-system effects: permissions, full disks, races between probing and reading, partial writes, and `read_to_string` rejecting text that is not UTF-8 are not modelled; `Io` arises only from the structural cases above (no text at the path, a file in the way of a directory, a directory in the way of the file).
- `Files.FileSystem.Write` does not check that the parent directory exists; `Save` always creates it first, so this matters only to other callers.
- `PathBuf::join` with absolute components, multi-segment file names and the conversion of the override string into a path: paths are sequences of segments, and `WithConfigDir` takes the override already split into segments.
- Non-UTF-8 file names (the `to_str` fallback at src/lib.rs:181-182) cannot occur, since segments are strings.
- The format libraries themselves: decoding and encoding are parameters, so the save-then-load round trip of a value is not stated; `SavedFileDecodesWithSameFormat` states only that the written file is routed back to the same format's decoder.
- Feature gating (`#[cfg(feature = ...)]`): all formats are assumed enabled.
- Logging (`tracing::debug!`) has no effect on results.
- The unit tests of src/lib.rs depend on files on disk.
- src/error.rs declares error enums only and does not match the names src/lib.rs imports; the error datatypes follow the variants src/lib.rs uses, and the unused `Encoding` variant is omitted.
- Lifetimes and borrowing of the loader's fields (`&'a str`, `&'a [Format]`) have no counterpart: the loader is a value.

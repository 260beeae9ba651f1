/**
 * The supported configuration formats (`Format` in src/lib.rs), the canonical
 * extension each is written with, and the extensions each is searched for
 * when reading.
 */
module Formats {

  datatype Format = Json | Yaml | Toml | Corn | Xml

  /** `Format::extension`: the extension a file of this format is saved with. */
  function Extension(f: Format): (e: string)
    ensures e != [] && '.' !in e
  {
    match f
    case Json => "json"
    case Yaml => "yaml"
    case Toml => "toml"
    case Corn => "corn"
    case Xml => "xml"
  }

  /**
   * The extensions one format adds to the search list, in the order they are
   * probed: YAML is looked for as `yaml` and then `yml`, every other format
   * under its canonical extension only.
   */
  function Contribution(f: Format): (exts: seq<string>)
    ensures |exts| == if f == Yaml then 2 else 1
    ensures exts[0] == Extension(f)
    ensures forall i :: 0 <= i < |exts| ==> exts[i] != [] && '.' !in exts[i]
  {
    match f
    case Json => ["json"]
    case Yaml => ["yaml", "yml"]
    case Toml => ["toml"]
    case Corn => ["corn"]
    case Xml => ["xml"]
  }

  /** No extension belongs to two formats, so an extension names at most one decoder. */
  lemma ContributionsDisjoint(f: Format, g: Format, e: string)
    requires e in Contribution(f) && e in Contribution(g)
    ensures f == g
  {
  }

  /** The candidate extensions of a format list: the contributions, concatenated in list order. */
  function ExtensionsOf(formats: seq<Format>): seq<string>
  {
    if formats == [] then [] else Contribution(formats[0]) + ExtensionsOf(formats[1..])
  }

  /** Flattening distributes over concatenation of format lists: order is preserved. */
  lemma {:induction false} ExtensionsOfConcat(a: seq<Format>, b: seq<Format>)
    ensures ExtensionsOf(a + b) == ExtensionsOf(a) + ExtensionsOf(b)
  {
    if a == [] {
      assert a + b == b;
    } else {
      assert (a + b)[1..] == a[1..] + b;
      ExtensionsOfConcat(a[1..], b);
    }
  }

  /** There is one candidate per format, plus one for every YAML entry (`yml`). */
  lemma {:induction false} ExtensionsOfLength(formats: seq<Format>)
    ensures |ExtensionsOf(formats)| == |formats| + multiset(formats)[Yaml]
  {
    if formats != [] {
      assert formats == [formats[0]] + formats[1..];
      assert multiset(formats) == multiset{formats[0]} + multiset(formats[1..]);
      ExtensionsOfLength(formats[1..]);
    }
  }

  /** An extension is a candidate exactly when some listed format contributes it: nothing is added. */
  lemma {:induction false} ExtensionsOfMembership(formats: seq<Format>, e: string)
    ensures e in ExtensionsOf(formats) <==> exists f :: f in formats && e in Contribution(f)
  {
    if formats != [] {
      ExtensionsOfMembership(formats[1..], e);
      assert forall f :: f in formats <==> f == formats[0] || f in formats[1..];
    }
  }

  /**
   * The entries of format `formats[i]` start right after the entries of the
   * formats before it, and the first of them is its canonical extension.
   */
  lemma CanonicalExtensionPosition(formats: seq<Format>, i: nat)
    requires i < |formats|
    ensures var k := |ExtensionsOf(formats[..i])|;
      k + |Contribution(formats[i])| <= |ExtensionsOf(formats)| &&
      ExtensionsOf(formats)[k..k + |Contribution(formats[i])|] == Contribution(formats[i]) &&
      ExtensionsOf(formats)[k] == Extension(formats[i])
  {
    assert formats == formats[..i] + ([formats[i]] + formats[i + 1..]);
    ExtensionsOfConcat(formats[..i], [formats[i]] + formats[i + 1..]);
    assert ([formats[i]] + formats[i + 1..])[1..] == formats[i + 1..];
  }
}

/**
 * The vocabulary of the repository's `check` tool: release channels, build
 * targets and workspace packages, with their parsers, their full and default
 * lists, and the strings and paths derived from them.
 */
module CheckData {
  import opened Wrappers

  // ------------------------------------------------------------------ Channel

  datatype Channel = Stable | Nightly

  /** `all_channels`: every channel, stable first. */
  function AllChannels(): (r: seq<Channel>)
    ensures |r| == 2 && r[0] != r[1]
  {
    [Stable, Nightly]
  }

  /** `all_channels` lists every channel. */
  lemma AllChannelsComplete()
    ensures forall c: Channel :: c in AllChannels()
  {
    forall c: Channel
      ensures c in AllChannels()
    {
      match c
      case Stable =>
      case Nightly =>
    }
  }

  /** `default_channels` is `all_channels`, so by default every channel is checked. */
  function DefaultChannels(): (r: seq<Channel>)
    ensures r == AllChannels()
    ensures forall c: Channel :: c in r
  {
    AllChannelsComplete();
    AllChannels()
  }

  /** `Channel::parse`: exactly the two channel names; anything else is an error naming it. */
  function ParseChannel(s: string): (r: Result<Channel, string>)
    ensures r.Ok? <==> s == "stable" || s == "nightly"
    ensures r == Ok(Stable) <==> s == "stable"
    ensures r.Err? ==> r.error == "Unknown channel name: " + s
  {
    match s
    case "stable" => Ok(Stable)
    case "nightly" => Ok(Nightly)
    case _ => Err("Unknown channel name: " + s)
  }

  // ------------------------------------------------------------------- Target

  datatype Target = Native | AppleSilicon | Linux | Windows | Wasm | Custom(triple: string)

  /** `all_targets`: the four named cross targets, neither `Native` nor any `Custom`. */
  function AllTargets(): (r: seq<Target>)
    ensures forall t: Target :: t in r <==> !t.Native? && !t.Custom?
    ensures |r| == 4
  {
    [AppleSilicon, Linux, Windows, Wasm]
  }

  /** `default_targets`: Apple silicon and Wasm, a sub-list of `all_targets`. */
  function DefaultTargets(): (r: seq<Target>)
    ensures r == [AppleSilicon, Wasm]
    ensures forall t :: t in r ==> t in AllTargets()
  {
    [AppleSilicon, Wasm]
  }

  /** Every string `Target::parse` maps to a named target. */
  const TARGET_ALIASES: set<string> := {
    "native",
    "apple", "apple-silicon", "aarch64-apple-darwin",
    "linux", "x86_64-unknown-linux-gnu",
    "windows", "x86_64-pc-windows-msvc",
    "wasm", "wasm32", "wasm32-unknown-unknown"
  }

  /**
   * `Target::parse`: never fails. A listed alias gives its named target and
   * every other string becomes `Custom` of that same string.
   */
  function ParseTarget(s: string): (r: Target)
    ensures r.Custom? <==> s !in TARGET_ALIASES
    ensures r.Custom? ==> r.triple == s
    ensures r.Native? <==> s == "native"
    ensures s in TargetAliases(r)
  {
    match s
    case "native" => Native
    case "apple" => AppleSilicon
    case "apple-silicon" => AppleSilicon
    case "aarch64-apple-darwin" => AppleSilicon
    case "linux" => Linux
    case "x86_64-unknown-linux-gnu" => Linux
    case "windows" => Windows
    case "x86_64-pc-windows-msvc" => Windows
    case "wasm" => Wasm
    case "wasm32" => Wasm
    case "wasm32-unknown-unknown" => Wasm
    case _ => Custom(s)
  }

  /**
   * The strings `Target::parse` maps to `t`: the alias table for a named
   * target, and for a custom target its own triple unless that is an alias.
   */
  function TargetAliases(t: Target): (r: set<string>)
    ensures !t.Custom? ==> r <= TARGET_ALIASES
    ensures t.Custom? ==> r * TARGET_ALIASES == {}
  {
    match t
    case Native => {"native"}
    case AppleSilicon => {"apple", "apple-silicon", "aarch64-apple-darwin"}
    case Linux => {"linux", "x86_64-unknown-linux-gnu"}
    case Windows => {"windows", "x86_64-pc-windows-msvc"}
    case Wasm => {"wasm", "wasm32", "wasm32-unknown-unknown"}
    case Custom(triple) => if triple in TARGET_ALIASES then {} else {triple}
  }

  /** `Target::parse` gives `t` exactly on the strings in `t`'s alias table. */
  lemma ParseTargetAliases(s: string, t: Target)
    ensures ParseTarget(s) == t <==> s in TargetAliases(t)
  {
  }

  /** `target_triple`: `None` only for `Native`; a custom target is its own triple. */
  function TargetTriple(t: Target): (r: Option<string>)
    ensures r.None? <==> t.Native?
    ensures t.Custom? ==> r == Some(t.triple)
  {
    match t
    case Native => None
    case AppleSilicon => Some("aarch64-apple-darwin")
    case Linux => Some("x86_64-unknown-linux-gnu")
    case Windows => Some("x86_64-pc-windows-msvc")
    case Wasm => Some("wasm32-unknown-unknown")
    case Custom(triple) => Some(triple)
  }

  /** Parsing the triple of a named target gives that target back. */
  lemma NamedTargetTripleRoundTrip(t: Target)
    requires t in AllTargets()
    ensures TargetTriple(t).Some? && ParseTarget(TargetTriple(t).value) == t
  {
  }

  /**
   * Every target that `Target::parse` produces, other than `Native`, is
   * recovered by parsing its triple.
   */
  lemma ParsedTargetTripleRoundTrip(s: string)
    requires ParseTarget(s) != Native
    ensures TargetTriple(ParseTarget(s)).Some?
    ensures ParseTarget(TargetTriple(ParseTarget(s)).value) == ParseTarget(s)
  {
    var t := ParseTarget(s);
    if t.Custom? {
      assert TargetTriple(t).value == s;
    } else {
      NamedTargetTripleRoundTrip(t);
    }
  }

  // ------------------------------------------------------------------ Package

  datatype Package = GenericContainer | ThreadCheckedMutex

  /** `all_packages`: both workspace crates. */
  function AllPackages(): (r: seq<Package>)
    ensures |r| == 2 && r[0] != r[1]
  {
    [GenericContainer, ThreadCheckedMutex]
  }

  /** `all_packages` lists every package. */
  lemma AllPackagesComplete()
    ensures forall p: Package :: p in AllPackages()
  {
    forall p: Package
      ensures p in AllPackages()
    {
      match p
      case GenericContainer =>
      case ThreadCheckedMutex =>
    }
  }

  /** `default_packages` is `all_packages`, so by default every package is checked. */
  function DefaultPackages(): (r: seq<Package>)
    ensures r == AllPackages()
    ensures forall p: Package :: p in r
  {
    AllPackagesComplete();
    AllPackages()
  }

  /** `package_name`: the crate name. */
  function PackageName(p: Package): (r: string)
    ensures |r| > 0
  {
    match p
    case GenericContainer => "generic-container"
    case ThreadCheckedMutex => "thread-checked-mutex"
  }

  /** Distinct packages have distinct names. */
  lemma PackageNameInjective(p: Package, q: Package)
    ensures PackageName(p) == PackageName(q) ==> p == q
  {
  }

  /** The short alias `Package::parse` also accepts. */
  function ShortAlias(p: Package): (r: string)
    ensures r != PackageName(p)
  {
    match p
    case GenericContainer => "container"
    case ThreadCheckedMutex => "mutex"
  }

  /** `Package::parse`: the crate name or its short alias; anything else is an error naming it. */
  function ParsePackage(s: string): (r: Result<Package, string>)
    ensures r.Ok? ==> s == PackageName(r.value) || s == ShortAlias(r.value)
    ensures r.Err? ==> r.error == "Unknown package name: " + s
  {
    match s
    case "container" => Ok(GenericContainer)
    case "generic-container" => Ok(GenericContainer)
    case "mutex" => Ok(ThreadCheckedMutex)
    case "thread-checked-mutex" => Ok(ThreadCheckedMutex)
    case _ => Err("Unknown package name: " + s)
  }

  /** The package name and the short alias are exactly the strings that parse to a package. */
  lemma ParsePackageExactly(s: string, p: Package)
    ensures ParsePackage(s) == Ok(p) <==> s == PackageName(p) || s == ShortAlias(p)
  {
  }

  /** `Package::parse(package_name(p)) == p`. */
  lemma PackageNameRoundTrip(p: Package)
    ensures ParsePackage(PackageName(p)) == Ok(p)
  {
    ParsePackageExactly(PackageName(p), p);
  }

  /** `package_dir`: the crate's directory under `crates/`, from which the crate name can be read back. */
  function PackageDir(p: Package): (r: string)
    ensures |r| > 7 && r[..7] == "crates/" && r[7..] == PackageName(p)
  {
    "crates/" + PackageName(p)
  }

  /**
   * `dependencies`: the paths whose changes invalidate a package's cache; the
   * four workspace-wide paths, then the package's own directory.
   */
  function Dependencies(p: Package): (r: seq<string>)
    ensures |r| == 5
    ensures r[..4] == ["Cargo.toml", "clippy.toml", "check", "Justfile"]
    ensures r[4] == PackageDir(p)
  {
    ["Cargo.toml", "clippy.toml", "check", "Justfile"] + [PackageDir(p)]
  }

  /** `flags`: selects the package, whatever the channel and target. */
  function Flags(p: Package, channel: Channel, target: Target): (r: seq<string>)
    ensures |r| == 2 && r[0] == "--package"
    ensures r[1] == PackageName(p) && ParsePackage(r[1]) == Ok(p)
  {
    PackageNameRoundTrip(p);
    ["--package", PackageName(p)]
  }
}

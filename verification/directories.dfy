/**
 * The directory constants: per-category state directories, the ordered cache
 * candidates, the config-derived link and global directories and the two
 * global prefixes. A path is a sequence of segments, so joining is concatenation.
 */
module Directories {
  import opened Options
  import opened Platforms
  import opened Environment

  type Path = seq<string>

  /** The globals the module reads at load time: `process.platform`, `process.env`, the user's home and `os.tmpdir()`. */
  datatype Host = Host(platform: Platform, env: Env, home: string, tmp: string) {
    predicate Valid() {
      platform.Valid()
    }
  }

  /** `a` is a proper leading part of `b`. */
  predicate IsStrictPrefix(a: Path, b: Path) {
    |a| < |b| && b[..|a|] == a
  }

  /** Windows with a non-empty LOCALAPPDATA: state lives under it. */
  predicate UsesLocalAppData(host: Host) {
    host.platform.Win32? && Truthy(Lookup(host.env, "LOCALAPPDATA"))
  }

  /** `getDirectory(category)`. */
  function GetDirectory(host: Host, category: string): (r: Path)
    requires host.Valid()
    ensures |r| == 3
    ensures UsesLocalAppData(host) <==>
      exists i :: 0 <= i < |host.env| && host.env[i].name == "LOCALAPPDATA" && host.env[i].value.Some?
        && host.env[i].value.value != "" && host.platform.Win32?
        && r == [host.env[i].value.value, "Yarn", category]
    ensures !UsesLocalAppData(host) ==> r == [host.home, "." + category, "yarn"]
  {
    if UsesLocalAppData(host) then [Lookup(host.env, "LOCALAPPDATA").value, "Yarn", category]
    else [host.home, "." + category, "yarn"]
  }

  /** Recovers the category from a directory built by GetDirectory on the same host. */
  function CategoryOf(host: Host, dir: Path): Option<string> {
    if UsesLocalAppData(host) then
      if |dir| == 3 && dir[0] == Lookup(host.env, "LOCALAPPDATA").value && dir[1] == "Yarn"
      then Some(dir[2]) else None
    else if |dir| == 3 && dir[0] == host.home && |dir[1]| >= 1 && dir[1][0] == '.' && dir[2] == "yarn"
    then Some(dir[1][1..])
    else None
  }

  /** GetDirectory and CategoryOf are inverse: a directory names exactly one category. */
  lemma CategoryRoundTrip(host: Host, category: string, dir: Path)
    requires host.Valid()
    ensures CategoryOf(host, GetDirectory(host, category)) == Some(category)
    ensures CategoryOf(host, dir) == Some(category) ==> GetDirectory(host, category) == dir
  {
    var d := GetDirectory(host, category);
    if !UsesLocalAppData(host) {
      assert d[1] == "." + category;
      assert d[1][1..] == category;
      if CategoryOf(host, dir) == Some(category) {
        assert dir[1] == [dir[1][0]] + dir[1][1..];
      }
    }
  }

  /** Distinct categories never share a directory. */
  lemma {:induction false} DirectoriesDistinct(host: Host, c1: string, c2: string)
    requires host.Valid()
    requires c1 != c2
    ensures GetDirectory(host, c1) != GetDirectory(host, c2)
  {
    CategoryRoundTrip(host, c1, GetDirectory(host, c1));
    CategoryRoundTrip(host, c2, GetDirectory(host, c2));
  }

  /** The always-present last cache candidate under the temporary directory. */
  function TmpCacheDirectory(host: Host): Path {
    [host.tmp, ".yarn-cache"]
  }

  /** `getPreferredCacheDirectories()`, most preferred first. */
  function PreferredCacheDirectories(host: Host): (r: seq<Path>)
    requires host.Valid()
    ensures |r| == 2
    ensures r[|r| - 1] == [host.tmp, ".yarn-cache"]
    ensures host.platform.Darwin? ==> r[0] == [host.home, "Library", "Caches", "Yarn"]
    ensures !host.platform.Darwin? ==> r[0] == GetDirectory(host, "cache")
  {
    var first := if host.platform.Darwin? then [host.home, "Library", "Caches", "Yarn"]
                 else GetDirectory(host, "cache");
    [first] + [TmpCacheDirectory(host)]
  }

  /**
   * On macOS the first candidate is never of the generic category form; on
   * every other platform it is exactly the "cache" category directory.
   */
  lemma FirstCacheCandidate(host: Host)
    requires host.Valid()
    ensures host.platform.Darwin? ==>
      CategoryOf(host, PreferredCacheDirectories(host)[0]) == None
    ensures !host.platform.Darwin? ==>
      CategoryOf(host, PreferredCacheDirectories(host)[0]) == Some("cache")
  {
    CategoryRoundTrip(host, "cache", GetDirectory(host, "cache"));
  }

  /** `CONFIG_DIRECTORY`. */
  function ConfigDirectory(host: Host): (r: Path)
    requires host.Valid()
    ensures CategoryOf(host, r) == Some("config")
  {
    CategoryRoundTrip(host, "config", GetDirectory(host, "config"));
    GetDirectory(host, "config")
  }

  /** `LINK_REGISTRY_DIRECTORY`: one segment below the config directory. */
  function LinkRegistryDirectory(host: Host): (r: Path)
    requires host.Valid()
    ensures IsStrictPrefix(ConfigDirectory(host), r)
    ensures |r| == |ConfigDirectory(host)| + 1 && r[|r| - 1] == "link"
  {
    ConfigDirectory(host) + ["link"]
  }

  /** `GLOBAL_MODULE_DIRECTORY`: one segment below the config directory. */
  function GlobalModuleDirectory(host: Host): (r: Path)
    requires host.Valid()
    ensures IsStrictPrefix(ConfigDirectory(host), r)
    ensures |r| == |ConfigDirectory(host)| + 1 && r[|r| - 1] == "global"
  {
    ConfigDirectory(host) + ["global"]
  }

  /** `FALLBACK_GLOBAL_PREFIX`: the hidden tool directory in the user's home. */
  function FallbackGlobalPrefix(host: Host): (r: Path)
    ensures |r| == 2 && r[0] == host.home && r[1] == ".yarn"
  {
    [host.home, ".yarn"]
  }

  /** The literal suffix of the POSIX prefix. */
  const UsrLocal: string := "/usr/local"

  /**
   * `POSIX_GLOBAL_PREFIX`: the value of the variable spelled DESTIR (when
   * truthy) followed by "/usr/local", by plain string concatenation.
   */
  function PosixGlobalPrefix(env: Env): (r: string)
    ensures |r| >= |UsrLocal| && r[|r| - |UsrLocal|..] == UsrLocal
    ensures (exists i :: 0 <= i < |env| && env[i].name == "DESTIR" && Truthy(env[i].value)
              && r[..|r| - |UsrLocal|] == env[i].value.value)
         || (r == UsrLocal && forall i :: 0 <= i < |env| && env[i].name == "DESTIR" ==> !Truthy(env[i].value))
  {
    Lookup(env, "DESTIR").GetOr("") + UsrLocal
  }

  /**
   * Only the literal name DESTIR is read: an extra entry under any other
   * name, the conventional DESTDIR included, leaves the prefix unchanged.
   */
  lemma {:induction false} PosixPrefixReadsOnlyDestir(env: Env, entry: EnvVar)
    requires entry.name != "DESTIR"
    requires DistinctNames(env + [entry])
    ensures PosixGlobalPrefix(env + [entry]) == PosixGlobalPrefix(env)
  {
    LookupAppendOther(env, entry, "DESTIR");
  }

  lemma {:induction false} LookupAppendOther(env: seq<EnvVar>, entry: EnvVar, name: string)
    requires entry.name != name
    ensures Lookup(env + [entry], name) == Lookup(env, name)
    decreases |env|
  {
    if env == [] {
      assert env + [entry] == [entry];
    } else {
      assert (env + [entry])[1..] == env[1..] + [entry];
      LookupAppendOther(env[1..], entry, name);
    }
  }

  /** Every location the module exports, resolved once from the host. */
  datatype ResolvedDirectories = ResolvedDirectories(
    configDirectory: Path,
    cacheDirectoryCandidates: seq<Path>,
    linkRegistryDirectory: Path,
    globalModuleDirectory: Path,
    fallbackGlobalPrefix: Path,
    posixGlobalPrefix: string)

  function ResolveDirectories(host: Host): (r: ResolvedDirectories)
    requires host.Valid()
    ensures r.configDirectory == ConfigDirectory(host)
    ensures r.cacheDirectoryCandidates == PreferredCacheDirectories(host)
    ensures r.linkRegistryDirectory == LinkRegistryDirectory(host)
    ensures r.globalModuleDirectory == GlobalModuleDirectory(host)
    ensures r.fallbackGlobalPrefix == FallbackGlobalPrefix(host)
    ensures r.posixGlobalPrefix == PosixGlobalPrefix(host.env)
    ensures IsStrictPrefix(r.configDirectory, r.linkRegistryDirectory)
    ensures IsStrictPrefix(r.configDirectory, r.globalModuleDirectory)
    ensures r.linkRegistryDirectory != r.globalModuleDirectory
    ensures |r.cacheDirectoryCandidates| > 0
    ensures r.cacheDirectoryCandidates[|r.cacheDirectoryCandidates| - 1] == [host.tmp, ".yarn-cache"]
    ensures r.configDirectory !in r.cacheDirectoryCandidates
    ensures r.fallbackGlobalPrefix != r.configDirectory
    ensures r.fallbackGlobalPrefix !in r.cacheDirectoryCandidates
  {
    var config := ConfigDirectory(host);
    var caches := PreferredCacheDirectories(host);
    ConfigIsNoCacheCandidate(host);
    ResolvedDirectories(
      config,
      caches,
      LinkRegistryDirectory(host),
      GlobalModuleDirectory(host),
      FallbackGlobalPrefix(host),
      PosixGlobalPrefix(host.env))
  }

  /** The config directory never coincides with a cache candidate. */
  lemma ConfigIsNoCacheCandidate(host: Host)
    requires host.Valid()
    ensures ConfigDirectory(host) !in PreferredCacheDirectories(host)
  {
    DirectoriesDistinct(host, "config", "cache");
  }

  /** LOCALAPPDATA set on Windows: the config directory is `<LOCALAPPDATA>/Yarn/config`. */
  lemma WindowsConfigDirectory(host: Host)
    requires host.Valid() && host.platform.Win32?
    requires Lookup(host.env, "LOCALAPPDATA") == Some("C:\\Users\\X\\AppData\\Local")
    ensures ConfigDirectory(host) == ["C:\\Users\\X\\AppData\\Local", "Yarn", "config"]
  {
  }
}

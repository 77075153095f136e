/**
 * `getPathKey`: the name under which the environment holds the executable
 * search path. Windows spells it in any case ("Path" by default), so every
 * entry is scanned and the last one whose lower-case name is "path" wins.
 */
module PathKey {
  import opened Ascii
  import opened Platforms
  import opened Environment

  predicate IsPathName(name: string) {
    Lower(name) == "path"
  }

  /** No entry of `env` is named "path" in any case. */
  ghost predicate NoPathName(env: seq<EnvVar>) {
    forall i :: 0 <= i < |env| ==> !IsPathName(env[i].name)
  }

  /** Entry `i` is named "path" in some case and no later entry is. */
  ghost predicate IsLastPathName(env: seq<EnvVar>, i: int) {
    && 0 <= i < |env|
    && IsPathName(env[i].name)
    && forall j :: i < j < |env| ==> !IsPathName(env[j].name)
  }

  /**
   * The `for (const key in env)` loop: walks the entries in order, replacing
   * the candidate `pathKey` whenever an entry's name lower-cases to "path".
   */
  function ScanPathKey(env: seq<EnvVar>, pathKey: string): (r: string)
    ensures NoPathName(env) ==> r == pathKey
    ensures !NoPathName(env) ==> exists i :: IsLastPathName(env, i) && r == env[i].name
    decreases |env|
  {
    if env == [] then pathKey
    else ScanPathKey(env[1..], if IsPathName(env[0].name) then env[0].name else pathKey)
  }

  function GetPathKey(platform: Platform, env: Env): (r: string)
    requires platform.Valid()
    ensures !platform.Win32? ==> r == "PATH"
    ensures platform.Win32? && NoPathName(env) ==> r == "Path"
    ensures platform.Win32? && !NoPathName(env) ==>
      exists i :: IsLastPathName(env, i) && r == env[i].name
  {
    if platform.Win32? then ScanPathKey(env, "Path") else "PATH"
  }

  /** The chosen name always lower-cases to "path"; on Windows it is "Path" or a name present in `env`. */
  lemma {:induction false} PathKeyIsPathName(platform: Platform, env: Env)
    requires platform.Valid()
    ensures IsPathName(GetPathKey(platform, env))
    ensures platform.Win32? ==>
      GetPathKey(platform, env) == "Path" ||
      exists i :: 0 <= i < |env| && env[i].name == GetPathKey(platform, env)
  {
    assert Lower("PATH") == "path";
    assert Lower("Path") == "path";
  }

  /** Scanning a concatenation is scanning the second part from where the first left off. */
  lemma {:induction false} ScanPathKeyAppend(a: seq<EnvVar>, b: seq<EnvVar>, pathKey: string)
    ensures ScanPathKey(a + b, pathKey) == ScanPathKey(b, ScanPathKey(a, pathKey))
    decreases |a|
  {
    if a != [] {
      assert (a + b)[1..] == a[1..] + b;
      ScanPathKeyAppend(a[1..], b, if IsPathName(a[0].name) then a[0].name else pathKey);
    } else {
      assert a + b == b;
    }
  }

  /**
   * Adding one more entry at the end of the iteration order: on Windows it
   * becomes the path key when its name lower-cases to "path" and changes
   * nothing otherwise.
   */
  lemma LastEntryWins(env: Env, entry: EnvVar)
    requires DistinctNames(env + [entry])
    ensures IsPathName(entry.name) ==> GetPathKey(Win32, env + [entry]) == entry.name
    ensures !IsPathName(entry.name) ==> GetPathKey(Win32, env + [entry]) == GetPathKey(Win32, env)
  {
    ScanPathKeyAppend(env, [entry], "Path");
    assert [entry][1..] == [];
  }

  /** Both "Path" and "PATH" present, in that order: the later "PATH" is chosen. */
  lemma TwoCaseVariants()
    ensures GetPathKey(Win32, [EnvVar("Path", Options.Some("a")), EnvVar("PATH", Options.Some("b"))]) == "PATH"
  {
    assert Lower("Path") == "path";
    assert Lower("PATH") == "path";
  }
}

/**
 * The process environment as a JavaScript object: named entries in iteration
 * order, each holding a string or nothing (`undefined`/`null`).
 */
module Environment {
  import opened Options

  datatype EnvVar = EnvVar(name: string, value: Option<string>)

  /** Object keys are unique. */
  ghost predicate DistinctNames(entries: seq<EnvVar>) {
    forall i, j :: 0 <= i < j < |entries| ==> entries[i].name != entries[j].name
  }

  type Env = entries: seq<EnvVar> | DistinctNames(entries) witness []

  /** Property access `env[name]`: the entry's value, or nothing when no entry has that name. */
  function Lookup(env: seq<EnvVar>, name: string): (r: Option<string>)
    ensures r.Some? ==> exists i :: 0 <= i < |env| && env[i] == EnvVar(name, r)
    ensures DistinctNames(env) ==>
      forall i :: 0 <= i < |env| && env[i].name == name ==> r == env[i].value
    ensures (forall i :: 0 <= i < |env| ==> env[i].name != name) ==> r.None?
  {
    if env == [] then None
    else if env[0].name == name then env[0].value
    else Lookup(env[1..], name)
  }

  /** JavaScript truthiness of an optional string: present and non-empty. */
  predicate Truthy(v: Option<string>) {
    v.Some? && v.value != ""
  }

  /** `isProduction`: the environment's NODE_ENV is exactly "production". */
  function IsProduction(env: Env): (r: bool)
    ensures r <==> exists i :: 0 <= i < |env| && env[i] == EnvVar("NODE_ENV", Some("production"))
  {
    Lookup(env, "NODE_ENV") == Some("production")
  }
}

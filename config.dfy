/**
 * The environment check at the top of both scripts: a fixed, ordered list of
 * variable names, each of which must be set to a non-empty string.
 */
module Config {
  import opened Wrappers

  /** `process.env`: variable name to value. */
  type Env = map<string, string>

  /** The project (service) both scripts work in. */
  const SERVICE_VAR := "OVH_SERVICE_NAME"
  /** The start script's instance name variable. */
  const START_INSTANCE_VAR := "OVH_INSTANCE_NAME"
  /** The stop script names its instance variable `INSTANCE_NAME`, without the prefix. */
  const STOP_INSTANCE_VAR := "INSTANCE_NAME"

  const START_REQUIRED: seq<string> := [
    "OVH_ENDPOINT", "OVH_APPLICATION_KEY", "OVH_APPLICATION_SECRET",
    "OVH_CONSUMER_KEY", SERVICE_VAR, START_INSTANCE_VAR]

  const STOP_REQUIRED: seq<string> := [
    "OVH_ENDPOINT", "OVH_APPLICATION_KEY", "OVH_APPLICATION_SECRET",
    "OVH_CONSUMER_KEY", SERVICE_VAR, STOP_INSTANCE_VAR]

  /** `process.env[name]`, with an unset variable read as the empty string. */
  function Get(env: Env, name: string): string
  {
    if name in env then env[name] else ""
  }

  /** `process.env[name]` is truthy: defined and not empty. */
  predicate IsSet(env: Env, name: string)
  {
    Get(env, name) != ""
  }

  /** Position of the first unset name, or `|names|` when all are set. */
  function FirstUnset(env: Env, names: seq<string>): (k: nat)
    ensures k <= |names|
    ensures forall j :: 0 <= j < k ==> IsSet(env, names[j])
    ensures k < |names| ==> !IsSet(env, names[k])
  {
    if names == [] || !IsSet(env, names[0]) then 0
    else 1 + FirstUnset(env, names[1..])
  }

  /** The variable the check complains about, if any. */
  function MissingVar(env: Env, names: seq<string>): (missing: Option<string>)
    ensures missing.None? <==> forall j :: 0 <= j < |names| ==> IsSet(env, names[j])
    ensures missing.Some? ==> missing.value in names && !IsSet(env, missing.value)
  {
    var k := FirstUnset(env, names);
    if k < |names| then Some(names[k]) else None
  }

  /** Whatever else is unset, the check names the earliest unset variable in list order. */
  lemma FirstUnsetIsNamed(env: Env, names: seq<string>, i: nat)
    requires i < |names| && !IsSet(env, names[i])
    requires forall j :: 0 <= j < i ==> IsSet(env, names[j])
    ensures MissingVar(env, names) == Some(names[i])
  {
  }

  /** The `for ... of requiredEnvVars` loop that throws at the first unset variable. */
  method Validate(env: Env, names: seq<string>) returns (missing: Option<string>)
    ensures missing == MissingVar(env, names)
  {
    for i := 0 to |names|
      invariant forall j :: 0 <= j < i ==> IsSet(env, names[j])
    {
      if !IsSet(env, names[i]) {
        return Some(names[i]);
      }
    }
    return None;
  }
}

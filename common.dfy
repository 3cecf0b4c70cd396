/**
  Shapes shared by the three lambdas: optional values, the environment of
  configuration variables read through `process.env`, the ordered
  fail-fast checks on it, and the API-key lookup that may consult the
  parameter store.
 */
module Common {

  datatype Option<+T> = None | Some(value: T) {
    function GetOr(default: T): T {
      match this
      case Some(v) => v
      case None => default
    }
  }

  datatype Result<+R, +E> = Success(value: R) | Failure(error: E)

  /** Completion of an invocation: normal, or a thrown error. */
  datatype Outcome<+E> = Pass | Fail(error: E)

  /** The process environment: a variable is usable only when it is set to a
      non-empty string (JavaScript treats `undefined` and `""` alike as false). */
  type Env = map<string, string>

  predicate Present(env: Env, name: string) {
    name in env && env[name] != ""
  }

  /** The value a reader of `process.env[name]` sees, `""` standing for unset. */
  function Value(env: Env, name: string): string {
    if name in env then env[name] else ""
  }

  /** Index of the first variable of `names` that is not usable, checked in
      order, as a chain of `if (!process.env.X) throw ...` does. */
  function FirstMissing(env: Env, names: seq<string>): (r: Option<nat>)
    ensures r.Some? ==> r.value < |names| && !Present(env, names[r.value])
    ensures r.Some? ==> forall j :: 0 <= j < r.value ==> Present(env, names[j])
    ensures r.None? <==> forall j :: 0 <= j < |names| ==> Present(env, names[j])
  {
    if |names| == 0 then None
    else if !Present(env, names[0]) then Some(0)
    else match FirstMissing(env, names[1..])
      case None => None
      case Some(i) => Some(i + 1)
  }

  /** Outcome of `getAPIKey`: the key found (`""` for none) and the name of
      the parameter-store entry it read, if it read one. */
  datatype KeyLookup = KeyLookup(key: string, parameterRead: Option<string>)

  /** `getAPIKey`: when `API_KEY` is not usable but the variable naming a
      parameter-store entry is, the key is that entry's value (an entry
      without a value gives none); otherwise it is `API_KEY` as set. */
  function LookupApiKey(env: Env, parameterVar: string, parameterStore: string -> Option<string>): KeyLookup
  {
    if !Present(env, "API_KEY") && Present(env, parameterVar) then
      KeyLookup(parameterStore(env[parameterVar]).GetOr(""), Some(env[parameterVar]))
    else
      KeyLookup(Value(env, "API_KEY"), None)
  }

  /** The parameter store is read exactly when `API_KEY` is not usable and the
      entry's name is; a usable `API_KEY` is returned as it is. */
  lemma LookupApiKeyReads(env: Env, parameterVar: string, parameterStore: string -> Option<string>)
    ensures LookupApiKey(env, parameterVar, parameterStore).parameterRead.Some?
        <==> !Present(env, "API_KEY") && Present(env, parameterVar)
    ensures Present(env, "API_KEY") ==> LookupApiKey(env, parameterVar, parameterStore) == KeyLookup(env["API_KEY"], None)
  {
  }
}

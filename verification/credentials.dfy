/** One-time initialisation of the document-store client from credentials in the environment.
    Three sources are tried in a fixed order; the first one that is present is used, and if it
    cannot be parsed initialisation fails without looking at the later sources. */
module Credentials {
  import opened Wrappers

  /** What looking at one source finds: nothing, or a value that does or does not load. */
  datatype Probe = Absent | Present(loads: bool)

  /** Where the resolution of an ordered list of probes stops. */
  datatype Resolution = Use(index: nat) | Malformed(index: nat) | NothingFound

  /** The first probe that is present decides: it is used when it loads and is fatal when it
      does not; only absent probes fall through to the next. */
  function Resolve(probes: seq<Probe>): (r: Resolution)
    ensures r.NothingFound? <==> forall i | 0 <= i < |probes| :: probes[i] == Absent
    ensures r.Use? ==> r.index < |probes| && probes[r.index] == Present(true)
    ensures r.Malformed? ==> r.index < |probes| && probes[r.index] == Present(false)
    ensures !r.NothingFound? ==> forall i | 0 <= i < r.index :: probes[i] == Absent
    decreases |probes|
  {
    if probes == [] then NothingFound
    else if probes[0].Present? then
      if probes[0].loads then Use(0) else Malformed(0)
    else
      match Resolve(probes[1..])
      case Use(i) => Use(i + 1)
      case Malformed(i) => Malformed(i + 1)
      case NothingFound => NothingFound
  }

  /** Probes after the deciding one are never consulted. */
  lemma {:induction false} LaterProbesIgnored(probes: seq<Probe>, k: nat, later: seq<Probe>)
    requires k < |probes| && probes[k].Present?
    ensures Resolve(probes[..k + 1] + later) == Resolve(probes)
    decreases k
  {
    var whole := probes[..k + 1] + later;
    assert whole[0] == probes[0];
    if probes[0].Absent? {
      assert k > 0;
      assert whole[1..] == probes[1..][..k] + later;
      LaterProbesIgnored(probes[1..], k - 1, later);
    }
  }

  /** The three credential sources, in priority order. */
  datatype Source = JsonB64Env | JsonEnv | CredentialsFile

  const SOURCES: seq<Source> := [JsonB64Env, JsonEnv, CredentialsFile]
  const DEFAULT_CREDENTIALS_PATH: string := "serviceAccount.json"
  const NO_CREDENTIALS_MESSAGE: string :=
    "Nenhuma credencial Firebase encontrada. "
    + "Defina SERVICE_ACCOUNT_JSON_B64, SERVICE_ACCOUNT_JSON ou monte o arquivo serviceAccount.json."

  /** The environment variables the loader reads. */
  datatype Env = Env(
    serviceAccountJsonB64: Option<string>,
    serviceAccountJson: Option<string>,
    googleApplicationCredentials: Option<string>)

  /** The outside world the loader depends on: whether a Base64 value decodes to JSON that makes a
      certificate and an initialised app, whether a raw JSON value does, whether a file exists
      and whether it loads. */
  datatype Loaders = Loaders(
    fromB64: string -> bool,
    fromJson: string -> bool,
    fileExists: string -> bool,
    fromFile: string -> bool)

  datatype InitError = LoadFailed(source: Source) | NoCredentials(message: string)

  /** What one call does: nothing (already initialised), initialise from a source, or raise. */
  datatype InitOutcome = AlreadyInitialised | Initialised(source: Source) | Raised(error: InitError)

  /** An environment variable is used only when it is set to a non-empty value. */
  predicate IsSet(v: Option<string>) {
    v.Some? && v.value != ""
  }

  /** The file path: the environment variable's value (even if empty), else the default name. */
  function CredentialsPath(env: Env): (path: string)
    ensures env.googleApplicationCredentials.None? ==> path == DEFAULT_CREDENTIALS_PATH
    ensures env.googleApplicationCredentials.Some? ==> path == env.googleApplicationCredentials.value
  {
    env.googleApplicationCredentials.GetOr(DEFAULT_CREDENTIALS_PATH)
  }

  /** What each source yields, in priority order. */
  function Probes(env: Env, loaders: Loaders): (ps: seq<Probe>)
    ensures |ps| == |SOURCES|
    ensures ps[0].Present? <==> IsSet(env.serviceAccountJsonB64)
    ensures ps[1].Present? <==> IsSet(env.serviceAccountJson)
    ensures ps[2].Present? <==> loaders.fileExists(CredentialsPath(env))
  {
    var b64 := env.serviceAccountJsonB64;
    var raw := env.serviceAccountJson;
    var path := CredentialsPath(env);
    [ if IsSet(b64) then Present(loaders.fromB64(b64.value)) else Absent,
      if IsSet(raw) then Present(loaders.fromJson(raw.value)) else Absent,
      if loaders.fileExists(path) then Present(loaders.fromFile(path)) else Absent ]
  }

  /** Initialises the client from the environment unless it already is. */
  function InitFromEnv(alreadyInitialised: bool, env: Env, loaders: Loaders): (r: InitOutcome)
    ensures alreadyInitialised <==> r == AlreadyInitialised
    ensures !alreadyInitialised ==>
              (r == Raised(NoCredentials(NO_CREDENTIALS_MESSAGE)) <==>
               !IsSet(env.serviceAccountJsonB64) && !IsSet(env.serviceAccountJson)
               && !loaders.fileExists(CredentialsPath(env)))
    ensures !alreadyInitialised && IsSet(env.serviceAccountJsonB64) ==>
              r == (if loaders.fromB64(env.serviceAccountJsonB64.value) then Initialised(JsonB64Env)
                    else Raised(LoadFailed(JsonB64Env)))
    ensures !alreadyInitialised && !IsSet(env.serviceAccountJsonB64) && IsSet(env.serviceAccountJson) ==>
              r == (if loaders.fromJson(env.serviceAccountJson.value) then Initialised(JsonEnv)
                    else Raised(LoadFailed(JsonEnv)))
    ensures !alreadyInitialised && !IsSet(env.serviceAccountJsonB64) && !IsSet(env.serviceAccountJson)
            && loaders.fileExists(CredentialsPath(env)) ==>
              r == (if loaders.fromFile(CredentialsPath(env)) then Initialised(CredentialsFile)
                    else Raised(LoadFailed(CredentialsFile)))
  {
    if alreadyInitialised then AlreadyInitialised
    else
      match Resolve(Probes(env, loaders))
      case Use(i) => Initialised(SOURCES[i])
      case Malformed(i) => Raised(LoadFailed(SOURCES[i]))
      case NothingFound => Raised(NoCredentials(NO_CREDENTIALS_MESSAGE))
  }

  /** Whether the client is initialised after a call. */
  function InitialisedAfter(before: bool, r: InitOutcome): bool {
    before || r.Initialised?
  }

  /** A successful call makes the next one a no-op: initialisation happens at most once. */
  lemma InitIsIdempotent(before: bool, env: Env, loaders: Loaders, env': Env, loaders': Loaders)
    requires InitFromEnv(before, env, loaders).Initialised?
    ensures InitFromEnv(InitialisedAfter(before, InitFromEnv(before, env, loaders)), env', loaders')
            == AlreadyInitialised
  {
  }

  /** A set but malformed Base64 variable is fatal: the raw JSON variable and the file, whatever
      they hold, are not tried. */
  lemma MalformedB64IsFatal(env: Env, loaders: Loaders, raw: Option<string>, path: Option<string>,
                            loaders': Loaders)
    requires IsSet(env.serviceAccountJsonB64) && !loaders.fromB64(env.serviceAccountJsonB64.value)
    requires loaders'.fromB64 == loaders.fromB64
    ensures InitFromEnv(false, env.(serviceAccountJson := raw, googleApplicationCredentials := path), loaders')
            == Raised(LoadFailed(JsonB64Env))
  {
  }
}

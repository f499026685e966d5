/**
 * `load_settings` of tests/helpers/config_loader.py: a two-level lookup,
 * environment then profile, in the parsed settings.yaml document, with the
 * environment and profile names taken (lower-cased) from the process
 * environment.
 */
module ConfigLoader {
  import opened Common
  import opened Text

  /** A parsed YAML value. */
  datatype Yaml =
    | YNull
    | YBool(b: bool)
    | YInt(i: int)
    | YStr(s: string)
    | YList(items: seq<Yaml>)
    | YMap(entries: map<string, Yaml>)

  /** Python truthiness of a YAML value (`if not env_cfg`). */
  predicate Truthy(y: Yaml) {
    match y
    case YNull => false
    case YBool(b) => b
    case YInt(i) => i != 0
    case YStr(s) => s != ""
    case YList(items) => items != []
    case YMap(entries) => entries != map[]
  }

  /** The `Settings` dataclass; its fields are not type-checked at run time. */
  datatype Settings = Settings(
    baseUrl: Yaml,
    browser: Yaml,
    headless: Yaml,
    defaultTimeout: Yaml,
    username: Yaml,
    password: Yaml,
    envName: string,
    profileName: string)

  datatype LoadError =
    | NotSubscriptable(key: string)              // `x[key]` on a non-mapping: TypeError
    | NoGetMethod(key: string)                   // `x.get(key)` on a non-mapping: AttributeError
    | MissingKey(key: string)                    // KeyError
    | UnknownEnvironment(env: string)
    | UnknownProfile(profile: string, env: string)

  function Getenv(environ: map<string, string>, name: string, default: string): string {
    if name in environ then environ[name] else default
  }

  function EnvName(environ: map<string, string>): string {
    Lower(Getenv(environ, "ENVIRONMENT", "pantera"))
  }

  function ProfileName(environ: map<string, string>): string {
    Lower(Getenv(environ, "PROFILE", "agente"))
  }

  /** `y[key]`. */
  function Subscript(y: Yaml, key: string): Result<Yaml, LoadError> {
    match y
    case YMap(m) => if key in m then Ok(m[key]) else Err(MissingKey(key))
    case _ => Err(NotSubscriptable(key))
  }

  /** `y.get(key)`. */
  function GetKey(y: Yaml, key: string): Result<Option<Yaml>, LoadError> {
    match y
    case YMap(m) => Ok(if key in m then Some(m[key]) else None)
    case _ => Err(NoGetMethod(key))
  }

  /** The value reached by following `path` through nested mappings, if any. */
  function At(y: Yaml, path: seq<string>): Option<Yaml>
    decreases |path|
  {
    if path == [] then Some(y)
    else match y
      case YMap(m) => if path[0] in m then At(m[path[0]], path[1..]) else None
      case _ => None
  }

  predicate MappingAt(y: Yaml, path: seq<string>) {
    At(y, path).Some? && At(y, path).value.YMap?
  }

  predicate TruthyAt(y: Yaml, path: seq<string>) {
    At(y, path).Some? && Truthy(At(y, path).value)
  }

  /** Following one more key: defined exactly when the path so far reaches a mapping holding it. */
  lemma {:induction false} AtStep(y: Yaml, path: seq<string>, key: string)
    ensures At(y, path + [key]) ==
      (if MappingAt(y, path) && key in At(y, path).value.entries
       then Some(At(y, path).value.entries[key]) else None)
    decreases |path|
  {
    if path == [] {
      assert [] + [key] == [key];
    } else {
      assert (path + [key])[0] == path[0];
      assert (path + [key])[1..] == path[1..] + [key];
      if y.YMap? && path[0] in y.entries {
        AtStep(y.entries[path[0]], path[1..], key);
      }
    }
  }

  /** The keys the settings take from the environment entry and from the profile entry. */
  const EnvironmentFields := {"base_url", "browser", "headless", "default_timeout"}
  const ProfileFields := {"username", "password"}

  /**
   * The settings for `env`/`profile` once both entries were found: they
   * exist exactly when both entries are mappings holding all their keys,
   * and then every field is the entry's value under its key; otherwise the
   * error names one of those keys.
   */
  function BuildSettings(envCfg: Yaml, profileCfg: Yaml, env: string, profile: string)
    : (r: Result<Settings, LoadError>)
    ensures r.Ok? <==>
      && envCfg.YMap? && EnvironmentFields <= envCfg.entries.Keys
      && profileCfg.YMap? && ProfileFields <= profileCfg.entries.Keys
    ensures r.Ok? ==>
      && r.value.baseUrl == envCfg.entries["base_url"] && r.value.browser == envCfg.entries["browser"]
      && r.value.headless == envCfg.entries["headless"]
      && r.value.defaultTimeout == envCfg.entries["default_timeout"]
      && r.value.username == profileCfg.entries["username"]
      && r.value.password == profileCfg.entries["password"]
      && r.value.envName == env && r.value.profileName == profile
    ensures r.Err? ==>
      (r.error.NotSubscriptable? || r.error.MissingKey?) && r.error.key in EnvironmentFields + ProfileFields
  {
    var baseUrl :- Subscript(envCfg, "base_url");
    var browser :- Subscript(envCfg, "browser");
    var headless :- Subscript(envCfg, "headless");
    var timeout :- Subscript(envCfg, "default_timeout");
    var username :- Subscript(profileCfg, "username");
    var password :- Subscript(profileCfg, "password");
    Ok(Settings(baseUrl, browser, headless, timeout, username, password, env, profile))
  }

  /**
   * `load_settings()` over the process environment `environ` and the parsed
   * document `raw`. The environment entry is `raw.environments[env]`, the
   * profile entry that entry's `profiles[profile]`; a missing or empty entry
   * is reported by name.
   */
  function LoadSettings(environ: map<string, string>, raw: Yaml): (r: Result<Settings, LoadError>)
    ensures var env, profile := EnvName(environ), ProfileName(environ);
      var envPath, profilePath := ["environments", env], ["environments", env, "profiles", profile];
      && (r == Err(UnknownEnvironment(env)) <==>
            MappingAt(raw, ["environments"]) && !TruthyAt(raw, envPath))
      && (r == Err(UnknownProfile(profile, env)) <==>
            MappingAt(raw, ["environments"]) && TruthyAt(raw, envPath)
            && MappingAt(raw, envPath + ["profiles"]) && !TruthyAt(raw, profilePath))
      && (r.Ok? ==>
            && r.value.envName == env && r.value.profileName == profile
            && TruthyAt(raw, envPath) && TruthyAt(raw, profilePath))
  {
    var env, profile := EnvName(environ), ProfileName(environ);
    var envPath := ["environments", env];
    var profilesPath := envPath + ["profiles"];
    AtStep(raw, [], "environments");
    AtStep(raw, ["environments"], env);
    AtStep(raw, envPath, "profiles");
    AtStep(raw, profilesPath, profile);
    assert [] + ["environments"] == ["environments"];
    assert ["environments"] + [env] == envPath;
    assert profilesPath + [profile] == ["environments", env, "profiles", profile];
    var envs :- Subscript(raw, "environments");
    var envCfg :- GetKey(envs, env);
    if envCfg.None? || !Truthy(envCfg.value) then Err(UnknownEnvironment(env))
    else
      var profiles :- Subscript(envCfg.value, "profiles");
      var profileCfg :- GetKey(profiles, profile);
      if profileCfg.None? || !Truthy(profileCfg.value) then Err(UnknownProfile(profile, env))
      else BuildSettings(envCfg.value, profileCfg.value, env, profile)
  }

  /**
   * Loaded settings take `base_url`, `browser`, `headless` and
   * `default_timeout` from the environment entry and `username` and
   * `password` from the profile entry.
   */
  lemma LoadedFields(environ: map<string, string>, raw: Yaml)
    requires LoadSettings(environ, raw).Ok?
    ensures var s := LoadSettings(environ, raw).value;
      var envPath := ["environments", EnvName(environ)];
      var profilePath := envPath + ["profiles", ProfileName(environ)];
      && At(raw, envPath + ["base_url"]) == Some(s.baseUrl)
      && At(raw, envPath + ["browser"]) == Some(s.browser)
      && At(raw, envPath + ["headless"]) == Some(s.headless)
      && At(raw, envPath + ["default_timeout"]) == Some(s.defaultTimeout)
      && At(raw, profilePath + ["username"]) == Some(s.username)
      && At(raw, profilePath + ["password"]) == Some(s.password)
  {
    var env, profile := EnvName(environ), ProfileName(environ);
    var envPath := ["environments", env];
    var profilePath := envPath + ["profiles", profile];
    AtStep(raw, [], "environments");
    AtStep(raw, ["environments"], env);
    AtStep(raw, envPath, "profiles");
    AtStep(raw, envPath + ["profiles"], profile);
    assert [] + ["environments"] == ["environments"];
    assert ["environments"] + [env] == envPath;
    assert envPath + ["profiles"] + [profile] == profilePath;
    AtStep(raw, envPath, "base_url");
    AtStep(raw, envPath, "browser");
    AtStep(raw, envPath, "headless");
    AtStep(raw, envPath, "default_timeout");
    AtStep(raw, profilePath, "username");
    AtStep(raw, profilePath, "password");
  }
}

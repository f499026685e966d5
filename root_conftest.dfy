/**
 * The repository-root conftest.py: the `--env`/`--profile` options, the
 * `settings` fixture that exports them to the process environment before
 * loading settings.yaml, the Cloud Run detection and the headless choice of
 * the `page` fixture.
 */
module RootConftest {
  import opened Common
  import opened Text
  import opened ConfigLoader

  const DefaultEnv := "pantera"
  const DefaultProfile := "agente"

  /** `getoption(name)`: the value given on the command line, else the registered default. */
  function OptionValue(given: Option<string>, default: string): (r: string)
    ensures given.Some? ==> r == given.value
    ensures given.None? ==> r == default
  {
    given.GetOr(default)
  }

  /** `getoption("--env")`. */
  function EnvOption(given: Option<string>): string {
    OptionValue(given, DefaultEnv)
  }

  /** `getoption("--profile")`. */
  function ProfileOption(given: Option<string>): string {
    OptionValue(given, DefaultProfile)
  }

  /** The process environment, which the `settings` fixture writes. */
  class ProcessEnvironment {
    var vars: map<string, string>

    constructor (initial: map<string, string>)
      ensures vars == initial
    {
      vars := initial;
    }

    /**
     * The `settings` fixture: exports ENVIRONMENT and PROFILE, then loads the
     * settings from the environment it has just written.
     */
    method SettingsFixture(envGiven: Option<string>, profileGiven: Option<string>, raw: Yaml)
      returns (r: Result<Settings, LoadError>)
      modifies this
      ensures vars == old(vars)["ENVIRONMENT" := EnvOption(envGiven)]["PROFILE" := ProfileOption(profileGiven)]
      ensures r == LoadSettings(vars, raw)
    {
      var env := EnvOption(envGiven);
      var profile := ProfileOption(profileGiven);
      vars := vars["ENVIRONMENT" := env];
      vars := vars["PROFILE" := profile];
      r := LoadSettings(vars, raw);
    }
  }

  /**
   * Because the fixture writes both variables first, the lookup sees the
   * command-line choice (lower-cased) whatever the environment held before.
   */
  lemma FixtureSeesChoice(before: map<string, string>, env: string, profile: string, raw: Yaml)
    ensures var r := LoadSettings(before["ENVIRONMENT" := env]["PROFILE" := profile], raw);
      r.Ok? ==> r.value.envName == Lower(env) && r.value.profileName == Lower(profile)
  {
    var vars := before["ENVIRONMENT" := env]["PROFILE" := profile];
    assert EnvName(vars) == Lower(env);
    assert ProfileName(vars) == Lower(profile);
  }

  /**
   * Without `--env` and `--profile` the fixture loads pantera's agente
   * settings, whatever ENVIRONMENT and PROFILE held before.
   */
  lemma DefaultOptionsLoadPanteraAgente(before: map<string, string>, raw: Yaml)
    ensures var r := LoadSettings(before["ENVIRONMENT" := EnvOption(None)]["PROFILE" := ProfileOption(None)], raw);
      r.Ok? ==> r.value.envName == "pantera" && r.value.profileName == "agente"
  {
    FixtureSeesChoice(before, EnvOption(None), ProfileOption(None), raw);
    assert Lower("pantera") == "pantera";
    assert Lower("agente") == "agente";
  }

  /** `is_cloud_run()`: K_SERVICE or K_REVISION set (even empty), or /.dockerenv present. */
  function IsCloudRun(environ: map<string, string>, dockerenvExists: bool): (r: bool)
    ensures dockerenvExists ==> r
    ensures "K_SERVICE" in environ || "K_REVISION" in environ ==> r  // whatever the value, even ""
    ensures r ==> dockerenvExists || "K_SERVICE" in environ || "K_REVISION" in environ
  {
    "K_SERVICE" in environ || "K_REVISION" in environ || dockerenvExists
  }

  /**
   * The `headless` argument the `page` fixture launches the browser with:
   * forced on under Cloud Run, otherwise the configured value, with a YAML
   * null read as off.
   */
  function LaunchHeadless(cloudRun: bool, configured: Yaml): (r: Yaml)
    ensures cloudRun ==> r == YBool(true)
    ensures !cloudRun && configured != YNull ==> r == configured
    ensures !cloudRun && configured == YNull ==> r == YBool(false)
  {
    if cloudRun then YBool(true) else if configured != YNull then configured else YBool(false)
  }

  /** The browser is never shown under Cloud Run, whatever settings.yaml says. */
  lemma CloudRunAlwaysHeadless(environ: map<string, string>, dockerenvExists: bool, s: Settings)
    requires "K_SERVICE" in environ || "K_REVISION" in environ || dockerenvExists
    ensures LaunchHeadless(IsCloudRun(environ, dockerenvExists), s.headless) == YBool(true)
  {
  }
}

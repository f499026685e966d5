/**
 * The `Config` class of config/config.py: a fixed environment-to-login-URL
 * map and class attributes read once from the process environment.
 */
module AppConfig {
  import opened Common
  import opened Text

  /** The login page of the QA deployment named `key`. */
  function LoginUrl(key: string): string {
    "https://qa-" + key + ".chattigo.com/login/pages/login"
  }

  /**
   * `Config.ENVIRONMENTS`: the same four URLs the source writes out, each
   * split at the environment's name.
   */
  const Environments: map<string, string> := map[
    "pantera" := "https://qa-" + "pantera" + ".chattigo.com/login/pages/login",
    "bugs" := "https://qa-" + "bugs" + ".chattigo.com/login/pages/login",
    "support-bugs" := "https://qa-" + "support-bugs" + ".chattigo.com/login/pages/login",
    "leones" := "https://qa-" + "leones" + ".chattigo.com/login/pages/login"
  ]

  /** Exactly the four QA environments. */
  lemma EnvironmentKeys()
    ensures Environments.Keys == {"pantera", "bugs", "support-bugs", "leones"}
  {
  }

  lemma PanteraUrl() ensures Environments["pantera"] == LoginUrl("pantera") {}
  lemma BugsUrl() ensures Environments["bugs"] == LoginUrl("bugs") {}
  lemma SupportBugsUrl() ensures Environments["support-bugs"] == LoginUrl("support-bugs") {}
  lemma LeonesUrl() ensures Environments["leones"] == LoginUrl("leones") {}

  /** Each environment maps to its own `qa-<key>` login page. */
  lemma EnvironmentUrls()
    ensures Environments["pantera"] == LoginUrl("pantera")
    ensures Environments["bugs"] == LoginUrl("bugs")
    ensures Environments["support-bugs"] == LoginUrl("support-bugs")
    ensures Environments["leones"] == LoginUrl("leones")
  {
    PanteraUrl();
    BugsUrl();
    SupportBugsUrl();
    LeonesUrl();
  }

  const DefaultUsername := "agente@auto.com"
  const DefaultPassword := "Admin1234."
  const DefaultTimeout := 10000

  /** `os.getenv(name, default)` over a snapshot of the process environment. */
  function Getenv(environ: map<string, string>, name: string, default: string): string {
    if name in environ then environ[name] else default
  }

  /** The class attributes other than `ENVIRONMENTS`. */
  datatype Attributes = Attributes(
    baseUrl: string,
    username: string,
    password: string,
    timeout: int,
    headless: bool)

  /**
   * Evaluates the class body. The only way it can fail is `int()` rejecting a
   * TIMEOUT that is set but not an integer (the `ValueError` at import time).
   */
  function ReadAttributes(environ: map<string, string>): (r: Result<Attributes, string>)
    ensures r.Err? <==> "TIMEOUT" in environ && ParseInt(environ["TIMEOUT"]).None?
    ensures r.Ok? ==>
      (r.value.headless <==> "HEADLESS" in environ && Lower(environ["HEADLESS"]) == "true")
  {
    var timeout :=
      if "TIMEOUT" in environ then ParseInt(environ["TIMEOUT"]) else Some(DefaultTimeout);
    if timeout.None? then Err("TIMEOUT")
    else
      Ok(Attributes(
        Getenv(environ, "BASE_URL", Environments["pantera"]),
        Getenv(environ, "USERNAME", DefaultUsername),
        Getenv(environ, "PASSWORD", DefaultPassword),
        timeout.value,
        Lower(Getenv(environ, "HEADLESS", "False")) == "true"))
  }

  /** With nothing set, BASE_URL is pantera's login page, TIMEOUT 10000, HEADLESS off. */
  lemma DefaultAttributes()
    ensures ReadAttributes(map[]) ==
      Ok(Attributes(LoginUrl("pantera"), DefaultUsername, DefaultPassword, 10000, false))
  {
    assert Lower("False") == "false";
    PanteraUrl();
  }

  /**
   * Each variable is read on its own: a set BASE_URL, USERNAME or PASSWORD
   * is used as given and an unset one takes its default, whatever else is
   * set; TIMEOUT is the integer its text denotes, or 10000 when unset.
   */
  lemma EachVariableOrDefault(environ: map<string, string>)
    requires ReadAttributes(environ).Ok?
    ensures var a := ReadAttributes(environ).value;
      && ("BASE_URL" in environ ==> a.baseUrl == environ["BASE_URL"])
      && ("BASE_URL" !in environ ==> a.baseUrl == LoginUrl("pantera"))
      && ("USERNAME" in environ ==> a.username == environ["USERNAME"])
      && ("USERNAME" !in environ ==> a.username == DefaultUsername)
      && ("PASSWORD" in environ ==> a.password == environ["PASSWORD"])
      && ("PASSWORD" !in environ ==> a.password == DefaultPassword)
      && ("TIMEOUT" in environ ==> ParseInt(environ["TIMEOUT"]) == Some(a.timeout))
      && ("TIMEOUT" !in environ ==> a.timeout == DefaultTimeout)
  {
    PanteraUrl();
  }

  /** A TIMEOUT written as `str(n)` is read back as `n`. */
  lemma {:induction false} TimeoutRoundTrip(environ: map<string, string>, n: int)
    requires "TIMEOUT" in environ && environ["TIMEOUT"] == ShowInt(n)
    ensures ReadAttributes(environ).Ok? && ReadAttributes(environ).value.timeout == n
  {
    ParseShow(n);
  }

  /** HEADLESS ignores letter case: "TRUE", "True" and "true" all switch it on. */
  lemma HeadlessIgnoresCase(environ: map<string, string>, value: string)
    requires "TIMEOUT" in environ ==> ParseInt(environ["TIMEOUT"]).Some?
    requires "HEADLESS" in environ
    requires value in {"TRUE", "True", "true"} && environ["HEADLESS"] == value
    ensures ReadAttributes(environ).Ok? && ReadAttributes(environ).value.headless
  {
    assert Lower("TRUE") == "true";
    assert Lower("True") == "true";
    assert Lower("true") == "true";
  }

  /**
   * The class object. Every attribute is fixed at import; only BASE_URL is
   * later reassigned (by the `configure_env` fixture of tests/conftest.py).
   */
  class Config {
    var baseUrl: string
    const username: string
    const password: string
    const timeout: int
    const headless: bool

    constructor (a: Attributes)
      ensures baseUrl == a.baseUrl && username == a.username && password == a.password
      ensures timeout == a.timeout && headless == a.headless
    {
      baseUrl := a.baseUrl;
      username := a.username;
      password := a.password;
      timeout := a.timeout;
      headless := a.headless;
    }
  }
}

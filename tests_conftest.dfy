/**
 * tests/conftest.py: the `--env` option, the `configure_env` fixture that
 * points `Config.BASE_URL` at the chosen environment, and the screenshot rule
 * of the `pytest_runtest_makereport` hook.
 */
module TestsConftest {
  import opened Common
  import opened Text
  import opened AppConfig
  import opened RootConftest

  /**
   * `configure_env`: the `--env` option (default "pantera") selects its
   * login URL when it is a known environment name; any other name leaves
   * BASE_URL as it was.
   */
  method ConfigureEnv(config: Config, given: Option<string>)
    modifies config
    ensures var env := EnvOption(given);
      && (env in Environments ==> config.baseUrl == Environments[env])
      && (env !in Environments ==> config.baseUrl == old(config.baseUrl))
  {
    var env := EnvOption(given);
    if env in Environments {
      config.baseUrl := Environments[env];
    }
  }

  /** Without `--env` the fixture points BASE_URL at pantera's login page. */
  lemma DefaultEnvIsConfigured()
    ensures EnvOption(None) in Environments
    ensures Environments[EnvOption(None)] == LoginUrl("pantera")
  {
    EnvironmentKeys();
    PanteraUrl();
  }

  /**
   * The file-system-safe form of a pytest node id: "::" and "/" become "_",
   * then every ".py" is dropped. bot.py computes the same name to find the
   * screenshot again, so both sides use this one definition. The result
   * never contains "/", so the screenshot stays inside screenshots/.
   */
  function SafeName(nodeid: string): (r: string)
    ensures '/' !in r
  {
    var noSlash := Replace(Replace(nodeid, "::", "_"), "/", "_");
    assert '/' !in noSlash;
    Replace(noSlash, ".py", "")
  }

  /** Where a test's screenshot is written: directly in screenshots/, as a .png. */
  function ScreenshotPath(nodeid: string): (p: string)
    ensures |p| >= 16 && StartsWith(p, "screenshots/") && p[|p| - 4..] == ".png"
    ensures '/' !in p[12..|p| - 4]
  {
    var p := "screenshots/" + SafeName(nodeid) + ".png";
    assert p[12..|p| - 4] == SafeName(nodeid);
    p
  }

  /** What `page.screenshot` did. */
  datatype Capture = Written | Raised(error: string)

  /** What the hook does for one report. */
  datatype ScreenshotAction =
    | NotAttempted
    | Saved(path: string)
    | FailureLogged(path: string, line: string)  // printed, not raised

  /**
   * The hook: only the "call" phase of a test that uses a `page` fixture
   * takes a screenshot, at the path derived from its node id; a failure is
   * printed and the test report is left alone.
   */
  function MakeReport(when: string, hasPage: bool, nodeid: string, capture: Capture)
    : (a: ScreenshotAction)
    ensures a != NotAttempted <==> when == "call" && hasPage
    ensures a.Saved? ==> a.path == ScreenshotPath(nodeid) && capture == Written
    ensures a.FailureLogged? ==> a.path == ScreenshotPath(nodeid) && capture.Raised?
  {
    if when == "call" && hasPage then
      match capture
      case Written => Saved(ScreenshotPath(nodeid))
      case Raised(e) => FailureLogged(ScreenshotPath(nodeid), "Failed to take screenshot: " + e)
    else NotAttempted
  }

  /** One call of the hook: the phase, whether the test used `page`, its node id and what the capture did. */
  datatype HookCall = HookCall(when: string, hasPage: bool, nodeid: string, capture: Capture)

  /** The hook applied to one call. */
  function Action(c: HookCall): ScreenshotAction {
    MakeReport(c.when, c.hasPage, c.nodeid, c.capture)
  }

  /**
   * The files a pytest session leaves under screenshots/: one per call of
   * the hook that saved a screenshot, and nothing else.
   */
  function ShotsWritten(calls: seq<HookCall>): (shots: set<string>)
    ensures forall c :: c in calls && Action(c).Saved? ==> Action(c).path in shots
    ensures forall p :: p in shots ==> exists c :: c in calls && Action(c) == Saved(p)
    decreases |calls|
  {
    if calls == [] then {}
    else
      var before := ShotsWritten(calls[..|calls| - 1]);
      var last := calls[|calls| - 1];
      assert forall c :: c in calls ==> c in calls[..|calls| - 1] || c == last;
      before + (if Action(last).Saved? then {Action(last).path} else {})
  }

  /** A test that used `page` and whose capture succeeded in the call phase has its screenshot on disk. */
  lemma CapturedTestHasScreenshot(calls: seq<HookCall>, k: nat)
    requires k < |calls| && calls[k].when == "call" && calls[k].hasPage && calls[k].capture == Written
    ensures ScreenshotPath(calls[k].nodeid) in ShotsWritten(calls)
  {
    assert calls[k] in calls;
  }
}

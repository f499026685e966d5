/**
 * The two-step selection of bot.py: the persistent environment buttons
 * (`EnvironmentView`), the profile buttons of the `ProfileView` built for the
 * chosen environment, and the pytest command a profile button launches.
 */
module BotWizard {
  import opened Common
  import opened Text
  import AppConfig

  datatype Environment = Pantera | Bugs | SupportBugs | Leones {
    /** The value `ask_profile` receives. */
    function Name(): string {
      match this
      case Pantera => "pantera"
      case Bugs => "bugs"
      case SupportBugs => "support-bugs"
      case Leones => "leones"
    }

    function CustomId(): string {
      match this
      case Pantera => "env_pantera"
      case Bugs => "env_bugs"
      case SupportBugs => "env_support_bugs"
      case Leones => "env_leones"
    }
  }

  datatype Profile = Agente | Supervisor | BotProfile {
    /** The value `run_test` receives. */
    function Name(): string {
      match this
      case Agente => "agente"
      case Supervisor => "supervisor"
      case BotProfile => "bot"
    }

    function CustomId(): string {
      match this
      case Agente => "profile_agente"
      case Supervisor => "profile_supervisor"
      case BotProfile => "profile_bot"
    }
  }

  /** The environment button with this `custom_id`, if there is one. */
  function EnvironmentButton(customId: string): (e: Option<Environment>)
    ensures e.Some? ==> e.value.CustomId() == customId
  {
    if customId == "env_pantera" then Some(Pantera)
    else if customId == "env_bugs" then Some(Bugs)
    else if customId == "env_support_bugs" then Some(SupportBugs)
    else if customId == "env_leones" then Some(Leones)
    else None
  }

  /** The profile button with this `custom_id`, if there is one. */
  function ProfileButton(customId: string): (p: Option<Profile>)
    ensures p.Some? ==> p.value.CustomId() == customId
  {
    if customId == "profile_agente" then Some(Agente)
    else if customId == "profile_supervisor" then Some(Supervisor)
    else if customId == "profile_bot" then Some(BotProfile)
    else None
  }

  /** Each of the four environment buttons is recognised as itself. */
  lemma EnvironmentButtonRoundTrip(e: Environment)
    ensures EnvironmentButton(e.CustomId()) == Some(e)
  {
  }

  /** Each of the three profile buttons is recognised as itself. */
  lemma ProfileButtonRoundTrip(p: Profile)
    ensures ProfileButton(p.CustomId()) == Some(p)
  {
  }

  /** A message with buttons; a `ProfileView` remembers its environment. */
  datatype View = EnvironmentView | ProfileView(environment: Environment)

  datatype Reaction =
    | ShowProfiles(view: View)                              // `ask_profile`
    | StartRun(environment: Environment, profile: Profile)  // `run_test`
    | NoButton

  /**
   * A button press. Both views are created with `timeout=None` and nothing
   * disables a button once used, so a press means the same thing however
   * often it is repeated.
   */
  function Press(view: View, customId: string): (r: Reaction)
    ensures view == EnvironmentView ==>
      (r.ShowProfiles? <==> EnvironmentButton(customId).Some?) && !r.StartRun?
    ensures r.ShowProfiles? ==>
      view == EnvironmentView && r.view.ProfileView?
      && Some(r.view.environment) == EnvironmentButton(customId)
    ensures view.ProfileView? ==>
      (r.StartRun? <==> ProfileButton(customId).Some?) && !r.ShowProfiles?
    ensures r.StartRun? ==>
      view.ProfileView? && r.environment == view.environment
      && Some(r.profile) == ProfileButton(customId)
  {
    match view
    case EnvironmentView =>
      (match EnvironmentButton(customId)
       case Some(e) => ShowProfiles(ProfileView(e))
       case None => NoButton)
    case ProfileView(e) =>
      (match ProfileButton(customId)
       case Some(p) => StartRun(e, p)
       case None => NoButton)
  }

  /** Choosing E and then P starts a run for exactly (E, P). */
  lemma WizardStartsChosenRun(e: Environment, p: Profile)
    ensures Press(EnvironmentView, e.CustomId()) == ShowProfiles(ProfileView(e))
    ensures Press(ProfileView(e), p.CustomId()) == StartRun(e, p)
  {
    EnvironmentButtonRoundTrip(e);
    ProfileButtonRoundTrip(p);
  }

  const ReportJsonFile := "report.json"

  const CommandPrefix := "python3 -m pytest tests/"

  /**
   * The shell command `run_test` launches. The shell splits it into these
   * arguments: the profile's test folder and the environment option are one
   * argument each, and the JSON report goes to the file `run_test` reads.
   */
  function Command(e: Environment, p: Profile): (r: string)
    ensures Split(r, " ") ==
      ["python3", "-m", "pytest", "tests/" + p.Name(), "--env=" + e.Name(),
       "--json-report", "--json-report-file=" + ReportJsonFile]
  {
    var r := CommandPrefix + p.Name() + " --env=" + e.Name()
      + " --json-report --json-report-file=" + ReportJsonFile;
    CommandWords(e, p, r);
    r
  }

  lemma CommandWords(e: Environment, p: Profile, r: string)
    requires r == CommandPrefix + p.Name() + " --env=" + e.Name()
      + " --json-report --json-report-file=" + ReportJsonFile
    ensures Split(r, " ") ==
      ["python3", "-m", "pytest", "tests/" + p.Name(), "--env=" + e.Name(),
       "--json-report", "--json-report-file=" + ReportJsonFile]
  {
    var w := ["python3", "-m", "pytest", "tests/" + p.Name(), "--env=" + e.Name(),
              "--json-report", "--json-report-file=" + ReportJsonFile];
    PrefixWords();
    FlagWords();
    Regroup("python3", "-m", "pytest", "tests/", p.Name(), "--env=", e.Name(),
            "--json-report", "--json-report-file=", ReportJsonFile, " ");
    LiteralWordsHaveNoSpace();
    NamesHaveNoSpace(e, p);
    SplitSeven("python3", "-m", "pytest", "tests/" + p.Name(), "--env=" + e.Name(),
               "--json-report", "--json-report-file=" + ReportJsonFile);
  }

  /** The f-string regrouped word by word; `sp` is the space. */
  lemma Regroup(a: string, b: string, c: string, t: string, pn: string, ef: string, en: string,
                j: string, k: string, rj: string, sp: string)
    ensures (a + sp + b + sp + c + sp + t) + pn + (sp + ef) + en + (sp + j + sp + k) + rj
         == a + sp + (b + sp + (c + sp + ((t + pn) + sp + ((ef + en) + sp + (j + sp + (k + rj))))))
  {
  }

  /** Seven words without spaces, joined by single spaces, split back into the seven words. */
  lemma SplitSeven(a: string, b: string, c: string, d: string, x: string, f: string, g: string)
    requires ' ' !in a && ' ' !in b && ' ' !in c && ' ' !in d && ' ' !in x && ' ' !in f && ' ' !in g
    ensures Split(a + " " + (b + " " + (c + " " + (d + " " + (x + " " + (f + " " + g))))), " ")
         == [a, b, c, d, x, f, g]
  {
    var r3 := d + " " + (x + " " + (f + " " + g));
    var r2 := c + " " + r3;
    var r1 := b + " " + r2;
    SplitFour(d, x, f, g);
    SplitAfterFirst(c, " ", r3);
    assert Split(r2, " ") == [c, d, x, f, g];
    SplitAfterFirst(b, " ", r2);
    assert Split(r1, " ") == [b, c, d, x, f, g];
    SplitAfterFirst(a, " ", r1);
    assert [a] + [b, c, d, x, f, g] == [a, b, c, d, x, f, g];
  }

  lemma SplitFour(d: string, x: string, f: string, g: string)
    requires ' ' !in d && ' ' !in x && ' ' !in f && ' ' !in g
    ensures Split(d + " " + (x + " " + (f + " " + g)), " ") == [d, x, f, g]
  {
    SplitWithoutSeparator(g, " ");
    SplitAfterFirst(f, " ", g);
    assert Split(f + " " + g, " ") == [f, g];
    SplitAfterFirst(x, " ", f + " " + g);
    assert Split(x + " " + (f + " " + g), " ") == [x, f, g];
    SplitAfterFirst(d, " ", x + " " + (f + " " + g));
    assert [d] + [x, f, g] == [d, x, f, g];
  }

  lemma PrefixWords()
    ensures CommandPrefix == "python3" + " " + "-m" + " " + "pytest" + " " + "tests/"
  {
  }

  lemma FlagWords()
    ensures " --env=" == " " + "--env="
    ensures " --json-report --json-report-file=" == " " + "--json-report" + " " + "--json-report-file="
  {
  }

  lemma LiteralWordsHaveNoSpace()
    ensures ' ' !in "python3" && ' ' !in "-m" && ' ' !in "pytest" && ' ' !in "tests/"
    ensures ' ' !in "--env=" && ' ' !in "--json-report" && ' ' !in "--json-report-file=" + ReportJsonFile
  {
    var words := ["python3", "-m", "pytest", "tests/", "--env=", "--json-report", "--json-report-file=" + ReportJsonFile];
    forall k, i | 0 <= k < |words| && 0 <= i < |words[k]| ensures words[k][i] != ' ' {}
  }

  lemma NamesHaveNoSpace(e: Environment, p: Profile)
    ensures ' ' !in e.Name() && ' ' !in p.Name()
  {
    forall i | 0 <= i < |e.Name()| ensures e.Name()[i] != ' ' {}
    forall i | 0 <= i < |p.Name()| ensures p.Name()[i] != ' ' {}
  }

  /** Distinct choices give distinct commands: the command names the chosen pair. */
  lemma CommandDeterminesChoice(e1: Environment, p1: Profile, e2: Environment, p2: Profile)
    requires Command(e1, p1) == Command(e2, p2)
    ensures e1 == e2 && p1 == p2
  {
    var w := Split(Command(e1, p1), " ");
    assert w[3] == "tests/" + p1.Name() == "tests/" + p2.Name();
    assert w[3][6] == p1.Name()[0] == p2.Name()[0];
    assert w[4] == "--env=" + e1.Name() == "--env=" + e2.Name();
    assert w[4][6] == e1.Name()[0] == e2.Name()[0];
  }

  /** Every environment the wizard offers has its login page in `Config.ENVIRONMENTS`. */
  lemma EnvironmentIsConfigured(e: Environment)
    ensures e.Name() in AppConfig.Environments
    ensures AppConfig.Environments[e.Name()] == AppConfig.LoginUrl(e.Name())
  {
    AppConfig.EnvironmentKeys();
    match e
    case Pantera => AppConfig.PanteraUrl();
    case Bugs => AppConfig.BugsUrl();
    case SupportBugs => AppConfig.SupportBugsUrl();
    case Leones => AppConfig.LeonesUrl();
  }
}

/**
 * bot/discord_bot.py, the variant that runs the suite on a remote build
 * service: caption buttons choose ambiente and perfil, the build is polled
 * until it is done, then the Allure summary is read from the bucket and a
 * result embed is posted with a link to the stored report.
 */
module CloudBot {
  import opened Common
  import opened Text
  import opened BotWizard

  const Bucket := "qa-allure-report-storage-automation"

  /** The object `leer_resultados_allure` reads: summary.json in the `<ambiente>/<perfil>/` folder. */
  function SummaryKey(ambiente: string, perfil: string): (k: string)
    ensures |k| >= 12 && k[|k| - 12..] == "summary.json"
    ensures StartsWith(k, ambiente + "/" + perfil + "/")
  {
    ambiente + "/" + perfil + "/" + "summary.json"
  }

  /**
   * The link of the stored report: the public address of
   * allure-report/index.html in the same bucket folder as the summary.
   */
  function ReportUrl(ambiente: string, perfil: string): (u: string)
    ensures var k := SummaryKey(ambiente, perfil);
      u == "https://storage.googleapis.com/" + Bucket + "/" + k[..|k| - 12] + "allure-report/index.html"
  {
    var k := SummaryKey(ambiente, perfil);
    assert k[..|k| - 12] == ambiente + "/" + perfil + "/";
    Regroup("https://storage.googleapis.com/", Bucket, "/", ambiente, "/", perfil, "/", "allure-report/index.html");
    "https://storage.googleapis.com/" + Bucket + "/" + ambiente + "/" + perfil + "/" + "allure-report/index.html"
  }

  /** Concatenation regrouped as host, folder and file name. */
  lemma Regroup(a: string, b: string, c: string, d: string, e: string, f: string, g: string, h: string)
    ensures a + b + c + d + e + f + g + h == (a + b + c) + (d + e + f + g) + h
  {
  }

  /** A stored summary object as `json.loads` sees its text. */
  datatype SummaryBlob =
    | Malformed                                        // `json.loads` raises
    | Document(statistic: Option<map<string, int>>)    // the "statistic" member, if any

  /** Not JSON, or without statistic.passed or statistic.failed. */
  predicate Unreadable(blob: SummaryBlob) {
    || blob.Malformed?
    || blob.statistic.None?
    || "passed" !in blob.statistic.value
    || "failed" !in blob.statistic.value
  }

  datatype AllureResults = AllureResults(passed: int, failed: int, percentage: real)

  /**
   * `leer_resultados_allure` over the bucket's objects: zeros when there is
   * no summary at the ambiente/perfil key; an error when it is not JSON or
   * lacks statistic.passed or statistic.failed; otherwise the two counts and
   * the success percentage over their sum.
   */
  function ReadResults(objects: map<string, SummaryBlob>, ambiente: string, perfil: string)
    : (r: Result<AllureResults, string>)
    ensures SummaryKey(ambiente, perfil) !in objects ==> r == Ok(AllureResults(0, 0, 0.0))
    ensures var key := SummaryKey(ambiente, perfil);
      r.Err? <==> key in objects && Unreadable(objects[key])
    ensures var key := SummaryKey(ambiente, perfil);
      r.Ok? && key in objects ==>
      var st := objects[key].statistic.value;
      && r.value.passed == st["passed"] && r.value.failed == st["failed"]
      && (st["passed"] + st["failed"] > 0 ==>
            r.value.percentage * (st["passed"] + st["failed"]) as real == 100.0 * st["passed"] as real)
      && (st["passed"] + st["failed"] <= 0 ==> r.value.percentage == 0.0)
  {
    var key := SummaryKey(ambiente, perfil);
    if key !in objects then Ok(AllureResults(0, 0, 0.0))
    else match objects[key]
    case Malformed => Err("JSONDecodeError")
    case Document(statistic) =>
      if statistic.None? then Err("KeyError: 'statistic'")
      else if "passed" !in statistic.value then Err("KeyError: 'passed'")
      else if "failed" !in statistic.value then Err("KeyError: 'failed'")
      else
        var passed, failed := statistic.value["passed"], statistic.value["failed"];
        var total := passed + failed;
        Ok(AllureResults(passed, failed,
          if total > 0 then passed as real / total as real * 100.0 else 0.0))
  }

  /**
   * For non-negative counts the success percentage lies in [0, 100]; it is
   * 100 exactly when something passed and nothing failed.
   */
  lemma PercentageInRange(objects: map<string, SummaryBlob>, ambiente: string, perfil: string)
    requires ReadResults(objects, ambiente, perfil).Ok?
    requires ReadResults(objects, ambiente, perfil).value.passed >= 0
    requires ReadResults(objects, ambiente, perfil).value.failed >= 0
    ensures var r := ReadResults(objects, ambiente, perfil).value;
      && 0.0 <= r.percentage <= 100.0
      && (r.percentage == 100.0 <==> r.failed == 0 && r.passed > 0)
  {
    var r := ReadResults(objects, ambiente, perfil).value;
    if SummaryKey(ambiente, perfil) in objects && r.passed + r.failed > 0 {
      var total := (r.passed + r.failed) as real;
      var p := r.percentage;
      assert p * total == 100.0 * r.passed as real;
      assert 100.0 * r.passed as real <= 100.0 * total;
      if p == 100.0 {
        assert 100.0 * total == 100.0 * r.passed as real;
      }
    }
  }

  /** Green when nothing failed, red otherwise; the exit status plays no part here. */
  function EmbedColor(failed: int): (color: int)
    ensures color == 0x2ecc71 <==> failed == 0
    ensures color != 0x2ecc71 ==> color == 0xe74c3c
  {
    if failed == 0 then 0x2ecc71 else 0xe74c3c
  }

  datatype CloudEmbed = CloudEmbed(
    ambiente: string, perfil: string, passed: int, failed: int,
    percentage: real, date: string, url: string, color: int)

  /** What the bot posts to its channel, in order. */
  datatype Post =
    | Sending(ambiente: string, perfil: string)   // "Enviando ejecución ..."
    | Running                                      // the status message
    | Result(embed: CloudEmbed)                    // the final embed with the report button

  /** What `client.create_build` did. */
  datatype Submission = Created | CreateRaised(error: string)

  /** What `op.result()` does once the build is done. */
  datatype BuildOutcome = Succeeded | Raised(error: string)

  /** How many times `op.done()` answers "not yet" before the first "done". */
  function FirstDone(answers: seq<bool>): (n: nat)
    ensures n <= |answers|
    ensures forall k :: 0 <= k < n ==> !answers[k]
    ensures n < |answers| ==> answers[n]
    decreases |answers|
  {
    if answers == [] || answers[0] then 0 else 1 + FirstDone(answers[1..])
  }

  datatype RunEnd =
    | Reported        // the embed was sent
    | StillPolling    // the observed answers ran out before the build was done
    | Failed(error: string)  // `create_build`, `op.result()` or the summary read raised; nothing more is sent

  /**
   * `ejecutar_en_cloud_build`: announce, start the build, post the status
   * message, edit it once per "not yet" of `op.done()`, and only after
   * "done" take the result, read the summary from the bucket's `objects`
   * and post the embed. A raising `create_build` ends the run after the
   * announcement. `answers` are the successive answers of `op.done()`;
   * `date` is the UTC time of the read.
   */
  method ExecuteInCloudBuild(ambiente: string, perfil: string, submission: Submission, answers: seq<bool>,
                             build: BuildOutcome, objects: map<string, SummaryBlob>, date: string)
    returns (posts: seq<Post>, edits: nat, end: RunEnd)
    ensures |posts| >= 1 && posts[0] == Sending(ambiente, perfil)
    ensures submission.CreateRaised? ==>
      posts == [Sending(ambiente, perfil)] && edits == 0 && end == Failed(submission.error)
    ensures submission.Created? ==> |posts| >= 2 && posts[1] == Running && edits == FirstDone(answers)
    ensures end.StillPolling? <==> submission.Created? && FirstDone(answers) == |answers|
    ensures end.Reported? <==>
      && submission.Created? && FirstDone(answers) < |answers| && build.Succeeded?
      && ReadResults(objects, ambiente, perfil).Ok?
    ensures |posts| == 3 <==> end.Reported?
    ensures |posts| <= 3
    ensures end.Reported? ==>
      var r := ReadResults(objects, ambiente, perfil).value;
      posts[2] == Result(CloudEmbed(ambiente, perfil, r.passed, r.failed, r.percentage,
        date, ReportUrl(ambiente, perfil), EmbedColor(r.failed)))
  {
    posts := [Sending(ambiente, perfil)];
    edits := 0;
    if submission.CreateRaised? {
      return posts, edits, Failed(submission.error);
    }
    posts := posts + [Running];
    var i := 0;
    while i < |answers| && !answers[i]
      invariant 0 <= i <= |answers|
      invariant forall k :: 0 <= k < i ==> !answers[k]
      invariant edits == i
    {
      edits := edits + 1;
      i := i + 1;
    }
    FirstDoneIsFirst(answers, i);
    if i == |answers| {
      return posts, edits, StillPolling;
    }
    if build.Raised? {
      return posts, edits, Failed(build.error);
    }
    var results := ReadResults(objects, ambiente, perfil);
    if results.Err? {
      return posts, edits, Failed(results.error);
    }
    var r := results.value;
    posts := posts + [Result(CloudEmbed(ambiente, perfil, r.passed, r.failed, r.percentage,
      date, ReportUrl(ambiente, perfil), EmbedColor(r.failed)))];
    return posts, edits, Reported;
  }

  /** The first "done" is unique: any index with no "done" before it and "done" at it (or the end) is FirstDone. */
  lemma {:induction false} FirstDoneIsFirst(answers: seq<bool>, i: nat)
    requires i <= |answers|
    requires forall k :: 0 <= k < i ==> !answers[k]
    requires i == |answers| || answers[i]
    ensures FirstDone(answers) == i
    decreases i
  {
    if i > 0 {
      FirstDoneIsFirst(answers[1..], i - 1);
    }
  }

  /** The ambiente buttons: the caption is the value passed on. */
  function AmbienteButton(caption: string): (e: Option<Environment>)
    ensures e.Some? ==> e.value.Name() == caption
  {
    if caption == "pantera" then Some(Pantera)
    else if caption == "leones" then Some(Leones)
    else if caption == "bugs" then Some(Bugs)
    else if caption == "support-bugs" then Some(SupportBugs)
    else None
  }

  /** The perfil buttons. */
  function PerfilButton(caption: string): (p: Option<Profile>)
    ensures p.Some? ==> p.value.Name() == caption
  {
    if caption == "agente" then Some(Agente)
    else if caption == "bot" then Some(BotProfile)
    else if caption == "supervisor" then Some(Supervisor)
    else None
  }

  /** Every environment and profile of the local bot has a button here, under its own name. */
  lemma ButtonsCoverChoices(e: Environment, p: Profile)
    ensures AmbienteButton(e.Name()) == Some(e)
    ensures PerfilButton(p.Name()) == Some(p)
  {
  }

  datatype CloudView = AmbienteView | PerfilView(ambiente: string)

  datatype CloudReaction =
    | ShowPerfiles(view: CloudView)                    // `mostrar_selector_perfil`
    | Execute(ambiente: string, perfil: string)        // `ejecutar_en_cloud_build`
    | NotAButton

  /** A press: the `PerfilView` carries the chosen ambiente into the build. */
  function CloudPress(view: CloudView, caption: string): (r: CloudReaction)
    ensures r.ShowPerfiles? <==> view == AmbienteView && AmbienteButton(caption).Some?
    ensures r.ShowPerfiles? ==> r.view == PerfilView(caption)
    ensures r.Execute? <==> view.PerfilView? && PerfilButton(caption).Some?
    ensures r.Execute? ==> r.ambiente == view.ambiente && r.perfil == caption
  {
    match view
    case AmbienteView =>
      if AmbienteButton(caption).Some? then ShowPerfiles(PerfilView(caption)) else NotAButton
    case PerfilView(a) =>
      if PerfilButton(caption).Some? then Execute(a, caption) else NotAButton
  }

  /** Choosing an ambiente and then a perfil executes the build for exactly that pair. */
  lemma CloudWizardRunsChosenPair(e: Environment, p: Profile)
    ensures var v := CloudPress(AmbienteView, e.Name());
      v == ShowPerfiles(PerfilView(e.Name()))
      && CloudPress(v.view, p.Name()) == Execute(e.Name(), p.Name())
  {
    ButtonsCoverChoices(e, p);
  }
}

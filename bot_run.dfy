/**
 * bot.py's `ProfileView.run_test`: the whole run behind one profile button.
 * The working directory (report.json, index.html, the screenshots) and the
 * storage bucket are the state it changes; pytest, the clock and the
 * storage client are parameters that say what they did.
 */
module BotRun {
  import opened Common
  import opened Text
  import opened BotResults
  import opened BotGrouping
  import opened BotRender
  import opened BotSummary
  import opened BotWizard
  import opened TestsConftest

  /** report.json as `run_test` finds it. */
  datatype JsonFile = Missing | Unreadable | Parsed(doc: ReportJson)

  /** The generated index.html: heading, statistics panel and the test list. */
  datatype Page = Page(heading: string, counters: Counters, duration: real, files: seq<FileSection>)

  /**
   * What became of the pytest process. `written` is report.json as pytest
   * left it; `calls` are the calls of the screenshot hook during the run.
   */
  datatype Execution =
    | Completed(returncode: int, written: JsonFile, calls: seq<HookCall>)
    | UndecodableOutput(written: JsonFile, calls: seq<HookCall>, error: string)  // `stdout.decode()` raised
    | TimedOut(calls: seq<HookCall>)   // 1800 s passed; the process is killed before report.json is written
    | LaunchFailed(error: string)      // the shell could not be started

  /** What the upload block met: success, a raising storage call, or a failing `google.cloud` import. */
  datatype UploadOutcome = Uploaded | UploadRaised(error: string) | ImportFailed(error: string)

  /** The follow-up messages `run_test` posts, in order. */
  datatype Message =
    | Starting(profile: string, environment: string)
    | TimeoutWarning
    | CommandError(error: string)
    | UploadWarning(error: string)
    | Summary(embed: Embed)

  /** An object in the bucket: its key and the page it holds. */
  datatype Blob = Blob(key: string, page: Page)

  class Workspace {
    var reportJson: JsonFile
    var indexHtml: Option<Page>
    /** Paths of the files under screenshots/. */
    var screenshots: set<string>
    var bucket: seq<Blob>

    constructor(reportJson: JsonFile, indexHtml: Option<Page>, screenshots: set<string>)
      ensures this.reportJson == reportJson && this.indexHtml == indexHtml
      ensures this.screenshots == screenshots && bucket == []
    {
      this.reportJson := reportJson;
      this.indexHtml := indexHtml;
      this.screenshots := screenshots;
      bucket := [];
    }
  }

  function Heading(profile: Profile, environment: Environment): string {
    Capitalize(profile.Name()) + " [" + environment.Name() + "]"
  }

  function DocOf(file: JsonFile): Option<ReportJson> {
    if file.Parsed? then Some(file.doc) else None
  }

  /** The test entries after the duration pass. */
  function Annotated(tests: seq<TestReport>): (rows: seq<TestRow>)
    ensures |rows| == |tests|
    ensures forall k :: 0 <= k < |rows| ==>
      rows[k].report == tests[k] && rows[k].fullDuration == Some(FullDuration(tests[k]))
  {
    seq(|tests|, k requires 0 <= k < |tests| => Fresh(tests[k]).(fullDuration := Some(FullDuration(tests[k]))))
  }

  /** The counters the report block leaves behind and the page it writes, if any. */
  datatype ReportOutcome = ReportOutcome(counters: Counters, page: Option<Page>)

  /**
   * The report block: counters come from the summary alone; the page exists
   * only when report.json was read, has a summary and a test list, and no
   * failed test lacks its call section. Any exception is caught, so the
   * counters read before it stay.
   */
  function BuildReport(file: JsonFile, profile: Profile, environment: Environment, screenshots: set<string>)
    : (r: ReportOutcome)
    ensures r.counters == ReadCounters(DocOf(file))
    ensures r.page.Some? <==>
      && file.Parsed? && file.doc.summary.Some? && file.doc.tests.Some?
      && RenderFiles(Grouping(Annotated(file.doc.tests.value)), screenshots).Ok?
    ensures r.page.Some? ==>
      var rows := Annotated(file.doc.tests.value);
      r.page.value == Page(Heading(profile, environment), r.counters, TotalDuration(rows),
        RenderFiles(Grouping(rows), screenshots).value)
  {
    var counters := ReadCounters(DocOf(file));
    if !file.Parsed? || file.doc.summary.None? || file.doc.tests.None? then ReportOutcome(counters, None)
    else
      var rows := Annotated(file.doc.tests.value);
      match RenderFiles(Grouping(rows), screenshots)
      case Err(_) => ReportOutcome(counters, None)
      case Ok(files) =>
        ReportOutcome(counters, Some(Page(Heading(profile, environment), counters, TotalDuration(rows), files)))
  }

  /** A page is written exactly when no failed test of the parsed document lacks its call section. */
  lemma PageWrittenIffRenderable(doc: ReportJson, profile: Profile, environment: Environment, screenshots: set<string>)
    requires doc.summary.Some? && doc.tests.Some?
    ensures BuildReport(Parsed(doc), profile, environment, screenshots).page.Some? <==>
      forall k :: 0 <= k < |doc.tests.value| ==>
        doc.tests.value[k].outcome == "failed" ==> doc.tests.value[k].call.Some?
  {
    var tests := doc.tests.value;
    var rows := Annotated(tests);
    PageFailsIffFailedWithoutCall(rows, screenshots);
    if exists k :: 0 <= k < |tests| && tests[k].outcome == "failed" && tests[k].call.None? {
      var k :| 0 <= k < |tests| && tests[k].outcome == "failed" && tests[k].call.None?;
      assert rows[k].report == tests[k];
    }
  }

  /**
   * The page and the embed show the same counters unless the summary
   * reported no tests: then the page shows the zeros while the embed counts
   * the run as one test.
   */
  lemma PageAndEmbedCounters(file: JsonFile, environment: Environment, profile: Profile,
                             screenshots: set<string>, returncode: int, url: string)
    requires BuildReport(file, profile, environment, screenshots).page.Some?
    ensures var report := BuildReport(file, profile, environment, screenshots);
      var e := SummaryEmbed(profile.Name(), environment.Name(), report.counters, returncode, url);
      && (report.counters.total != 0 ==> e.counters == report.page.value.counters)
      && (report.counters.total == 0 ==> e.counters.total == 1 && report.page.value.counters.total == 0)
  {
  }

  /**
   * Lines 91-384: read report.json, annotate durations, group, render, and
   * write index.html when that all succeeded. index.html is otherwise left
   * as it was, even when it is a page from an earlier run.
   */
  method GenerateReport(ws: Workspace, profile: Profile, environment: Environment) returns (counters: Counters)
    modifies ws
    ensures counters == BuildReport(old(ws.reportJson), profile, environment, old(ws.screenshots)).counters
    ensures ws.indexHtml ==
      var page := BuildReport(old(ws.reportJson), profile, environment, old(ws.screenshots)).page;
      if page.Some? then page else old(ws.indexHtml)
    ensures ws.reportJson == old(ws.reportJson) && ws.screenshots == old(ws.screenshots)
    ensures ws.bucket == old(ws.bucket)
  {
    counters := Counters(0, 0, 0);
    if !ws.reportJson.Parsed? {
      return;
    }
    var doc := ws.reportJson.doc;
    if doc.summary.None? {
      return;
    }
    counters := ReadCounters(Some(doc));
    if doc.tests.None? {
      return;
    }
    var rows, duration := AnnotateTests(doc.tests.value);
    var groups := GroupTests(rows);
    var files := RenderReport(groups, ws.screenshots);
    if files.Ok? {
      ws.indexHtml := Some(Page(Heading(profile, environment), counters, duration, files.value));
    }
  }

  /** The entries of `data['tests']` as a list updated in place by the duration loop. */
  method AnnotateTests(tests: seq<TestReport>) returns (rows: seq<TestRow>, duration: real)
    ensures rows == Annotated(tests)
    ensures duration == TotalDuration(rows)
  {
    var entries := new TestRow[|tests|](k requires 0 <= k < |tests| => Fresh(tests[k]));
    var initial := entries[..];
    assert initial == seq(|tests|, k requires 0 <= k < |tests| => Fresh(tests[k]));
    duration := AnnotateDurations(entries);
    rows := entries[..];
    assert rows == Annotated(tests);
    TotalDurationOfReports(initial, rows);
  }

  /**
   * One press of a profile button, from the first follow-up message to the
   * summary embed. report.json is removed before pytest starts, so a run
   * never reads an earlier run's results; the screenshots the run saves join
   * those already on disk before the report is built; the upload happens
   * whenever index.html exists and its failure only adds a warning.
   * Undecodable output reaches the outer handler before the report block.
   * `execution` is what became of `command`, the pytest command for the
   * chosen pair.
   */
  method RunTest(ws: Workspace, environment: Environment, profile: Profile,
                 execution: Execution, timestamp: string, upload: UploadOutcome)
    returns (command: string, messages: seq<Message>)
    modifies ws
    ensures command == Command(environment, profile)
    ensures |messages| >= 2 && messages[0] == Starting(profile.Name(), environment.Name())
    ensures execution.TimedOut? ==> messages == [Starting(profile.Name(), environment.Name()), TimeoutWarning]
    ensures execution.LaunchFailed? || execution.UndecodableOutput? ==>
      messages == [Starting(profile.Name(), environment.Name()), CommandError(execution.error)]
    ensures ws.screenshots ==
      old(ws.screenshots) + (if execution.LaunchFailed? then {} else ShotsWritten(execution.calls))
    ensures ws.reportJson ==
      (if execution.Completed? || execution.UndecodableOutput? then execution.written else Missing)
    ensures !execution.Completed? ==> ws.indexHtml == old(ws.indexHtml) && ws.bucket == old(ws.bucket)
    ensures execution.Completed? ==>
      var report := BuildReport(execution.written, profile, environment, ws.screenshots);
      var key := StorageKey(environment.Name(), profile.Name(), timestamp);
      var stored := ws.indexHtml.Some? && upload.Uploaded?;
      && ws.indexHtml == (if report.page.Some? then report.page else old(ws.indexHtml))
      && ws.bucket == old(ws.bucket) + (if stored then [Blob(key, ws.indexHtml.value)] else [])
      && messages == [Starting(profile.Name(), environment.Name())]
           + PublishMessages(profile, environment, report.counters, execution.returncode, key,
               ws.indexHtml.Some?, upload)
  {
    messages := [Starting(profile.Name(), environment.Name())];
    ws.reportJson := Missing;
    command := Command(environment, profile);
    match execution {
      case LaunchFailed(error) =>
        messages := messages + [CommandError(error)];
      case TimedOut(calls) =>
        ws.screenshots := ws.screenshots + ShotsWritten(calls);
        messages := messages + [TimeoutWarning];
      case UndecodableOutput(written, calls, error) =>
        ws.reportJson := written;
        ws.screenshots := ws.screenshots + ShotsWritten(calls);
        messages := messages + [CommandError(error)];
      case Completed(returncode, written, calls) =>
        ws.reportJson := written;
        ws.screenshots := ws.screenshots + ShotsWritten(calls);
        ghost var report := BuildReport(written, profile, environment, ws.screenshots);
        var counters := GenerateReport(ws, profile, environment);
        assert counters == report.counters;
        var rest := Publish(ws, environment, profile, counters, returncode, timestamp, upload);
        messages := messages + rest;
    }
  }

  /**
   * What the upload block and the summary post after a completed run: a
   * warning when the storage import failed (whether or not a page exists)
   * or an existing page failed to upload, then the summary embed, linking
   * the page only when it was stored.
   */
  function PublishMessages(profile: Profile, environment: Environment, counters: Counters, returncode: int,
                           key: string, pageExists: bool, upload: UploadOutcome): (ms: seq<Message>)
    ensures 1 <= |ms| <= 2
    ensures ms[|ms| - 1] == Summary(SummaryEmbed(profile.Name(), environment.Name(), counters, returncode,
      if pageExists && upload.Uploaded? then PublicUrl(key) else FallbackUrl))
    ensures |ms| == 2 <==> upload.ImportFailed? || (pageExists && upload.UploadRaised?)
    ensures |ms| == 2 ==> ms[0] == UploadWarning(upload.error)
  {
    var url := if pageExists && upload.Uploaded? then PublicUrl(key) else FallbackUrl;
    var warned := upload.ImportFailed? || (pageExists && upload.UploadRaised?);
    var warning := if warned then [UploadWarning(upload.error)] else [];
    warning + [Summary(SummaryEmbed(profile.Name(), environment.Name(), counters, returncode, url))]
  }

  /**
   * The upload block and the summary embed: the storage import comes first
   * and its failure warns even when there is no page; index.html, whatever
   * run wrote it, is uploaded when it exists; a raised upload only adds a
   * warning and keeps the fallback link.
   */
  method Publish(ws: Workspace, environment: Environment, profile: Profile, counters: Counters,
                 returncode: int, timestamp: string, upload: UploadOutcome)
    returns (messages: seq<Message>)
    modifies ws
    ensures var key := StorageKey(environment.Name(), profile.Name(), timestamp);
      var stored := ws.indexHtml.Some? && upload.Uploaded?;
      && ws.bucket == old(ws.bucket) + (if stored then [Blob(key, ws.indexHtml.value)] else [])
      && messages == PublishMessages(profile, environment, counters, returncode, key, ws.indexHtml.Some?, upload)
    ensures ws.reportJson == old(ws.reportJson) && ws.indexHtml == old(ws.indexHtml)
    ensures ws.screenshots == old(ws.screenshots)
  {
    var key := StorageKey(environment.Name(), profile.Name(), timestamp);
    var reportUrl, warning := UploadPage(ws, key, upload);
    messages := warning + [Summary(SummaryEmbed(profile.Name(), environment.Name(), counters, returncode, reportUrl))];
  }

  /**
   * The upload `try` block: the storage import comes first, so its failure
   * warns even without a page; an existing index.html is stored under `key`
   * and its public link replaces the fallback; a raising upload warns.
   */
  method UploadPage(ws: Workspace, key: string, upload: UploadOutcome)
    returns (reportUrl: string, warning: seq<Message>)
    modifies ws
    ensures var stored := ws.indexHtml.Some? && upload.Uploaded?;
      && ws.bucket == old(ws.bucket) + (if stored then [Blob(key, ws.indexHtml.value)] else [])
      && reportUrl == (if stored then PublicUrl(key) else FallbackUrl)
    ensures warning ==
      (if upload.ImportFailed? || (ws.indexHtml.Some? && upload.UploadRaised?) then [UploadWarning(upload.error)] else [])
    ensures ws.reportJson == old(ws.reportJson) && ws.indexHtml == old(ws.indexHtml)
    ensures ws.screenshots == old(ws.screenshots)
  {
    reportUrl, warning := FallbackUrl, [];
    if upload.ImportFailed? {
      warning := [UploadWarning(upload.error)];
    } else if ws.indexHtml.Some? {
      if upload.Uploaded? {
        ws.bucket := ws.bucket + [Blob(key, ws.indexHtml.value)];
        reportUrl := PublicUrl(key);
      } else {
        warning := [UploadWarning(upload.error)];
      }
    }
  }

  /**
   * A test whose call-phase screenshot the hook saved during the run shows
   * that screenshot in its report entry: RunTest adds the run's files
   * before the page is built.
   */
  lemma CapturedScreenshotIsShown(before: set<string>, calls: seq<HookCall>, k: nat, row: TestRow, number: nat)
    requires k < |calls| && calls[k] == HookCall("call", true, row.report.nodeid, Written)
    requires Renderable(row.report)
    ensures ItemOf(row, number, before + ShotsWritten(calls)).screenshot == Some(ScreenshotPath(row.report.nodeid))
  {
    CapturedTestHasScreenshot(calls, k);
  }
}

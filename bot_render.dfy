/**
 * The third pass of bot.py's `run_test`: the grouped tests become the
 * report page, one collapsible section per file (titled with its display
 * name), one nested section per class (a flat block for "Sin Clase"), and
 * one numbered entry per test, the numbering starting again at 1 in each
 * file. Markup and styling are not modelled; the page is its structure.
 */
module BotRender {
  import opened Common
  import opened Text
  import opened BotResults
  import opened BotNaming
  import opened BotGrouping
  import TestsConftest

  /** The error text shown for a failed test whose call section has no `longrepr`. */
  const UnknownError := "Error desconocido"

  /** The message logged when the page cannot be built; index.html is then not written. */
  const MissingCall := "Error generando reporte HTML: 'call'"

  /**
   * The error text reads `test['call']` without a default, so a failed test
   * without a call section raises and aborts the whole page.
   */
  predicate Renderable(t: TestReport) {
    t.outcome != "failed" || t.call.Some?
  }

  /** `test['call'].get('longrepr', 'Error desconocido')` for a failed test, "" otherwise. */
  function ErrorText(t: TestReport): string
    requires Renderable(t)
  {
    if t.outcome == "failed" then t.call.value.longrepr.GetOr(UnknownError) else ""
  }

  /** The call section's log when it has one, "" otherwise. */
  function LogText(t: TestReport): string {
    if t.call.Some? && t.call.value.log.Some? then t.call.value.log.value else ""
  }

  /** Text the page shows only when it is not empty. */
  function Shown(s: string): Option<string> {
    if s == "" then None else Some(s)
  }

  /**
   * One entry of the list: number, name, outcome, duration, the error box
   * (absent when the text is empty), the log box (absent shows "No logs
   * captured") and the screenshot when its file exists.
   */
  datatype Item = Item(
    number: nat,
    name: string,
    status: string,
    duration: real,
    error: Option<string>,
    logs: Option<string>,
    screenshot: Option<string>)

  datatype ClassSection = ClassSection(name: string, nested: bool, items: seq<Item>)
  datatype FileSection = FileSection(path: string, title: string, classes: seq<ClassSection>)

  function ItemOf(row: TestRow, number: nat, existing: set<string>): (it: Item)
    requires Renderable(row.report)
    ensures it.number == number && it.status == row.report.outcome
    ensures it.duration == row.fullDuration.GetOr(0.0)
    ensures row.report.outcome != "failed" ==> it.error == None
    ensures row.report.outcome == "failed" ==>
      (it.error.Some? <==> row.report.call.value.longrepr != Some(""))
    ensures row.report.outcome == "failed" && row.report.call.value.longrepr == None ==>
      it.error == Some(UnknownError)
    ensures it.logs.Some? <==>
      row.report.call.Some? && row.report.call.value.log.Some? && row.report.call.value.log.value != ""
    ensures it.screenshot.Some? <==> TestsConftest.ScreenshotPath(row.report.nodeid) in existing
  {
    var shot := TestsConftest.ScreenshotPath(row.report.nodeid);
    Item(
      number,
      row.shortName.GetOr(""),
      row.report.outcome,
      row.fullDuration.GetOr(0.0),
      Shown(ErrorText(row.report)),
      Shown(LogText(row.report)),
      if shot in existing then Some(shot) else None)
  }

  predicate TestsRenderable(tests: seq<TestRow>) {
    forall k :: 0 <= k < |tests| ==> Renderable(tests[k].report)
  }

  predicate ClassesRenderable(classes: seq<ClassGroup>) {
    forall j :: 0 <= j < |classes| ==> TestsRenderable(classes[j].tests)
  }

  /** How many tests the classes hold: the counter's advance over them. */
  function Size(classes: seq<ClassGroup>): nat
    decreases |classes|
  {
    if classes == [] then 0
    else Size(classes[..|classes| - 1]) + |classes[|classes| - 1].tests|
  }

  /** A class section whose entries are numbered from `first`. */
  function SectionOf(cg: ClassGroup, first: nat, existing: set<string>): ClassSection
    requires TestsRenderable(cg.tests)
  {
    ClassSection(cg.name, cg.name != NoClass,
      seq(|cg.tests|, k requires 0 <= k < |cg.tests| => ItemOf(cg.tests[k], first + k, existing)))
  }

  /** The class sections of one file, numbered on from 1 across its classes. */
  function Sections(classes: seq<ClassGroup>, existing: set<string>): seq<ClassSection>
    requires ClassesRenderable(classes)
    decreases |classes|
  {
    if classes == [] then []
    else
      var before := classes[..|classes| - 1];
      Sections(before, existing) + [SectionOf(classes[|classes| - 1], 1 + Size(before), existing)]
  }

  function FileSectionOf(fg: FileGroup, existing: set<string>): FileSection
    requires ClassesRenderable(fg.classes)
  {
    FileSection(fg.path, DisplayName(fg.path), Sections(fg.classes, existing))
  }

  predicate GroupsRenderable(groups: seq<FileGroup>) {
    forall i :: 0 <= i < |groups| ==> ClassesRenderable(groups[i].classes)
  }

  /**
   * The page body: one file section per group, or the error when some
   * failed test has no call section.
   */
  function RenderFiles(groups: seq<FileGroup>, existing: set<string>): Result<seq<FileSection>, string> {
    if GroupsRenderable(groups) then Ok(FileSections(groups, existing)) else Err(MissingCall)
  }

  /** One file section per group, in the grouping's order. */
  function FileSections(groups: seq<FileGroup>, existing: set<string>): seq<FileSection>
    requires GroupsRenderable(groups)
    decreases |groups|
  {
    if groups == [] then []
    else FileSections(groups[..|groups| - 1], existing) + [FileSectionOf(groups[|groups| - 1], existing)]
  }

  lemma SnocRenderable(classes: seq<ClassGroup>, cg: ClassGroup)
    requires ClassesRenderable(classes) && TestsRenderable(cg.tests)
    ensures ClassesRenderable(classes + [cg])
  {
    var cs := classes + [cg];
    forall j | 0 <= j < |cs|
      ensures TestsRenderable(cs[j].tests)
    {
      if j < |classes| {
        assert cs[j] == classes[j];
      }
    }
  }

  lemma SectionsSnoc(classes: seq<ClassGroup>, cg: ClassGroup, existing: set<string>)
    requires ClassesRenderable(classes) && TestsRenderable(cg.tests)
    ensures ClassesRenderable(classes + [cg])
    ensures Sections(classes + [cg], existing)
      == Sections(classes, existing) + [SectionOf(cg, 1 + Size(classes), existing)]
  {
    var cs := classes + [cg];
    SnocRenderable(classes, cg);
    assert cs[..|cs| - 1] == classes;
  }

  /** The numbers of a file's entries in page order. */
  function Numbers(sections: seq<ClassSection>): seq<nat>
    decreases |sections|
  {
    if sections == [] then []
    else
      var last := sections[|sections| - 1];
      Numbers(sections[..|sections| - 1]) + seq(|last.items|, k requires 0 <= k < |last.items| => last.items[k].number)
  }

  /** Within a file the entries are numbered 1, 2, ..., one number per test. */
  lemma {:induction false} NumberingConsecutive(classes: seq<ClassGroup>, existing: set<string>)
    requires ClassesRenderable(classes)
    ensures |Numbers(Sections(classes, existing))| == Size(classes)
    ensures forall k :: 0 <= k < Size(classes) ==> Numbers(Sections(classes, existing))[k] == k + 1
    decreases |classes|
  {
    if classes != [] {
      var before := classes[..|classes| - 1];
      var cg := classes[|classes| - 1];
      assert before + [cg] == classes;
      SectionsSnoc(before, cg, existing);
      NumberingConsecutive(before, existing);
      var secs := Sections(classes, existing);
      assert secs[..|secs| - 1] == Sections(before, existing);
    }
  }

  /**
   * The page over the grouped tests fails exactly when some test in the
   * document failed without a call section.
   */
  lemma PageFailsIffFailedWithoutCall(rows: seq<TestRow>, existing: set<string>)
    ensures RenderFiles(Grouping(rows), existing).Err? <==>
      exists k :: 0 <= k < |rows| && rows[k].report.outcome == "failed" && rows[k].report.call.None?
  {
    if k :| 0 <= k < |rows| && rows[k].report.outcome == "failed" && rows[k].report.call.None? {
      FailedRowBlocksPage(rows, k);
    }
    if !GroupsRenderable(Grouping(rows)) {
      BlockedPageHasFailedRow(rows);
    }
  }

  /** A failed test without a call section sits in some group, and that group cannot be rendered. */
  lemma FailedRowBlocksPage(rows: seq<TestRow>, k: nat)
    requires k < |rows| && !Renderable(rows[k].report)
    ensures !GroupsRenderable(Grouping(rows))
  {
    RowFiled(rows, k);
    var gs, fs := Grouping(rows), Files(rows);
    var f, c := FileKey(rows[k]), ClassKey(rows[k]);
    var i :| 0 <= i < |fs| && fs[i] == f;
    GroupingEntry(rows, i);
    var cs := ClassesIn(rows, f);
    var j :| 0 <= j < |cs| && cs[j] == c;
    var tests := gs[i].classes[j].tests;
    assert tests == Bucket(rows, f, c);
    var m :| 0 <= m < |tests| && tests[m] == Named(rows[k]);
    assert !Renderable(tests[m].report);
    assert !TestsRenderable(gs[i].classes[j].tests);
    assert !ClassesRenderable(gs[i].classes);
  }

  /** Every test of the grouping comes from the document, so a blocking test is a document test. */
  lemma BlockedPageHasFailedRow(rows: seq<TestRow>)
    requires !GroupsRenderable(Grouping(rows))
    ensures exists k :: 0 <= k < |rows| && !Renderable(rows[k].report)
  {
    var gs, fs := Grouping(rows), Files(rows);
    var i :| 0 <= i < |gs| && !ClassesRenderable(gs[i].classes);
    GroupingEntry(rows, i);
    var cs := ClassesIn(rows, fs[i]);
    var j :| 0 <= j < |gs[i].classes| && !TestsRenderable(gs[i].classes[j].tests);
    var tests := gs[i].classes[j].tests;
    assert tests == Bucket(rows, fs[i], cs[j]);
    var m :| 0 <= m < |tests| && !Renderable(tests[m].report);
    BucketFromRows(rows, fs[i], cs[j]);
    assert tests[m] in Bucket(rows, fs[i], cs[j]);
    var k :| 0 <= k < |rows| && tests[m] == Named(rows[k]);
    assert rows[k].report == tests[m].report;
  }

  /**
   * The screenshot the test hook saved for a test's call phase is the one
   * its report entry shows, as long as the file is still there.
   */
  lemma SavedScreenshotIsShown(row: TestRow, number: nat, existing: set<string>)
    requires Renderable(row.report)
    ensures var a := TestsConftest.MakeReport("call", true, row.report.nodeid, TestsConftest.Written);
      && a.Saved?
      && (a.path in existing ==> ItemOf(row, number, existing).screenshot == Some(a.path))
  {
  }

  /**
   * The innermost loop over one class's tests: each entry takes the current
   * `test_counter`, which advances by one per test; a failed test without a
   * call section stops the page.
   */
  method RenderTests(tests: seq<TestRow>, first: nat, existing: set<string>) returns (items: Option<seq<Item>>)
    ensures items.Some? <==> TestsRenderable(tests)
    ensures items.Some? ==>
      items.value == seq(|tests|, k requires 0 <= k < |tests| => ItemOf(tests[k], first + k, existing))
  {
    var acc: seq<Item> := [];
    var testCounter := first;
    var k := 0;
    while k < |tests|
      invariant 0 <= k <= |tests|
      invariant TestsRenderable(tests[..k])
      invariant testCounter == first + k
      invariant |acc| == k
      invariant forall k' :: 0 <= k' < k ==> acc[k'] == ItemOf(tests[k'], first + k', existing)
    {
      var row := tests[k];
      if !Renderable(row.report) {
        return None;
      }
      acc := acc + [ItemOf(row, testCounter, existing)];
      testCounter := testCounter + 1;
      assert tests[..k + 1] == tests[..k] + [row];
      k := k + 1;
    }
    assert tests[..k] == tests;
    return Some(acc);
  }

  /** The loop over one file's classes, `test_counter` starting at 1. */
  method RenderFile(fg: FileGroup, existing: set<string>) returns (section: Option<FileSection>)
    ensures section.Some? <==> ClassesRenderable(fg.classes)
    ensures section.Some? ==> section.value == FileSectionOf(fg, existing)
  {
    var testCounter := 1;
    var sections: seq<ClassSection> := [];
    var j := 0;
    while j < |fg.classes|
      invariant 0 <= j <= |fg.classes|
      invariant ClassesRenderable(fg.classes[..j])
      invariant testCounter == 1 + Size(fg.classes[..j])
      invariant sections == Sections(fg.classes[..j], existing)
    {
      var cg := fg.classes[j];
      var items := RenderTests(cg.tests, testCounter, existing);
      if items.None? {
        assert !ClassesRenderable(fg.classes) by {
          assert !TestsRenderable(fg.classes[j].tests);
        }
        return None;
      }
      assert fg.classes[..j + 1] == fg.classes[..j] + [cg];
      SectionsSnoc(fg.classes[..j], cg, existing);
      assert ClassSection(cg.name, cg.name != NoClass, items.value) == SectionOf(cg, testCounter, existing);
      assert fg.classes[..j + 1][..j] == fg.classes[..j];
      sections := sections + [ClassSection(cg.name, cg.name != NoClass, items.value)];
      testCounter := testCounter + |cg.tests|;
      j := j + 1;
    }
    assert fg.classes[..j] == fg.classes;
    return Some(FileSection(fg.path, DisplayName(fg.path), sections));
  }

  /** Extending a renderable prefix by one group, and a group that cannot be rendered. */
  lemma GroupsPrefix(groups: seq<FileGroup>, i: nat)
    requires i < |groups| && GroupsRenderable(groups[..i])
    ensures ClassesRenderable(groups[i].classes) ==> GroupsRenderable(groups[..i + 1])
    ensures !ClassesRenderable(groups[i].classes) ==> !GroupsRenderable(groups)
  {
    var next := groups[..i + 1];
    if ClassesRenderable(groups[i].classes) {
      forall k | 0 <= k < |next| ensures ClassesRenderable(next[k].classes) {
        if k < i {
          assert next[k] == groups[..i][k];
        }
      }
    }
  }

  lemma FileSectionsSnoc(groups: seq<FileGroup>, i: nat, existing: set<string>)
    requires i < |groups| && GroupsRenderable(groups[..i + 1])
    ensures GroupsRenderable(groups[..i])
    ensures FileSections(groups[..i + 1], existing)
      == FileSections(groups[..i], existing) + [FileSectionOf(groups[i], existing)]
  {
    assert groups[..i + 1][..i] == groups[..i];
  }

  /** The loop over the files of the grouping, building the page body. */
  method RenderReport(groups: seq<FileGroup>, existing: set<string>) returns (r: Result<seq<FileSection>, string>)
    ensures r == RenderFiles(groups, existing)
  {
    var files: seq<FileSection> := [];
    var i := 0;
    while i < |groups|
      invariant 0 <= i <= |groups|
      invariant GroupsRenderable(groups[..i])
      invariant files == FileSections(groups[..i], existing)
    {
      var section := RenderFile(groups[i], existing);
      GroupsPrefix(groups, i);
      if section.None? {
        return Err(MissingCall);
      }
      files := files + [section.value];
      FileSectionsSnoc(groups, i, existing);
      i := i + 1;
    }
    assert groups[..i] == groups;
    return Ok(files);
  }
}

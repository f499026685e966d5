/**
 * The structured result document bot.py reads (`report.json`, written by
 * pytest-json-report) and the first pass of `run_test` over it: the summary
 * counters and the per-test full duration.
 */
module BotResults {
  import opened Common

  /** One of a test's setup / call / teardown sections. */
  datatype Phase = Phase(duration: Option<real>, log: Option<string>, longrepr: Option<string>)

  datatype TestReport = TestReport(
    nodeid: string,
    outcome: string,
    setup: Option<Phase>,
    call: Option<Phase>,
    teardown: Option<Phase>)

  /** The parsed document; a missing top-level key is `None`. */
  datatype ReportJson = ReportJson(summary: Option<map<string, int>>, tests: Option<seq<TestReport>>)

  /** A test entry as `run_test` annotates it in place (`full_duration`, `short_name`). */
  datatype TestRow = TestRow(report: TestReport, fullDuration: Option<real>, shortName: Option<string>)

  function Fresh(t: TestReport): TestRow {
    TestRow(t, None, None)
  }

  datatype Counters = Counters(passed: int, failed: int, total: int)

  /** `data['summary'].get(key, 0)`. */
  function Counter(summary: map<string, int>, key: string): int {
    if key in summary then summary[key] else 0
  }

  /**
   * The counters once the summary has been read: all zero when report.json
   * is absent or has no summary (the KeyError is caught), otherwise each key
   * read with a default of 0.
   */
  function ReadCounters(doc: Option<ReportJson>): (c: Counters)
    ensures doc.None? || doc.value.summary.None? ==> c == Counters(0, 0, 0)
    ensures doc.Some? && doc.value.summary.Some? ==>
      var s := doc.value.summary.value;
      && (c.passed == if "passed" in s then s["passed"] else 0)
      && (c.failed == if "failed" in s then s["failed"] else 0)
      && (c.total == if "total" in s then s["total"] else 0)
  {
    if doc.None? || doc.value.summary.None? then Counters(0, 0, 0)
    else
      var s := doc.value.summary.value;
      Counters(Counter(s, "passed"), Counter(s, "failed"), Counter(s, "total"))
  }

  /** `test.get(phase, {}).get('duration', 0)`. */
  function PhaseDuration(p: Option<Phase>): real {
    match p
    case None => 0.0
    case Some(ph) => ph.duration.GetOr(0.0)
  }

  /** call + setup + teardown, a missing phase or duration counting as 0. */
  function FullDuration(t: TestReport): real {
    PhaseDuration(t.call) + PhaseDuration(t.setup) + PhaseDuration(t.teardown)
  }

  /** The run's duration: the sum of the tests' full durations. */
  function TotalDuration(rows: seq<TestRow>): real
    decreases |rows|
  {
    if rows == [] then 0.0
    else TotalDuration(rows[..|rows| - 1]) + FullDuration(rows[|rows| - 1].report)
  }

  /** The total splits over any cut of the test list. */
  lemma {:induction false} TotalDurationAppend(a: seq<TestRow>, b: seq<TestRow>)
    ensures TotalDuration(a + b) == TotalDuration(a) + TotalDuration(b)
    decreases |b|
  {
    if b == [] {
      assert a + b == a;
    } else {
      var b' := b[..|b| - 1];
      assert (a + b)[..|a + b| - 1] == a + b';
      assert (a + b)[|a + b| - 1] == b[|b| - 1];
      TotalDurationAppend(a, b');
    }
  }

  /** The total depends on the test reports only, not on what the pass annotated. */
  lemma {:induction false} TotalDurationOfReports(a: seq<TestRow>, b: seq<TestRow>)
    requires |a| == |b|
    requires forall k :: 0 <= k < |a| ==> a[k].report == b[k].report
    ensures TotalDuration(a) == TotalDuration(b)
    decreases |a|
  {
    if a != [] {
      TotalDurationOfReports(a[..|a| - 1], b[..|b| - 1]);
    }
  }

  predicate NonNegativePhase(p: Option<Phase>) {
    p.None? || p.value.duration.None? || p.value.duration.value >= 0.0
  }

  predicate NonNegativeDurations(t: TestReport) {
    NonNegativePhase(t.setup) && NonNegativePhase(t.call) && NonNegativePhase(t.teardown)
  }

  /** Durations pytest reports are never negative, so neither is the run's total. */
  lemma {:induction false} TotalDurationNonNegative(rows: seq<TestRow>)
    requires forall k :: 0 <= k < |rows| ==> NonNegativeDurations(rows[k].report)
    ensures TotalDuration(rows) >= 0.0
    decreases |rows|
  {
    if rows != [] {
      TotalDurationNonNegative(rows[..|rows| - 1]);
      var t := rows[|rows| - 1].report;
      assert NonNegativeDurations(t);
      assert FullDuration(t) >= 0.0;
    }
  }

  /**
   * The loop over `data['tests']` that adds each test's full duration to the
   * run's total and stores it in the test entry as `full_duration`.
   */
  method AnnotateDurations(tests: array<TestRow>) returns (duration: real)
    modifies tests
    ensures duration == TotalDuration(old(tests[..]))
    ensures forall k :: 0 <= k < tests.Length ==>
      tests[k] == old(tests[k]).(fullDuration := Some(FullDuration(old(tests[k]).report)))
  {
    duration := 0.0;
    var i := 0;
    while i < tests.Length
      invariant 0 <= i <= tests.Length
      invariant duration == TotalDuration(old(tests[..])[..i])
      invariant forall k :: 0 <= k < i ==>
        tests[k] == old(tests[k]).(fullDuration := Some(FullDuration(old(tests[k]).report)))
      invariant forall k :: i <= k < tests.Length ==> tests[k] == old(tests[k])
    {
      var testDuration := FullDuration(tests[i].report);
      duration := duration + testDuration;
      tests[i] := tests[i].(fullDuration := Some(testDuration));
      assert old(tests[..])[..i + 1][..i] == old(tests[..])[..i];
      i := i + 1;
    }
    assert old(tests[..])[..tests.Length] == old(tests[..]);
  }
}

/**
 The test driver of src/acunit.h: `ACU_RUN_TEST` runs one test function and
 reports its verdict, `ACU_SUMMARY` reports the totals and gives `main` its
 exit status. A client's `main` is a sequence of `ACU_RUN_TEST` lines followed
 by `ACU_SUMMARY()`.
 */
module Driver {

  import opened RunStates
  import opened Events
  import opened Assertions

  /** A function defined with `ACU_TEST(name)`. */
  datatype Test = Test(name: string, body: seq<Stmt>)

  /** The state and output after some tests have run. */
  datatype TestRun = TestRun(state: RunState, events: seq<Event>)

  /** `ACU_SUMMARY()`: the summary line and the value `main` returns. */
  datatype Report = Report(line: Event, exitCode: int)

  /** The state and output of a whole `main`, ending with the summary. */
  datatype MainRun = MainRun(state: RunState, events: seq<Event>, exitCode: int)

  /** `ACU_RUN_TEST(test)`: set the status to 1, run the test (to its end or to
      an early return), count it as executed, and print PASSED when the status
      is still 1, FAILED otherwise. The verdict is PASSED exactly when no
      assertion failed during this test. */
  function RunTest(s: RunState, t: Test): (r: TestRun)
    ensures r.state.executed == s.executed + 1
    ensures r.state.failed >= s.failed
    ensures |r.events| >= 1
    ensures r.events[|r.events| - 1] == Passed(t.name) <==> r.state.failed == s.failed
    ensures r.events[|r.events| - 1] == Failed(t.name) <==> r.state.failed != s.failed
    ensures r.state.status <==> r.state.failed == s.failed
  {
    var started := s.(status := true);
    var ran := Exec(started, t.body);
    var counted := ran.state.(executed := ran.state.executed + 1);
    var verdict := if counted.status then Passed(t.name) else Failed(t.name);
    TestRun(counted, ran.events + [verdict])
  }

  /** What one test prints: one diagnostic per failure counted, then exactly
      one verdict, FAILED exactly when a diagnostic was printed. */
  lemma RunTestOutput(s: RunState, t: Test)
    ensures var r := RunTest(s, t);
      && Count(r.events, DiagnosticKind) == r.state.failed - s.failed
      && Count(r.events, PassedKind) + Count(r.events, FailedKind) == 1
      && Count(r.events, FailedKind) == (if r.state.failed == s.failed then 0 else 1)
      && Count(r.events, SummaryKind) == 0
  {
    var r := RunTest(s, t);
    var ran := Exec(s.(status := true), t.body);
    var n := |r.events| - 1;
    assert r.events == ran.events + [r.events[n]];
    assert r.events[..n] == ran.events;
    CountOnlyDiagnostics(ran.events);
    CountSummaryOfDiagnostics(ran.events);
  }

  lemma {:induction false} CountSummaryOfDiagnostics(log: seq<Event>)
    requires OnlyDiagnostics(log)
    ensures Count(log, SummaryKind) == 0
    decreases |log|
  {
    if log != [] {
      CountSummaryOfDiagnostics(log[..|log| - 1]);
    }
  }

  /** `ACU_SUMMARY()`: a pure read of the counters. The run fails exactly when
      some assertion failed. */
  function Summary(s: RunState): (r: Report)
    ensures r.exitCode == 0 || r.exitCode == 1
    ensures r.exitCode != 0 <==> s.failed != 0
    ensures r.line.SummaryFailed? <==> s.failed != 0
    ensures r.line.SummaryFailed? ==> r.line == SummaryFailed(s.failed, s.executed)
    ensures !r.line.SummaryFailed? ==> r.line == SummaryPassed(s.executed)
  {
    if s.failed != 0 then Report(SummaryFailed(s.failed, s.executed), 1)
    else Report(SummaryPassed(s.executed), 0)
  }

  /** The `ACU_RUN_TEST` lines of `main`, in order. */
  function RunTests(s: RunState, tests: seq<Test>): (r: TestRun)
    decreases |tests|
    ensures r.state.executed == s.executed + |tests|
    ensures r.state.failed >= s.failed
  {
    if tests == [] then TestRun(s, [])
    else
      var before := RunTests(s, tests[..|tests| - 1]);
      var last := RunTest(before.state, tests[|tests| - 1]);
      TestRun(last.state, before.events + last.events)
  }

  /** What a sequence of tests prints: one verdict per test, one diagnostic
      per failure counted, and at least one FAILED verdict exactly when
      something failed; a FAILED test always printed a diagnostic, so there
      are never more FAILED verdicts than failures. */
  lemma {:induction false} RunTestsOutput(s: RunState, tests: seq<Test>)
    ensures var r := RunTests(s, tests);
      && r.state.failed == s.failed + Count(r.events, DiagnosticKind)
      && Count(r.events, PassedKind) + Count(r.events, FailedKind) == |tests|
      && Count(r.events, FailedKind) <= Count(r.events, DiagnosticKind)
      && (Count(r.events, FailedKind) == 0 <==> Count(r.events, DiagnosticKind) == 0)
      && Count(r.events, SummaryKind) == 0
    decreases |tests|
  {
    if tests != [] {
      var before := RunTests(s, tests[..|tests| - 1]);
      var last := RunTest(before.state, tests[|tests| - 1]);
      RunTestsOutput(s, tests[..|tests| - 1]);
      RunTestOutput(before.state, tests[|tests| - 1]);
      CountAppend(before.events, last.events, DiagnosticKind);
      CountAppend(before.events, last.events, PassedKind);
      CountAppend(before.events, last.events, FailedKind);
      CountAppend(before.events, last.events, SummaryKind);
    }
  }

  /** A whole `main`: the tests from the `ACU_VARS()` state, then the summary
      of the final counters as the last line and as the exit status. */
  function RunMain(tests: seq<Test>): (r: MainRun)
    ensures r.state.executed == |tests|
    ensures |r.events| >= 1 && r.events[|r.events| - 1] == Summary(r.state).line
    ensures r.exitCode == Summary(r.state).exitCode
  {
    var run := RunTests(Initial(), tests);
    var report := Summary(run.state);
    MainRun(run.state, run.events + [report.line], report.exitCode)
  }

  /** The exit status of `main` is non-zero exactly when some test was
      reported FAILED; the summary's failure number is the number of
      diagnostics printed, and every test got one verdict. */
  lemma MainOutput(tests: seq<Test>)
    ensures var r := RunMain(tests);
      && r.state.failed == Count(r.events, DiagnosticKind)
      && (r.exitCode != 0 <==> Count(r.events, FailedKind) > 0)
      && Count(r.events, PassedKind) + Count(r.events, FailedKind) == |tests|
  {
    var run := RunTests(Initial(), tests);
    var report := Summary(run.state);
    assert RunMain(tests) == MainRun(run.state, run.events + [report.line], report.exitCode);
    RunTestsOutput(Initial(), tests);
    assert KindOf(report.line) == SummaryKind;
    SummaryLineCounts(run.events, report.line);
  }

  /** Appending a summary line adds no diagnostic or verdict. */
  lemma SummaryLineCounts(log: seq<Event>, line: Event)
    requires KindOf(line) == SummaryKind
    ensures Count(log + [line], DiagnosticKind) == Count(log, DiagnosticKind)
    ensures Count(log + [line], PassedKind) == Count(log, PassedKind)
    ensures Count(log + [line], FailedKind) == Count(log, FailedKind)
  {
  }

  /** `main` as the client writes it: one `ACU_RUN_TEST` per test, in order,
      then `ACU_SUMMARY()`. */
  method RunSuite(tests: seq<Test>) returns (final: RunState, log: seq<Event>, exitCode: int)
    ensures MainRun(final, log, exitCode) == RunMain(tests)
    ensures final.executed == |tests|
    ensures final.failed == Count(log, DiagnosticKind)
    ensures exitCode != 0 <==> Count(log, FailedKind) > 0
  {
    final := Initial();
    log := [];
    var i := 0;
    while i < |tests|
      invariant 0 <= i <= |tests|
      invariant TestRun(final, log) == RunTests(Initial(), tests[..i])
    {
      assert tests[..i + 1][..i] == tests[..i];
      var r := RunTest(final, tests[i]);
      final := r.state;
      log := log + r.events;
      i := i + 1;
    }
    assert tests[..i] == tests;
    var report := Summary(final);
    log := log + [report.line];
    exitCode := report.exitCode;
    MainOutput(tests);
  }
}

/**
 Properties of the driver that relate several runs or tie the driver to the
 assertion discipline of the test bodies.
 */
module DriverLemmas {

  import opened RunStates
  import opened Events
  import opened Assertions
  import opened AssertionLemmas
  import opened Driver

  /** `ACU_RUN_TEST` sets the status to 1 before the body, so whatever an
      earlier test left there has no influence on the next test. */
  lemma RunTestIgnoresPriorStatus(s: RunState, t: Test, b: bool)
    ensures RunTest(s.(status := b), t) == RunTest(s, t)
  {
  }

  /** A failure inside a helper called without the guard does not stop the
      test body, but the status stays 0, so the test is still reported FAILED
      however the rest of the body goes. */
  lemma UnguardedFailureFailsTest(s: RunState, name: string, h: seq<Stmt>, rest: seq<Stmt>)
    requires Exec(s.(status := true), h).events != []
    ensures var r := RunTest(s, Test(name, [Call(h)] + rest));
      r.events[|r.events| - 1] == Failed(name)
  {
    PlainCallContinues(s.(status := true), h, rest);
  }

  /** A test whose helpers are all guarded adds at most one to
      `acu_tests_failed`, whatever its nesting. */
  lemma GuardedOnlyTestFailsAtMostOnce(s: RunState, t: Test)
    requires GuardedOnly(t.body)
    ensures RunTest(s, t).state.failed <= s.failed + 1
  {
    GuardedOnlyFailsAtMostOnce(s.(status := true), t.body);
  }

  /** When every test calls its helpers through the guard, the summary's
      "failed" number is exactly the number of tests reported FAILED. */
  lemma {:induction false} GuardedOnlySuiteCountsFailedTests(s: RunState, tests: seq<Test>)
    requires forall i :: 0 <= i < |tests| ==> GuardedOnly(tests[i].body)
    ensures Count(RunTests(s, tests).events, FailedKind) == Count(RunTests(s, tests).events, DiagnosticKind)
    decreases |tests|
  {
    if tests != [] {
      var init := tests[..|tests| - 1];
      var t := tests[|tests| - 1];
      GuardedOnlySuiteCountsFailedTests(s, init);
      var before := RunTests(s, init);
      var last := RunTest(before.state, t);
      GuardedOnlyTestFailsAtMostOnce(before.state, t);
      RunTestOutput(before.state, t);
      CountAppend(before.events, last.events, DiagnosticKind);
      CountAppend(before.events, last.events, FailedKind);
    }
  }

  /** The same for a whole `main`: the exit summary counts failed tests. */
  lemma GuardedOnlyMainCountsFailedTests(tests: seq<Test>)
    requires forall i :: 0 <= i < |tests| ==> GuardedOnly(tests[i].body)
    ensures RunMain(tests).state.failed == Count(RunMain(tests).events, FailedKind)
  {
    GuardedOnlySuiteCountsFailedTests(Initial(), tests);
    MainOutput(tests);
    var run := RunTests(Initial(), tests);
    SummaryLineCounts(run.events, Summary(run.state).line);
  }

  /** A `main` without tests reports the `ACU_VARS()` counters: it passes with
      zero tests executed. */
  lemma EmptySuitePasses()
    ensures RunMain([]) == MainRun(Initial(), [SummaryPassed(0)], 0)
  {
  }

  /** `ACU_SUMMARY()` reads only the two counters: calling it again, or with a
      different status, gives the same line and exit value. */
  lemma SummaryReadsOnlyCounters(s: RunState, t: RunState)
    requires s.failed == t.failed && s.executed == t.executed
    ensures Summary(s) == Summary(t)
  {
  }
}

/**
 Concrete runs: the example programs under tests/ and the usual small cases,
 worked through the model. Sites are parameters, so each lemma holds wherever
 the assertions are written.
 */
module Scenarios {

  import opened Wrappers
  import opened RunStates
  import opened Events
  import opened Assertions
  import opened AssertionLemmas
  import opened Driver

  /** A single test run from state `s`, unfolded. */
  lemma RunOneTest(s: RunState, t: Test)
    ensures RunTests(s, [t]) == RunTest(s, t)
  {
  }

  /** Two tests run from `s`, unfolded. */
  lemma RunTwoTests(s: RunState, a: Test, b: Test)
    ensures RunTests(s, [a, b])
         == TestRun(RunTest(RunTest(s, a).state, b).state,
                    RunTest(s, a).events + RunTest(RunTest(s, a).state, b).events)
  {
    assert [a, b][..1] == [a];
    RunOneTest(s, a);
  }

  /** A whole `main`, unfolded into its tests and its summary. */
  lemma MainOf(tests: seq<Test>)
    ensures var run := RunTests(Initial(), tests);
      RunMain(tests) == MainRun(run.state, run.events + [Summary(run.state).line], Summary(run.state).exitCode)
  {
  }

  /** The program of tests/simple_asserts_test.c: two tests, each with one
      holding `ACU_ASSERT`. Both are reported PASSED and the run passes with
      two tests executed. */
  lemma TwoPassingTests(x: Site, y: Site, a: string, b: string)
    ensures var r := RunMain([Test(a, [Assert(true, x)]), Test(b, [Assert(true, y)])]);
      && r.events == [Passed(a), Passed(b), SummaryPassed(2)]
      && r.exitCode == 0
  {
    var ta := Test(a, [Assert(true, x)]);
    var tb := Test(b, [Assert(true, y)]);
    var s1 := RunState(true, 1, 0);
    PassingAssertion(RunState(true, 0, 0), x, []);
    assert [Assert(true, x)] + [] == ta.body;
    assert RunTest(Initial(), ta) == TestRun(s1, [Passed(a)]);
    PassingAssertion(s1, y, []);
    assert [Assert(true, y)] + [] == tb.body;
    assert RunTest(s1, tb) == TestRun(RunState(true, 2, 0), [Passed(b)]);
    RunTwoTests(Initial(), ta, tb);
    MainOf([ta, tb]);
    var run := RunTests(Initial(), [ta, tb]);
    assert run.state == RunState(true, 2, 0);
    assert run.events == [Passed(a), Passed(b)];
    assert Summary(run.state) == Report(SummaryPassed(2), 0);
  }

  /** A failing `3 == 4` in the first test, a passing second test: the
      diagnostic names the condition, the rest of the first test is skipped,
      and the run fails with one failure out of two tests. */
  lemma OneFailingAssertion(site: Site, later: Site, other: Site)
    requires site.condition == "3 == 4"
    ensures var r := RunMain([Test("a", [Assert(3 == 4, site), Assert(false, later)]),
                              Test("b", [Assert(true, other)])]);
      && r.events == [Diagnostic(site), Failed("a"), Passed("b"), SummaryFailed(1, 2)]
      && r.state.failed == 1 && r.state.executed == 2
      && r.exitCode == 1
  {
    var a := Test("a", [Assert(3 == 4, site), Assert(false, later)]);
    var b := Test("b", [Assert(true, other)]);
    FailingAssertion(RunState(true, 0, 0), site, [Assert(false, later)]);
    assert a.body == [Assert(false, site)] + [Assert(false, later)];
    assert RunTest(Initial(), a) == TestRun(RunState(false, 1, 1), [Diagnostic(site), Failed("a")]);
    PassingAssertion(RunState(true, 1, 1), other, []);
    assert [Assert(true, other)] + [] == b.body;
    assert RunTest(RunState(false, 1, 1), b) == TestRun(RunState(true, 2, 1), [Passed("b")]);
    RunTwoTests(Initial(), a, b);
    MainOf([a, b]);
    var run := RunTests(Initial(), [a, b]);
    assert run.state == RunState(true, 2, 1);
    assert run.events == [Diagnostic(site), Failed("a"), Passed("b")];
    assert Summary(run.state) == Report(SummaryFailed(1, 2), 1);
  }

  /** The program of tests/advanced_asserts_test.c as written: a holding
      `ACU_ASSERT_MSG`, then a test that calls the helper `check_some_condition`
      (two holding assertions) through the guard. Both tests pass, nothing is
      printed besides the verdicts, and the run passes with two tests. */
  lemma GuardedHelperPasses(m: Site, first: Site, second: Site)
    ensures var helper := [Assert(true, first), Assert(true, second)];
      var r := RunMain([Test("test_assert_with_message", [Assert(true, m)]),
                        Test("test_assert_no_fatal_failure", [Guarded(helper)])]);
      && r.events == [Passed("test_assert_with_message"), Passed("test_assert_no_fatal_failure"), SummaryPassed(2)]
      && r.exitCode == 0
  {
    var helper := [Assert(true, first), Assert(true, second)];
    var ta := Test("test_assert_with_message", [Assert(true, m)]);
    var tb := Test("test_assert_no_fatal_failure", [Guarded(helper)]);
    var s1 := RunState(true, 1, 0);
    PassingAssertion(RunState(true, 0, 0), m, []);
    assert [Assert(true, m)] + [] == ta.body;
    assert RunTest(Initial(), ta) == TestRun(s1, [Passed(ta.name)]);
    PassingAssertion(s1, first, [Assert(true, second)]);
    PassingAssertion(s1, second, []);
    assert helper == [Assert(true, first)] + [Assert(true, second)];
    assert [Assert(true, second)] + [] == [Assert(true, second)];
    assert Exec(s1, helper) == Step(s1, Continue, []);
    GuardedCallAbortsIff(s1, helper, []);
    assert [Guarded(helper)] + [] == tb.body;
    assert Exec(s1, tb.body) == Step(s1, Continue, []);
    assert RunTest(s1, tb) == TestRun(RunState(true, 2, 0), [Passed(tb.name)]);
    RunTwoTests(Initial(), ta, tb);
    MainOf([ta, tb]);
    var run := RunTests(Initial(), [ta, tb]);
    assert run.state == RunState(true, 2, 0);
    assert run.events == [Passed(ta.name), Passed(tb.name)];
    assert Summary(run.state) == Report(SummaryPassed(2), 0);
  }

  /** The helper pattern of tests/advanced_asserts_test.c, with the helper's
      second assertion failing: the statement after the guarded call never
      runs, one failure is counted and one test executed. */
  lemma GuardedHelperFails(first: Site, second: Site, after: Site)
    ensures var helper := [Assert(true, first), Assert(false, second)];
      var r := RunMain([Test("t", [Guarded(helper), Assert(false, after)])]);
      && r.events == [Diagnostic(second), Failed("t"), SummaryFailed(1, 1)]
      && r.exitCode == 1
  {
    var helper := [Assert(true, first), Assert(false, second)];
    var t := Test("t", [Guarded(helper), Assert(false, after)]);
    var s := RunState(true, 0, 0);
    PassingAssertion(s, first, [Assert(false, second)]);
    FailingAssertion(s, second, []);
    assert helper == [Assert(true, first)] + [Assert(false, second)];
    assert [Assert(false, second)] + [] == [Assert(false, second)];
    GuardedCallAbortsIff(s, helper, [Assert(false, after)]);
    assert t.body == [Guarded(helper)] + [Assert(false, after)];
    assert RunTest(Initial(), t) == TestRun(RunState(false, 1, 1), [Diagnostic(second), Failed("t")]);
    RunOneTest(Initial(), t);
    MainOf([t]);
  }

  /** An assertion with a message carries the message into its diagnostic
      (the line ends in ": <message>"). */
  lemma MessageIsReported(site: Site, message: string)
    requires site.message == Some(message)
    ensures var r := RunTest(Initial(), Test("m", [Assert(false, site)]));
      && r.events == [Diagnostic(site), Failed("m")]
  {
    FailingAssertion(RunState(true, 0, 0), site, []);
    assert [Assert(false, site)] + [] == [Assert(false, site)];
  }

  /** One test with two unguarded helper calls that each fail: the summary
      reads "2 failed out of 1 test(s)", because `acu_tests_failed` counts
      failing assertions although its comment calls it the number of failed
      tests. */
  lemma FailedCanExceedExecuted(name: string, site: Site)
    ensures var r := RunMain([Test(name, PlainFailures(2, site))]);
      && r.state.failed == 2 && r.state.executed == 1
      && r.events[|r.events| - 1] == SummaryFailed(2, 1)
  {
    var t := Test(name, PlainFailures(2, site));
    PlainCallsCountEveryFailure(2, RunState(true, 0, 0), site);
    RunOneTest(Initial(), t);
    MainOf([t]);
  }
}

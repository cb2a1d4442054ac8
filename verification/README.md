# ACUnit run-state machine in Dafny

ACUnit is a minimal unit-testing harness for C, a single header
(`src/acunit.h`) adapted from minunit. Its logic is a small state machine
built from three global counters and a handful of macros:

- `ACU_VARS()` defines `acu_test_status`, `acu_tests_executed` and
  `acu_tests_failed`, all starting at 0.
- `acu_assertion` prints one diagnostic and increments `acu_tests_failed`.
- `ACU_ASSERT` / `ACU_ASSERT_MSG` call it when their condition is false,
  set the status to 0 and `return` from the enclosing function.
- `ACU_ASSERT_NO_FATAL_FAILURE(helper(...))` runs a helper and then returns
  from the caller when the status is 0. A failure deep inside nested helpers
  is propagated one frame at a time.
- `ACU_RUN_TEST(test)` sets the status to 1, runs the test, counts it as
  executed and prints `PASSED` or `FAILED` from the status.
- `ACU_SUMMARY()` prints the totals and makes `main` return `failed != 0`.

The model makes the globals an immutable `RunState` value and the macro's
`return` an explicit `Outcome` (`Continue` or `Abort`). A test or helper body
is a sequence of statements: `Assert(cond, site)`, a plain helper `Call`, a
`Guarded` helper call, or `Skip` for code that does not touch the harness.
The recursive interpreter `Exec` returns the new state, the outcome and the
printed lines as abstract events. Modules:

- `RunStates` (run_state.dfy): the globals and their `ACU_VARS()` values.
- `Events` (events.dfy): output events and counting over a log.
- `Assertions` (assertions.dfy): the assertion macros, the guard and the interpreter.
- `AssertionLemmas` (assertion_lemmas.dfy): abort, propagation and counting properties over arbitrary bodies.
- `Driver` (driver.dfy): `ACU_RUN_TEST`, `ACU_SUMMARY` and a client's `main`.
- `DriverLemmas` (driver_lemmas.dfy): properties that relate tests, runs and summaries.
- `Scenarios` (scenarios.dfy): worked runs, including the helper pattern of the example tests.
- `Wrappers` (wrappers.dfy): `Option`, for the nullable message.

Notes on the model:

- `status` is `acu_test_status`: true is 1 (the current test is still
  passing), false is 0. `acu_assertion` only prints and counts; the macro
  that calls it clears the status.
- The comment on `acu_tests_failed` (src/acunit.h:68) calls it the number of
  failed tests. The code counts failing assertions. `Scenarios.FailedCanExceedExecuted`
  shows a summary of "2 failed out of 1 test(s)". `DriverLemmas.GuardedOnlyMainCountsFailedTests`
  shows that the two numbers agree when every helper is called through the guard.

## Model

| member | source | states |
|---|---|---|
| `RunStates.Initial` | src/acunit.h:72-75 | `ACU_VARS()` starts the run with no test executed, no failure counted and the status at 0. |
| `Assertions.Check` | src/acunit.h:88-126 | A holding assertion leaves the state alone, prints nothing and lets the body continue. A failing one adds exactly 1 to `failed`, sets the status to 0, prints exactly one diagnostic carrying the site and optional message, and returns from the function. |
| `Assertions.GuardedCall` | src/acunit.h:156-160 | The guard returns from the caller exactly when the status is 0 after the helper. It keeps the helper's state and output and adds nothing of its own. |
| `Assertions.Exec` | src/acunit.h:88-126 | Invariant of any body: `executed` is untouched; `failed` grows by exactly the number of diagnostics printed; only diagnostics are printed; the status is 1 afterwards iff it was 1 before and nothing failed; an early return always leaves the status 0. |
| `Assertions.Run` | src/acunit.h:104-126 | The same invariant for one statement. A plain helper call never returns from the caller: the helper's `return` stops at the helper frame. Code that does not touch the harness changes nothing. |
| `Assertions.Then` | src/acunit.h:104-111 | After a statement that returned, nothing else in the body runs. Otherwise the statement's output is a prefix of the result, the rest's output coming after it, and the status stays 0 once it is 0. |
| `AssertionLemmas.ExecAppend` | src/acunit.h:104-111 | Running `a + b` is running `a`, then `b` only if `a` did not return early. |
| `AssertionLemmas.AbortDiscardsRest` | src/acunit.h:104-111 | Once a body returns early, no later statement changes the state or prints. |
| `AssertionLemmas.PassingAssertion` | src/acunit.h:104-126 | A holding assertion is invisible: the body behaves as if it were absent. |
| `AssertionLemmas.FailingAssertion` | src/acunit.h:88-126 | A failing assertion followed by anything gives exactly one diagnostic, `failed + 1`, status 0 and an early return. |
| `AssertionLemmas.GuardedCallAbortsIff` | src/acunit.h:156-160 | A guarded call returns iff the status is 0 after the helper. It has the helper's state and output. When it returns, nothing after it runs. |
| `AssertionLemmas.GuardedCallAfterEarlierFailure` | src/acunit.h:156-160 | The guard reads the status, not the helper's result. After an earlier failure in the same test, a guarded call returns even if its helper passes. |
| `AssertionLemmas.PlainCallContinues` | src/acunit.h:104-126 | A plain call does not stop the caller: the rest of the body runs and prints after the helper. The status stays 0 if the helper failed. |
| `AssertionLemmas.NestedGuardedFailure` | src/acunit.h:156-160 | A failure reached through any number of guarded calls, where every frame has its own statements after its guarded call, returns from every frame in turn: none of those statements runs, one diagnostic is printed and `failed` grows by exactly 1. |
| `AssertionLemmas.NestedGuardedHelperFailure` | src/acunit.h:156-160 | For any helper that leaves the status at 0 (for instance a holding assertion followed by a failing one), a nest of one or more guarded calls returns from every frame with exactly the helper's state and output. |
| `AssertionLemmas.GuardedOnlyFailsAtMostOnce` | src/acunit.h:88-126 | A body that calls helpers only through the guard prints at most one diagnostic and adds at most 1 to `failed`. |
| `AssertionLemmas.PlainCallsCountEveryFailure` | src/acunit.h:88-101 | k plain calls of failing helpers add exactly k to `failed` and the body still completes: `failed` counts assertions, not tests. |
| `Driver.RunTest` | src/acunit.h:132-138 | `executed` grows by exactly 1 whether the body completes or returns early. The last line is PASSED iff no assertion failed during the test, FAILED otherwise. |
| `Driver.RunTestOutput` | src/acunit.h:132-138 | A test prints one diagnostic per counted failure, then exactly one verdict. The verdict is FAILED iff a diagnostic was printed. |
| `Driver.Summary` | src/acunit.h:144-153 | The exit value is 1 iff `failed != 0`, else 0. The line is the FAILED summary with (failed, executed) in that case and the PASSED summary with executed otherwise. |
| `Driver.RunTests` | src/acunit.h:132-138 | A sequence of tests adds exactly one to `executed` per test; `failed` never decreases. |
| `Driver.RunTestsOutput` | src/acunit.h:132-138 | Over a sequence of tests: one verdict per test, and `failed` grows by the number of diagnostics. There are never more FAILED verdicts than failures, and some test is FAILED iff some diagnostic was printed. |
| `Driver.RunMain` | src/acunit.h:144-153 | A `main` of k tests ends with `executed == k` and with the summary of its final counters as last line and exit value. |
| `Driver.MainOutput` | src/acunit.h:144-153 | The exit value of `main` is non-zero iff some test was reported FAILED. The summary's failure number equals the number of diagnostics printed. |
| `Driver.RunSuite` | src/acunit.h:132-153 | The imperative `main` loop computes exactly `RunMain`: `executed` equals the number of tests, `failed` equals the diagnostics printed, and it exits non-zero iff some test FAILED. |
| `DriverLemmas.RunTestIgnoresPriorStatus` | src/acunit.h:132-138 | The status left by an earlier test has no influence on the next one, because `ACU_RUN_TEST` sets it to 1 first. |
| `DriverLemmas.UnguardedFailureFailsTest` | src/acunit.h:132-138 | A failure in an unguarded helper makes the test report FAILED, whatever the rest of the body does. |
| `DriverLemmas.GuardedOnlyTestFailsAtMostOnce` | src/acunit.h:104-138 | A test with guarded-only helper calls adds at most 1 to `failed`. |
| `DriverLemmas.GuardedOnlySuiteCountsFailedTests` | src/acunit.h:65-69 | With guarded-only tests, the number of FAILED verdicts equals the number of diagnostics. |
| `DriverLemmas.GuardedOnlyMainCountsFailedTests` | src/acunit.h:144-153 | With guarded-only tests, the summary's failure number is the number of failed tests. |
| `DriverLemmas.EmptySuitePasses` | src/acunit.h:72-75 | A `main` without tests starts and ends in the `ACU_VARS()` state. Its only line is the passing summary for 0 tests ("Summary: PASSED: 0 tests(s)") and it exits 0. |
| `DriverLemmas.SummaryReadsOnlyCounters` | src/acunit.h:144-153 | The summary depends only on the two counters. Reading it again without changes gives the same line and exit value. |
| `Scenarios.TwoPassingTests` | tests/simple_asserts_test.c:22-27 | Two tests, each with one holding `ACU_ASSERT`, print PASSED twice and the passing summary for 2 tests, and `main` exits 0. |
| `Scenarios.GuardedHelperPasses` | tests/advanced_asserts_test.c:5-38 | The example program as written: a holding `ACU_ASSERT_MSG` and a guarded helper with two holding assertions give two PASSED lines, the passing summary for 2 tests and exit 0. |
| `Scenarios.OneFailingAssertion` | src/acunit.h:104-111 | A failing `3 == 4` prints one diagnostic naming the condition and skips the rest of its test. After a passing test the summary is "1 failed out of 2", exit 1. |
| `Scenarios.GuardedHelperFails` | tests/advanced_asserts_test.c:16-27 | A guarded helper whose second assertion fails prints one diagnostic, and nothing after the guard runs. The summary is "1 failed out of 1". |
| `Scenarios.MessageIsReported` | src/acunit.h:94-100 | A failing `ACU_ASSERT_MSG` carries its message into the diagnostic. |
| `Scenarios.FailedCanExceedExecuted` | src/acunit.h:68-69 | One test with two failing unguarded helper calls yields a summary of 2 failed out of 1 test. |

## Left out

- Output formatting: the `printf` rendering of diagnostics, verdicts and the summary (`%s:%ld:`, newlines) is replaced by abstract events. Standard output itself is I/O.
- Preprocessor mechanics: `__FILE__`, `__LINE__` and `#condition` are opaque inputs carried in a `Site`. The `do { } while (0)` wrappers and `ACU_TEST(name)` add no behaviour.
- Conditions are plain booleans fixed in the statement. A condition whose evaluation reads the harness globals, or crashes, is not modelled.
- C `int` counters are unbounded `nat`s, so overflow of `acu_tests_failed` or `acu_tests_executed` is not modelled.
- `extern`/`extern inline` linkage and thread safety: the harness is single-threaded by design, so no concurrency is modelled.
- Code in `main` other than `ACU_RUN_TEST` lines followed by `ACU_SUMMARY()` is not modelled. Neither are assertions outside a test function.
- `ACU_CONTEXT()` and `AcuContext`, used by two example test files, are not part of this model: src/acunit.h does not define them.

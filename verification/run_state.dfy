/**
 The process-wide state of one test run: the three globals that `ACU_VARS()`
 defines in src/acunit.h, made an explicit immutable value.
 */
module RunStates {

  /** `status` models `acu_test_status`: true is the C value 1 (the current test
      is still passing), false is 0. `executed` and `failed` model
      `acu_tests_executed` and `acu_tests_failed`; C `int` overflow is not modelled. */
  datatype RunState = RunState(status: bool, executed: nat, failed: nat)

  /** The state `ACU_VARS()` starts a run in: all three globals are 0, so no
      test has run or failed yet, and the status reads as failed (0) until
      `ACU_RUN_TEST` sets it. */
  function Initial(): (s: RunState)
    ensures s.executed == 0 && s.failed == 0
    ensures !s.status
  {
    RunState(false, 0, 0)
  }
}

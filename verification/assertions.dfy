/**
 The assertion engine of src/acunit.h: `acu_assertion`, the `ACU_ASSERT` and
 `ACU_ASSERT_MSG` macros, and `ACU_ASSERT_NO_FATAL_FAILURE`.

 The macros end the enclosing C function with a bare `return`. Here that
 non-local exit is an explicit `Outcome`, and a function body is a sequence of
 statements interpreted by `Exec`.
 */
module Assertions {

  import opened RunStates
  import opened Events

  /** Whether the enclosing function body goes on (`Continue`) or has executed
      the macro's `return` (`Abort`). */
  datatype Outcome = Continue | Abort

  /** A statement of a test function or of a helper it calls. */
  datatype Stmt =
    | Assert(cond: bool, site: Site)   // ACU_ASSERT (message None) or ACU_ASSERT_MSG
    | Call(body: seq<Stmt>)            // a plain C call of a helper function
    | Guarded(body: seq<Stmt>)         // ACU_ASSERT_NO_FATAL_FAILURE(helper(...))
    | Skip                             // any code that does not touch the harness

  /** The state, outcome and output of running (part of) a function body. */
  datatype Step = Step(state: RunState, outcome: Outcome, events: seq<Event>)

  /** A failing assertion: `acu_assertion` prints one diagnostic and increments
      `acu_tests_failed`; the macro then clears `acu_test_status` and returns. A
      holding assertion does nothing at all. */
  function Check(s: RunState, cond: bool, site: Site): (r: Step)
    ensures cond ==> r == Step(s, Continue, [])
    ensures !cond ==> r.outcome == Abort && !r.state.status
    ensures !cond ==> r.state.failed == s.failed + 1 && r.state.executed == s.executed
    ensures !cond ==> r.events == [Diagnostic(site)]
  {
    if cond then Step(s, Continue, [])
    else
      var printed := Diagnostic(site);
      var counted := s.(failed := s.failed + 1);
      Step(counted.(status := false), Abort, [printed])
  }

  /** `ACU_ASSERT_NO_FATAL_FAILURE`, applied to what the helper did: it reads
      `acu_test_status` and returns from the caller when it is 0. It prints and
      counts nothing of its own. */
  function GuardedCall(helper: Step): (r: Step)
    ensures r.state == helper.state && r.events == helper.events
    ensures r.outcome == Abort <==> !helper.state.status
  {
    Step(helper.state, if helper.state.status then Continue else Abort, helper.events)
  }

  /** Runs `body` from state `s`. The outcome is `Abort` when the body ended
      through a macro's `return`. The contract is the run-state invariant: only
      failing assertions print or count, each exactly once, and `status` is 1
      afterwards exactly when it was 1 before and nothing failed. */
  function Exec(s: RunState, body: seq<Stmt>): (r: Step)
    decreases body, 2
    ensures r.state.executed == s.executed
    ensures r.state.failed == s.failed + |r.events|
    ensures OnlyDiagnostics(r.events)
    ensures r.state.status <==> s.status && r.events == []
    ensures r.outcome == Abort ==> !r.state.status
  {
    if body == [] then Step(s, Continue, [])
    else Then(Run(s, body[0]), body[1..])
  }

  /** Runs one statement. */
  function Run(s: RunState, st: Stmt): (r: Step)
    decreases st, 3
    ensures r.state.executed == s.executed
    ensures r.state.failed == s.failed + |r.events|
    ensures OnlyDiagnostics(r.events)
    ensures r.state.status <==> s.status && r.events == []
    ensures r.outcome == Abort ==> !r.state.status
    ensures st.Call? ==> r.outcome == Continue
    ensures st.Skip? ==> r == Step(s, Continue, [])
  {
    match st
    case Skip => Step(s, Continue, [])
    case Assert(cond, site) => Check(s, cond, site)
    case Call(h) =>
      // the helper's own `return` ends the helper, not the caller
      var hr := Exec(s, h);
      Step(hr.state, Continue, hr.events)
    case Guarded(h) => GuardedCall(Exec(s, h))
  }

  /** Continues with `rest` after a statement that produced `first`, unless
      that statement returned from the function. */
  function Then(first: Step, rest: seq<Stmt>): (r: Step)
    decreases rest, 3
    ensures first.outcome == Abort ==> r == first
    ensures first.events <= r.events
    ensures r.state.executed == first.state.executed
    ensures |r.events| >= |first.events|
    ensures r.state.failed == first.state.failed + (|r.events| - |first.events|)
    ensures OnlyDiagnostics(first.events) ==> OnlyDiagnostics(r.events)
    ensures first.outcome == Continue ==>
              (r.state.status <==> first.state.status && |r.events| == |first.events|)
    ensures first.outcome == Continue && r.outcome == Abort ==> !r.state.status
  {
    if first.outcome == Abort then first
    else
      var after := Exec(first.state, rest);
      Step(after.state, after.outcome, first.events + after.events)
  }
}

/**
 The abstract output of a run. Each `printf` of the harness becomes one event;
 the byte-level formatting is not modelled.
 */
module Events {

  import opened Wrappers

  /** What `acu_assertion` is told about a failing assertion: the `__FILE__`,
      `__LINE__` and `#condition` of the expansion site, and the optional message
      (`NULL` for `ACU_ASSERT`). */
  datatype Site = Site(file: string, line: int, condition: string, message: Option<string>)

  datatype Event =
    | Diagnostic(site: Site)                       // "<file>:<line>: Assertion failed: [<cond>] is false[: <msg>]"
    | Passed(name: string)                         // "PASSED: <test>"
    | Failed(name: string)                         // "FAILED: <test>"
    | SummaryFailed(failed: nat, executed: nat)    // "Summary: FAILED: <failed> failed out of <executed> test(s)"
    | SummaryPassed(executed: nat)                 // "Summary: PASSED: <executed> tests(s)"

  datatype Kind = DiagnosticKind | PassedKind | FailedKind | SummaryKind

  function KindOf(e: Event): Kind {
    match e
    case Diagnostic(_) => DiagnosticKind
    case Passed(_) => PassedKind
    case Failed(_) => FailedKind
    case _ => SummaryKind
  }

  /** Number of events of kind `k` in `log`. */
  function Count(log: seq<Event>, k: Kind): nat {
    if log == [] then 0
    else Count(log[..|log| - 1], k) + (if KindOf(log[|log| - 1]) == k then 1 else 0)
  }

  /** A log made of assertion diagnostics only. */
  predicate OnlyDiagnostics(log: seq<Event>) {
    forall i :: 0 <= i < |log| ==> log[i].Diagnostic?
  }

  lemma {:induction false} CountAppend(a: seq<Event>, b: seq<Event>, k: Kind)
    ensures Count(a + b, k) == Count(a, k) + Count(b, k)
    decreases |b|
  {
    if b == [] {
      assert a + b == a;
    } else {
      var init := b[..|b| - 1];
      assert (a + b)[..|a + b| - 1] == a + init;
      assert (a + b)[|a + b| - 1] == b[|b| - 1];
      CountAppend(a, init, k);
    }
  }

  lemma {:induction false} CountOnlyDiagnostics(log: seq<Event>)
    requires OnlyDiagnostics(log)
    ensures Count(log, DiagnosticKind) == |log|
    ensures Count(log, PassedKind) == 0 && Count(log, FailedKind) == 0
    decreases |log|
  {
    if log != [] {
      CountOnlyDiagnostics(log[..|log| - 1]);
    }
  }
}

/**
 Properties of the assertion engine over arbitrary function bodies: what a
 holding or failing assertion does to the rest of its body, how a guarded
 helper call propagates the failure, and what the `acu_tests_failed` counter
 therefore counts.
 */
module AssertionLemmas {

  import opened RunStates
  import opened Events
  import opened Assertions

  /** Running `a + b` is running `a`, then `b` unless `a` returned early. */
  lemma {:induction false} ExecAppend(s: RunState, a: seq<Stmt>, b: seq<Stmt>)
    ensures Exec(s, a + b) == Then(Exec(s, a), b)
    decreases |a|
  {
    if a == [] {
      assert a + b == b;
      assert [] + Exec(s, b).events == Exec(s, b).events;
    } else {
      assert (a + b)[0] == a[0];
      assert (a + b)[1..] == a[1..] + b;
      var head := Run(s, a[0]);
      assert Exec(s, a) == Then(head, a[1..]);
      assert Exec(s, a + b) == Then(head, a[1..] + b);
      if head.outcome == Continue {
        var mid := Exec(head.state, a[1..]);
        ExecAppend(head.state, a[1..], b);
        if mid.outcome == Continue {
          var last := Exec(mid.state, b);
          assert head.events + (mid.events + last.events) == (head.events + mid.events) + last.events;
        }
      }
    }
  }

  /** Once a body returns early, nothing written after that point has any
      effect: no state change, no output. */
  lemma AbortDiscardsRest(s: RunState, a: seq<Stmt>, rest: seq<Stmt>)
    requires Exec(s, a).outcome == Abort
    ensures Exec(s, a + rest) == Exec(s, a)
  {
    ExecAppend(s, a, rest);
  }

  /** A holding `ACU_ASSERT`/`ACU_ASSERT_MSG` is invisible: the body behaves as
      if it were not there. */
  lemma PassingAssertion(s: RunState, site: Site, rest: seq<Stmt>)
    ensures Exec(s, [Assert(true, site)] + rest) == Exec(s, rest)
  {
  }

  /** A failing assertion counts one failure, clears the status, prints one
      diagnostic carrying its site (and message, if any) and returns: whatever
      follows it in the body never runs. */
  lemma FailingAssertion(s: RunState, site: Site, rest: seq<Stmt>)
    ensures Exec(s, [Assert(false, site)] + rest)
         == Step(RunState(false, s.executed, s.failed + 1), Abort, [Diagnostic(site)])
  {
  }

  /** `ACU_ASSERT_NO_FATAL_FAILURE(h)` returns from its caller exactly when the
      status is 0 after `h`; it keeps `h`'s state and output and adds none. */
  lemma GuardedCallAbortsIff(s: RunState, h: seq<Stmt>, rest: seq<Stmt>)
    ensures Exec(s, [Guarded(h)]).outcome == Abort <==> !Exec(s, h).state.status
    ensures Exec(s, [Guarded(h)]).state == Exec(s, h).state
    ensures Exec(s, [Guarded(h)]).events == Exec(s, h).events
    ensures !Exec(s, h).state.status ==> Exec(s, [Guarded(h)] + rest) == Exec(s, [Guarded(h)])
  {
    var hr := Exec(s, h);
    assert [Guarded(h)][0] == Guarded(h) && [Guarded(h)][1..] == [];
    assert Exec(s, [Guarded(h)]) == Then(Run(s, Guarded(h)), []);
    if hr.state.status {
      assert hr.events + [] == hr.events;
    } else {
      AbortDiscardsRest(s, [Guarded(h)], rest);
    }
  }

  /** The guard reads the status, not the helper's own result: after an earlier
      failure in the same test (say in a plain helper call), a guarded call
      returns from its caller even when its helper passes. */
  lemma GuardedCallAfterEarlierFailure(s: RunState, h: seq<Stmt>, rest: seq<Stmt>)
    requires !s.status
    ensures Exec(s, [Guarded(h)] + rest).outcome == Abort
  {
  }

  /** A plain call does not propagate a failure: the caller carries on, so the
      helper's output is followed by the output of the rest of the body, yet
      the status stays 0 for the rest of the test. */
  lemma PlainCallContinues(s: RunState, h: seq<Stmt>, rest: seq<Stmt>)
    ensures Exec(s, [Call(h)] + rest).events
         == Exec(s, h).events + Exec(Exec(s, h).state, rest).events
    ensures Exec(s, h).events != [] ==> !Exec(s, [Call(h)] + rest).state.status
  {
  }

  /** A failing helper reached through `|posts|` guarded calls. Frame `i`
      (frame 0 being the test body) makes a guarded call to frame `i + 1` and
      then goes on with its own statements `posts[i]`; the innermost frame
      runs `inner`. */
  function Nest(posts: seq<seq<Stmt>>, inner: seq<Stmt>): (body: seq<Stmt>)
    decreases |posts|
    ensures posts == [] ==> body == inner
    ensures posts != [] ==> |body| == 1 + |posts[0]| && body[0].Guarded? && body[1..] == posts[0]
  {
    if posts == [] then inner else [Guarded(Nest(posts[1..], inner))] + posts[0]
  }

  /** A failure `|posts|` guarded levels deep unwinds every frame back through
      the test body: none of the statements any frame has after its guarded
      call runs, one failure is counted and one diagnostic printed. */
  lemma {:induction false} NestedGuardedFailure(posts: seq<seq<Stmt>>, s: RunState, site: Site, inner: seq<Stmt>)
    ensures Exec(s, Nest(posts, [Assert(false, site)] + inner))
         == Step(RunState(false, s.executed, s.failed + 1), Abort, [Diagnostic(site)])
    decreases |posts|
  {
    if posts == [] {
      FailingAssertion(s, site, inner);
    } else {
      var h := Nest(posts[1..], [Assert(false, site)] + inner);
      NestedGuardedFailure(posts[1..], s, site, inner);
      GuardedCallAbortsIff(s, h, posts[0]);
    }
  }

  /** The same for any helper that leaves the status at 0, such as one whose
      first assertions hold and a later one fails: behind at least one guarded
      call, the whole nest ends with exactly the helper's state and output. */
  lemma {:induction false} NestedGuardedHelperFailure(posts: seq<seq<Stmt>>, s: RunState, h: seq<Stmt>)
    requires posts != [] && !Exec(s, h).state.status
    ensures Exec(s, Nest(posts, h)) == Step(Exec(s, h).state, Abort, Exec(s, h).events)
    decreases |posts|
  {
    var inner := Nest(posts[1..], h);
    if posts[1..] != [] {
      NestedGuardedHelperFailure(posts[1..], s, h);
    }
    GuardedCallAbortsIff(s, inner, posts[0]);
  }

  /** A body (with every helper it reaches) that calls helpers only through
      `ACU_ASSERT_NO_FATAL_FAILURE`. */
  predicate GuardedOnly(body: seq<Stmt>)
    decreases body
  {
    forall i :: 0 <= i < |body| ==>
      match body[i]
      case Call(_) => false
      case Guarded(h) => GuardedOnly(h)
      case _ => true
  }

  /** In a guarded-only body the first failure ends the body, so it adds at
      most one to `acu_tests_failed`. */
  lemma {:induction false} GuardedOnlyFailsAtMostOnce(s: RunState, body: seq<Stmt>)
    requires GuardedOnly(body)
    ensures |Exec(s, body).events| <= 1
    ensures Exec(s, body).state.failed <= s.failed + 1
    decreases body
  {
    if body != [] {
      assert GuardedOnly(body[1..]) by {
        forall i | 0 <= i < |body[1..]|
          ensures match body[1..][i] case Call(_) => false case Guarded(h) => GuardedOnly(h) case _ => true
        {
          assert body[1..][i] == body[i + 1];
        }
      }
      var first := Run(s, body[0]);
      assert Exec(s, body) == Then(first, body[1..]);
      match body[0]
      case Guarded(h) =>
        assert GuardedOnly(h);
        GuardedOnlyFailsAtMostOnce(s, h);
        if first.outcome == Continue {
          GuardedOnlyFailsAtMostOnce(first.state, body[1..]);
        }
      case Skip =>
        GuardedOnlyFailsAtMostOnce(s, body[1..]);
      case Assert(cond, site) =>
        if cond {
          GuardedOnlyFailsAtMostOnce(s, body[1..]);
        }
    }
  }

  /** `k` plain calls of a helper whose assertion fails. */
  function PlainFailures(k: nat, site: Site): (body: seq<Stmt>)
    ensures |body| == k
  {
    if k == 0 then [] else [Call([Assert(false, site)])] + PlainFailures(k - 1, site)
  }

  /** `acu_tests_failed` counts evaluated failing assertions, not failed tests:
      unguarded helper calls let one body count any number of failures. */
  lemma {:induction false} PlainCallsCountEveryFailure(k: nat, s: RunState, site: Site)
    ensures Exec(s, PlainFailures(k, site)).state.failed == s.failed + k
    ensures Exec(s, PlainFailures(k, site)).outcome == Continue
    decreases k
  {
    if k > 0 {
      var body := PlainFailures(k, site);
      assert body[0] == Call([Assert(false, site)]);
      assert body[1..] == PlainFailures(k - 1, site);
      var hr := Exec(s, [Assert(false, site)]);
      FailingAssertion(s, site, []);
      assert [Assert(false, site)] + [] == [Assert(false, site)];
      PlainCallsCountEveryFailure(k - 1, hr.state, site);
    }
  }
}

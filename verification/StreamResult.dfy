/**
 What Stop and Wait report: the error that ended the stream, joined with what
 cleanup returned. A stream that is stopped while it reads or reconnects ends
 without an error of its own, whatever its connection does in the meantime.
 */
module StreamResult {
  import StreamState
  import StreamEnding
  import opened StreamLifecycle
  import opened Wrappers

  type Error = StreamState.Error
  type Thread = StreamLifecycle.Thread
  type State = StreamLifecycle.State
  type Step = StreamLifecycle.Step

  /** The errors that cleanup returned in a step. */
  function CleanupErrors(a: Step): set<Error> {
    match a
    case Of(_, CleanupReturns(Some(e))) => {e}
    case _ => {}
  }

  function AllCleanupErrors(steps: seq<Step>): set<Error> {
    if steps == [] then {} else CleanupErrors(steps[0]) + AllCleanupErrors(steps[1..])
  }

  /** `error` is the cause of the end, joined with at most one error of cleanup. */
  predicate Reports(error: Option<Error>, cause: Option<Error>, cleanups: set<Error>) {
    || error == cause
    || (error.Some? && cause.None? && error.value in cleanups)
    || (error.Some? && cause.Some? && error.value.Both? && error.value.first == cause.value
        && error.value.second in cleanups)
  }

  /** A goroutine that is finishing for `cause`, or reads or reconnects after the end of its context. */
  predicate Heading(t: Thread, cancelled: bool, cause: Option<Error>, cleanups: set<Error>) {
    || (cancelled && cause.None? && (InRead(t) || t.Reconnecting?))
    || ((t.Calling? || t.Cleaning?) && t.terminal == cause)
    || (t.Locking? && Reports(t.terminal, cause, cleanups))
  }

  ghost predicate Headed(s: State, cause: Option<Error>, cleanups: set<Error>) {
    if s.shared.finished then Reports(s.shared.finalErr, cause, cleanups)
    else exists id :: id in s.threads && Heading(s.threads[id], s.cancelled, cause, cleanups)
  }

  /** Only taking the finishing lock sets the final error. */
  lemma OtherKeepsResult(c: Config, s: State, id: ThreadId, a: Action)
    requires ActionEnabled(c, s, id, a) && !a.Lock?
    ensures AfterAction(c, s, id, a).shared.finished == s.shared.finished
    ensures AfterAction(c, s, id, a).shared.finalErr == s.shared.finalErr
  {
    if IsCall(a) {
      assert AfterCall(c, s, id, a).shared.finalErr == s.shared.finalErr;
    } else if IsFinish(a) {
      assert AfterFinish(c, s, id, a).shared == s.shared;
    } else {
      assert AfterRunning(c, s, id, a).shared.finalErr == s.shared.finalErr;
    }
  }

  /** Running a cancelled stream goes on reading or leads to a finish without an error. */
  lemma RunningStaysHeading(c: Config, s: State, id: ThreadId, a: Action, cause: Option<Error>, cleanups: set<Error>)
    requires ActionEnabled(c, s, id, a) && !IsCall(a) && !IsFinish(a)
    requires Heading(s.threads[id], s.cancelled, cause, cleanups)
    ensures var s' := AfterRunning(c, s, id, a);
            id in s'.threads && Heading(s'.threads[id], s.cancelled, cause, cleanups)
  {
  }

  lemma FinishStaysHeading(c: Config, s: State, id: ThreadId, a: Action, cause: Option<Error>, cleanups: set<Error>)
    requires ActionEnabled(c, s, id, a) && IsFinish(a) && !s.shared.finished
    requires s.once.Running? == InFinish(s.threads[id]) && (!s.once.Running? ==> s.once.Fresh?)
    requires Heading(s.threads[id], s.cancelled, cause, cleanups)
    ensures var s' := AfterFinish(c, s, id, a);
            var more := cleanups + CleanupErrors(Of(id, a));
            if a.Lock? then s'.shared.finished && Reports(s'.shared.finalErr, cause, more)
            else id in s'.threads && Heading(s'.threads[id], s.cancelled, cause, more)
  {
  }

  lemma HeadingGrows(t: Thread, cancelled: bool, cancelled': bool, cause: Option<Error>, cleanups: set<Error>,
                     more: set<Error>)
    requires Heading(t, cancelled, cause, cleanups) && (cancelled ==> cancelled')
    ensures Heading(t, cancelled', cause, cleanups + more)
  {
  }

  lemma OwnerStaysHeaded(c: Config, s: State, id: ThreadId, a: Action, cause: Option<Error>, cleanups: set<Error>)
    requires Inv(c, s) && ActionEnabled(c, s, id, a) && !s.shared.finished
    requires id in s.threads && Heading(s.threads[id], s.cancelled, cause, cleanups)
    ensures Headed(AfterAction(c, s, id, a), cause, cleanups + CleanupErrors(Of(id, a)))
  {
    var s', more := AfterAction(c, s, id, a), cleanups + CleanupErrors(Of(id, a));
    assert Fits(s.threads[id], s.started, s.once, s.shared.finished);
    CancelledStays(c, s, id, a);
    if IsFinish(a) {
      FinishStaysHeading(c, s, id, a, cause, cleanups);
      if !a.Lock? { HeadingGrows(s'.threads[id], s.cancelled, s'.cancelled, cause, more, {}); }
    } else {
      RunningStaysHeading(c, s, id, a, cause, cleanups);
      HeadingGrows(s'.threads[id], s.cancelled, s'.cancelled, cause, cleanups, CleanupErrors(Of(id, a)));
    }
    assert more + {} == more;
    if !a.Lock? { OtherKeepsResult(c, s, id, a); }
  }

  lemma CancelledStays(c: Config, s: State, id: ThreadId, a: Action)
    requires ActionEnabled(c, s, id, a)
    ensures s.cancelled ==> AfterAction(c, s, id, a).cancelled
  {
    if s.cancelled { StreamEnding.CancelledStays(c, s, Of(id, a)); }
  }

  lemma ActionStaysHeaded(c: Config, s: State, id: ThreadId, a: Action, cause: Option<Error>, cleanups: set<Error>)
    requires Inv(c, s) && Headed(s, cause, cleanups) && ActionEnabled(c, s, id, a)
    ensures Headed(AfterAction(c, s, id, a), cause, cleanups + CleanupErrors(Of(id, a)))
  {
    if s.shared.finished {
      OtherKeepsResult(c, s, id, a);
    } else {
      var owner :| owner in s.threads && Heading(s.threads[owner], s.cancelled, cause, cleanups);
      if owner == id {
        OwnerStaysHeaded(c, s, id, a, cause, cleanups);
      } else {
        OtherStaysHeaded(c, s, id, a, owner, cause, cleanups);
      }
    }
  }

  lemma OtherStaysHeaded(c: Config, s: State, id: ThreadId, a: Action, owner: ThreadId, cause: Option<Error>,
                         cleanups: set<Error>)
    requires Inv(c, s) && ActionEnabled(c, s, id, a) && !s.shared.finished && owner != id
    requires owner in s.threads && Heading(s.threads[owner], s.cancelled, cause, cleanups)
    ensures Headed(AfterAction(c, s, id, a), cause, cleanups + CleanupErrors(Of(id, a)))
  {
    CancelledStays(c, s, id, a);
    OthersUnmoved(c, s, id, a);
    HeadingGrows(s.threads[owner], s.cancelled, AfterAction(c, s, id, a).cancelled, cause, cleanups,
                 CleanupErrors(Of(id, a)));
    if a.Lock? {
      assert Owns(s.threads[id]) && Owns(s.threads[owner]);
    } else {
      OtherKeepsResult(c, s, id, a);
    }
  }

  lemma StepStaysHeaded(c: Config, s: State, a: Step, cause: Option<Error>, cleanups: set<Error>)
    requires Inv(c, s) && Headed(s, cause, cleanups) && Enabled(c, s, a)
    ensures Headed(After(c, s, a), cause, cleanups + CleanupErrors(a))
  {
    if a.Of? {
      ActionStaysHeaded(c, s, a.id, a.a, cause, cleanups);
    } else {
      assert After(c, s, a).threads == s.threads && cleanups + {} == cleanups;
    }
  }

  lemma {:induction false} RunStaysHeaded(c: Config, s: State, steps: seq<Step>, cause: Option<Error>,
                                          cleanups: set<Error>)
    requires Inv(c, s) && Headed(s, cause, cleanups) && IsRun(c, s, steps)
    ensures Inv(c, Run(c, s, steps)) && Headed(Run(c, s, steps), cause, cleanups + AllCleanupErrors(steps))
    decreases |steps|
  {
    if steps == [] {
      assert cleanups + {} == cleanups;
    } else {
      StepStaysHeaded(c, s, steps[0], cause, cleanups);
      StepKeepsInv(c, s, steps[0]);
      RunStaysHeaded(c, After(c, s, steps[0]), steps[1..], cause, cleanups + CleanupErrors(steps[0]));
      assert cleanups + CleanupErrors(steps[0]) + AllCleanupErrors(steps[1..]) == cleanups + AllCleanupErrors(steps);
    }
  }

  lemma {:induction false} LocalCleansUp(c: Config, s: State, steps: seq<Step>)
    requires c.client.Local? && IsRun(c, s, steps)
    ensures AllCleanupErrors(steps) == {}
    decreases |steps|
  {
    if steps != [] { LocalCleansUp(c, After(c, s, steps[0]), steps[1..]); }
  }

  /** What a completed run reports for a cause that was settled at its start. */
  lemma CompletedRunReports(c: Config, s: State, steps: seq<Step>, cause: Option<Error>)
    requires Inv(c, s) && Headed(s, cause, {}) && IsRun(c, s, steps) && Run(c, s, steps).shared.done
    ensures var e := Run(c, s, steps).shared;
            && Reports(e.finalErr, cause, AllCleanupErrors(steps))
            && (c.client.Local? ==> e.finalErr == cause)
            && StreamState.EndStatus(e.status, e.finalErr)
            && (forall r :: r in e.returned ==> r == e.finalErr)
  {
    RunStaysHeaded(c, s, steps, cause, {});
    assert {} + AllCleanupErrors(steps) == AllCleanupErrors(steps);
    if c.client.Local? { LocalCleansUp(c, s, steps); }
  }

  /**
   Stopping a stream that reads or reconnects: in every run to its completion the
   final error is none, or one that cleanup returned in that run. A local stream
   then has status Stopped, and Stop and Wait return no error.
   */
  lemma StoppedStreamEndsClean(c: Config, s: State, id: ThreadId, steps: seq<Step>)
    requires Inv(c, s) && s.cancelled && id in s.threads && (InRead(s.threads[id]) || s.threads[id].Reconnecting?)
    requires IsRun(c, s, steps) && Run(c, s, steps).shared.done
    ensures var e := Run(c, s, steps).shared;
            && (e.finalErr.Some? ==> e.finalErr.value in AllCleanupErrors(steps))
            && (c.client.Local? ==> e.finalErr.None? && e.status.lifecycle == StreamState.Stopped)
            && (forall r :: r in e.returned ==> r == e.finalErr)
  {
    assert Fits(s.threads[id], s.started, s.once, s.shared.finished);
    assert Heading(s.threads[id], s.cancelled, None, {});
    CompletedRunReports(c, s, steps, None);
  }

  /** A stream that ends for an error reports it: alone, or joined with one that cleanup returned. */
  lemma FailureIsReported(c: Config, s: State, id: ThreadId, cause: Error, steps: seq<Step>)
    requires Inv(c, s) && id in s.threads && s.threads[id].Calling? && s.threads[id].terminal == Some(cause)
    requires IsRun(c, s, steps) && Run(c, s, steps).shared.done
    ensures var e := Run(c, s, steps).shared;
            && (e.finalErr == Some(cause)
                || exists cleanup :: cleanup in AllCleanupErrors(steps)
                                     && e.finalErr == Some(StreamState.Both(cause, cleanup)))
            && e.status.lifecycle == StreamState.Failure && e.status.error == e.finalErr
            && (forall r :: r in e.returned ==> r == e.finalErr)
  {
    assert Fits(s.threads[id], s.started, s.once, s.shared.finished);
    assert Heading(s.threads[id], s.cancelled, Some(cause), {});
    CompletedRunReports(c, s, steps, Some(cause));
    var e := Run(c, s, steps).shared;
    if e.finalErr != Some(cause) {
      assert e.finalErr == Some(StreamState.Both(cause, e.finalErr.value.second));
    }
  }
}

/**
 One remote status stream as its own goroutine runs it, loops included, and
 the client's gate that admits one stream at a time. The environment answers
 every publication and decides when the context ends.
 */
module StatusStream {
  import opened RemoteStreams
  import opened Wrappers

  /** One round of connectWithRetry; `ended` covers the context and a terminal error. */
  datatype Attempt = Attempt(subscribed: bool, accepted: bool, ended: bool, endedInDelay: bool)

  predicate Connects(a: Attempt) { a.subscribed && a.accepted }

  predicate Retryable(a: Attempt) { !Connects(a) && !a.ended && !a.endedInDelay }

  /** One wake-up of readSubscription's select. */
  datatype Event = RenewalDue(accepted: bool) | Ignored | Fails(terminal: bool) | ContextEnds

  datatype ReadResult = Failed(terminal: bool) | Exhausted

  /** One round of run: what the subscription brings, then what reconnecting meets. */
  datatype Round = Round(events: seq<Event>, cancelled: bool, answer: nat -> Attempt)

  /** The first of at most `maxAttempts` attempts that connects, with every earlier one retryable. */
  ghost predicate Reconnects(maxAttempts: nat, answer: nat -> Attempt) {
    exists j: nat :: j < maxAttempts && Connects(answer(j)) && forall i: nat :: i < j ==> Retryable(answer(i))
  }

  predicate KeepsReading(e: Event) { e == RenewalDue(true) || e.Ignored? }

  /** The result of reading is decided by the first event that does not keep it going. */
  function ReadOutcome(events: seq<Event>): ReadResult {
    if events == [] then Exhausted
    else if KeepsReading(events[0]) then ReadOutcome(events[1..])
    else Failed(events[0].Fails? && events[0].terminal)
  }

  /** Renewals published up to the event that ends reading, which may be one that is not accepted. */
  function Renewals(events: seq<Event>): nat {
    if events == [] then 0
    else if KeepsReading(events[0]) then (if events[0].RenewalDue? then 1 else 0) + Renewals(events[1..])
    else if events[0].RenewalDue? then 1
    else 0
  }

  /** Event `k` is the first that ends reading: a refused renewal, a failure, or the end of the context. */
  ghost predicate EndsReadingAt(events: seq<Event>, k: nat) {
    && k < |events| && events[k] != RenewalDue(true) && events[k] != Ignored
    && forall i :: 0 <= i < k ==> events[i] == RenewalDue(true) || events[i] == Ignored
  }

  /** Which of the first events are due renewals. */
  function RenewalsDue(events: seq<Event>, n: nat): seq<bool>
    requires n <= |events|
  {
    seq(n, i requires 0 <= i < n => events[i].RenewalDue?)
  }

  /**
   Reading ends at the first such event, for good exactly if that is a terminal
   failure, and a renewal is published for each one due up to it.
   */
  lemma {:induction false} ReadEndsAtFirst(events: seq<Event>, k: nat)
    requires EndsReadingAt(events, k)
    ensures ReadOutcome(events) == Failed(events[k] == Fails(true))
    ensures Renewals(events) == multiset(RenewalsDue(events, k + 1))[true]
    decreases k
  {
    var due := RenewalsDue(events, k + 1);
    if k == 0 {
      assert due == [events[0].RenewalDue?];
    } else {
      ReadEndsAtFirst(events[1..], k - 1);
      assert due == [events[0].RenewalDue?] + RenewalsDue(events[1..], k);
    }
  }

  lemma {:induction false} ReadExhausts(events: seq<Event>)
    requires forall i :: 0 <= i < |events| ==> events[i] == RenewalDue(true) || events[i] == Ignored
    ensures ReadOutcome(events) == Exhausted
    decreases |events|
  {
    if events != [] { ReadExhausts(events[1..]); }
  }

  /** A round after which the stream reads on from a new subscription. */
  ghost predicate GoesOn(maxAttempts: nat, r: Round) {
    !r.cancelled && ReadOutcome(r.events) == Failed(false) && Reconnects(maxAttempts, r.answer)
  }

  /** A round that ends the stream. */
  ghost predicate Ends(maxAttempts: nat, r: Round) {
    || r.cancelled
    || ReadOutcome(r.events) == Failed(true)
    || (ReadOutcome(r.events) == Failed(false) && !Reconnects(maxAttempts, r.answer))
  }

  ghost predicate All(trace: seq<Kind>, kind: Kind) {
    forall k :: 0 <= k < |trace| ==> trace[k] == kind
  }

  /** `after` continues `before` with publications of one kind. */
  ghost predicate Extends(before: seq<Kind>, after: seq<Kind>, kind: Kind) {
    before <= after && All(after[|before|..], kind)
  }

  /** A trace that has started and not stopped, or has nothing to stop. */
  ghost predicate Running(trace: seq<Kind>) {
    WellFormedTrace(trace) && Stop !in trace
  }

  lemma ExtendsRunning(before: seq<Kind>, after: seq<Kind>, kind: Kind)
    requires Running(before) && Extends(before, after, kind) && !kind.Stop?
    requires kind.Start? || before != []
    ensures Running(after)
  {
    forall k | 0 <= k < |after| ensures !after[k].Stop? {
      if k < |before| {
        assert before[k] in before && after[k] == before[k];
      } else {
        assert after[|before|..][k - |before|] == kind;
      }
    }
    if before == [] && after != [] {
      assert after[|before|..][0] == kind;
    }
  }

  lemma ExtendOne(before: seq<Kind>, after: seq<Kind>, kind: Kind)
    requires Extends(before, after, kind)
    ensures Extends(before, after + [kind], kind)
  {
    assert (after + [kind])[|before|..] == after[|before|..] + [kind];
  }

  // The stream as a run of the client's step system, with this stream as its only one.

  ghost predicate Mirrors(steps: seq<Step>, phase: Phase, activated: bool, trace: seq<Kind>) {
    && IsRun(Init(), steps)
    && Run(Init(), steps) == Client(false, if Released(phase) then None else Some(0),
                                    [RemoteStreams.Stream(phase, activated)], Labelled(trace, 0))
  }

  lemma {:induction false} RunExtends(c: Client, steps: seq<Step>, a: Step)
    requires IsRun(c, steps) && Enabled(Run(c, steps), a)
    ensures IsRun(c, steps + [a]) && Run(c, steps + [a]) == After(Run(c, steps), a)
    decreases |steps|
  {
    if steps == [] {
      assert steps + [a] == [a];
      assert IsRun(After(c, a), [a][1..]);
    } else {
      RunExtends(After(c, steps[0]), steps[1..], a);
      assert (steps + [a])[1..] == steps[1..] + [a];
    }
  }

  function KindOf(a: StreamStep, activated: bool): seq<Kind> {
    match a
    case PublishStart(_) => [Kind.Start]
    case PublishRenewal(_) => [Renew]
    case PublishStop => if activated then [Stop] else []
    case _ => []
  }

  lemma MirrorStep(steps: seq<Step>, phase: Phase, activated: bool, trace: seq<Kind>, a: StreamStep)
    requires Mirrors(steps, phase, activated, trace) && StreamEnabled(phase, a)
    ensures var s := AfterStream(RemoteStreams.Stream(phase, activated), a);
            Mirrors(steps + [Of(0, a)], s.phase, s.activated, trace + KindOf(a, activated))
  {
    RunExtends(Init(), steps, Of(0, a));
    var s := RemoteStreams.Stream(phase, activated);
    assert Labelled(trace, 0) + Issued(0, s, a) == Labelled(trace + KindOf(a, activated), 0);
    assert [s][0 := AfterStream(s, a)] == [AfterStream(s, a)];
  }

  lemma {:induction false} OwnTrace(trace: seq<Kind>)
    ensures TraceOf(Labelled(trace, 0), 0) == trace
    decreases |trace|
  {
    if trace != [] {
      var n := |trace| - 1;
      OwnTrace(trace[..n]);
      assert Labelled(trace, 0)[..n] == Labelled(trace[..n], 0);
    }
  }

  lemma CreatedMirrors()
    ensures Mirrors([NewStream], Phase.Idle, false, [])
  {
    assert IsRun(Init(), []) && Run(Init(), []) == Init();
    RunExtends(Init(), [], NewStream);
    assert [] + [NewStream] == [NewStream];
    assert Labelled([], 0) == [];
    assert [] + [RemoteStreams.Stream(Phase.Idle, false)] == [RemoteStreams.Stream(Phase.Idle, false)];
  }

  /** From the entry of finish to its completion: the stop, its return, the release and the seal. */
  lemma FinishSteps(steps: seq<Step>, activated: bool, trace: seq<Kind>) returns (more: seq<Step>)
    requires Mirrors(steps, Phase.Finishing, activated, trace)
    ensures Mirrors(more, Phase.Finished, activated, trace + if activated then [Stop] else [])
  {
    MirrorStep(steps, Phase.Finishing, activated, trace, PublishStop);
    more := steps + [Of(0, PublishStop)];
    var trace' := trace + if activated then [Stop] else [];
    assert trace' + [] == trace';
    if activated {
      MirrorStep(more, Phase.Stopping, activated, trace', StopReturns);
      more := more + [Of(0, StopReturns)];
    }
    MirrorStep(more, Phase.Releasing, activated, trace', Release);
    more := more + [Of(0, Release)];
    MirrorStep(more, Phase.Sealing, activated, trace', Seal);
    more := more + [Of(0, Seal)];
  }

  class Stream {
    const maxAttempts: nat
    var started: bool
    var activated: bool
    var finished: bool
    var trace: seq<Kind>
    ghost var steps: seq<Step>
    ghost var phase: Phase

    /** A finished stream has stopped exactly if it was activated; an unfinished one has not stopped. */
    ghost predicate Valid() reads this {
      && WellFormedTrace(trace)
      && (Stop in trace <==> finished && activated)
      && (activated ==> trace != [])
      && (!started ==> trace == [] && !activated && !finished)
      && Mirrors(steps, phase, activated, trace)
      && (started <==> !phase.Idle?) && (finished <==> phase.Finished?)
    }

    /** Takes one step of the step system; a publication has yet to be added to the trace. */
    ghost method Mirror(a: StreamStep)
      requires Mirrors(steps, phase, activated, trace) && StreamEnabled(phase, a) && KindOf(a, activated) == []
      requires !a.Activate?
      modifies this`steps, this`phase
      ensures phase == AfterStream(RemoteStreams.Stream(old(phase), activated), a).phase
      ensures Mirrors(steps, phase, activated, trace)
    {
      MirrorStep(steps, phase, activated, trace, a);
      assert trace + [] == trace;
      steps, phase := steps + [Of(0, a)], AfterStream(RemoteStreams.Stream(phase, activated), a).phase;
    }

    constructor (maxAttempts: nat)
      ensures Valid() && !started && this.maxAttempts == maxAttempts
    {
      this.maxAttempts := maxAttempts;
      started, activated, finished, trace := false, false, false, [];
      steps, phase := [NewStream], Phase.Idle;
      CreatedMirrors();
    }

    /** Succeeds exactly at the first attempt that connects, if every earlier one may be retried. */
    method ConnectWithRetry(answer: nat -> Attempt) returns (ok: bool)
      requires Mirrors(steps, phase, activated, trace) && (phase.Connecting? || phase.Reconnecting?)
      modifies this`trace, this`steps, this`phase
      ensures Mirrors(steps, phase, activated, trace)
      ensures phase == if !ok then old(phase) else if old(phase).Connecting? then Phase.Accepted else Phase.Reading
      ensures Extends(old(trace), trace, Kind.Start) && |trace| <= |old(trace)| + maxAttempts
      ensures ok ==> |trace| > |old(trace)|
      ensures ok <==> Reconnects(maxAttempts, answer)
    {
      var attempt := 0;
      while attempt < maxAttempts
        invariant 0 <= attempt <= maxAttempts
        invariant Extends(old(trace), trace, Kind.Start) && |trace| <= |old(trace)| + attempt
        invariant forall i: nat :: i < attempt ==> Retryable(answer(i))
        invariant Mirrors(steps, phase, activated, trace) && phase == old(phase)
      {
        var a := answer(attempt);
        if a.subscribed {
          ExtendOne(old(trace), trace, Kind.Start);
          MirrorStep(steps, phase, activated, trace, PublishStart(a.accepted));
          trace := trace + [Kind.Start];
          steps := steps + [Of(0, PublishStart(a.accepted))];
          phase := AfterStream(RemoteStreams.Stream(phase, activated), PublishStart(a.accepted)).phase;
          if a.accepted {
            return true;
          }
        }
        attempt := attempt + 1;
        if a.ended || a.endedInDelay {
          assert !Retryable(answer(attempt - 1));
          return false;
        }
      }
      ok := false;
    }

    /** Renews the lease until an event ends the subscription. */
    method ReadSubscription(events: seq<Event>) returns (result: ReadResult)
      requires Mirrors(steps, phase, activated, trace) && phase.Reading?
      modifies this`trace, this`steps, this`phase
      ensures Mirrors(steps, phase, activated, trace) && (phase.Reading? || (phase.Reconnecting? && !result.Exhausted?))
      ensures result.Failed? && result.terminal ==> phase.Reading?
      ensures Extends(old(trace), trace, Renew)
      ensures result == ReadOutcome(events)
      ensures |trace| == |old(trace)| + Renewals(events)
    {
      var i := 0;
      while i < |events|
        invariant 0 <= i <= |events|
        invariant Extends(old(trace), trace, Renew)
        invariant ReadOutcome(events[i..]) == ReadOutcome(events)
        invariant |trace| + Renewals(events[i..]) == |old(trace)| + Renewals(events)
        invariant Mirrors(steps, phase, activated, trace) && phase.Reading?
      {
        assert events[i..][1..] == events[i + 1..];
        match events[i] {
          case RenewalDue(accepted) =>
            ExtendOne(old(trace), trace, Renew);
            MirrorStep(steps, phase, activated, trace, PublishRenewal(accepted));
            trace := trace + [Renew];
            steps := steps + [Of(0, PublishRenewal(accepted))];
            phase := AfterStream(RemoteStreams.Stream(phase, activated), PublishRenewal(accepted)).phase;
            if !accepted {
              return Failed(false);
            }
          case Ignored =>
          case Fails(terminal) => return Failed(terminal);
          case ContextEnds => return Failed(false);
        }
        i := i + 1;
      }
      result := Exhausted;
    }

    /** The once-only finish: the stop is published exactly if the stream was activated. */
    method Finish()
      requires WellFormedTrace(trace) && Stop !in trace && (activated ==> trace != [])
      requires started && !finished && Mirrors(steps, phase, activated, trace) && phase.Finishing?
      modifies this`finished, this`trace, this`steps, this`phase
      ensures Valid() && finished
      ensures trace == old(trace) + if activated then [Stop] else []
    {
      ghost var more := FinishSteps(steps, activated, trace);
      steps, phase := more, Phase.Finished;
      if activated {
        trace := trace + [Stop];
      }
      assert activated || trace + [] == trace;
      finished := true;
    }

    /** Finishing from the loops. */
    method End()
      requires Valid() && !finished && (phase.Connecting? || phase.Reading? || phase.Reconnecting?)
      modifies this`finished, this`trace, this`steps, this`phase
      ensures Valid() && finished
      ensures trace == old(trace) + if activated then [Stop] else []
    {
      Mirror(if phase.Reading? then ReadEnds else GiveUp);
      Finish();
    }

    /** Reading ended without an end of the stream: connect again. */
    method Reconnect(answer: nat -> Attempt) returns (ok: bool)
      requires Valid() && activated && !finished && (phase.Reading? || phase.Reconnecting?)
      modifies this`trace, this`steps, this`phase
      ensures Valid() && old(trace) <= trace && ok == Reconnects(maxAttempts, answer)
      ensures if ok then phase.Reading? else phase.Reconnecting?
    {
      if phase.Reading? {
        Mirror(ReadFails);
      }
      ghost var before := trace;
      ok := ConnectWithRetry(answer);
      ExtendsRunning(before, trace, Kind.Start);
    }

    /** Reading until the round's events end it. */
    method Read(events: seq<Event>) returns (result: ReadResult)
      requires Valid() && activated && !finished && phase.Reading?
      modifies this`trace, this`steps, this`phase
      ensures Valid() && old(trace) <= trace && result == ReadOutcome(events)
      ensures phase.Reading? || (phase.Reconnecting? && !result.Exhausted?)
      ensures result.Failed? && result.terminal ==> phase.Reading?
    {
      ghost var before := trace;
      result := ReadSubscription(events);
      ExtendsRunning(before, trace, Renew);
    }

    /** The goroutine of an activated stream, over as many rounds as the environment gives it. */
    method Run(rounds: seq<Round>)
      requires Valid() && started && activated && !finished && phase.Reading?
      modifies this`finished, this`trace, this`steps, this`phase
      ensures Valid() && old(trace) <= trace
      ensures finished <==> exists k :: 0 <= k < |rounds| && Ends(maxAttempts, rounds[k])
                                        && forall i :: 0 <= i < k ==> GoesOn(maxAttempts, rounds[i])
    {
      var i := 0;
      while i < |rounds|
        invariant 0 <= i <= |rounds|
        invariant Valid() && !finished && phase.Reading? && old(trace) <= trace
        invariant forall j :: 0 <= j < i ==> GoesOn(maxAttempts, rounds[j])
      {
        var result := Read(rounds[i].events);
        if result.Exhausted? && !rounds[i].cancelled {
          assert !Ends(maxAttempts, rounds[i]) && !GoesOn(maxAttempts, rounds[i]);
          return;
        }
        if rounds[i].cancelled || result.terminal {
          End();
          return;
        }
        var ok := Reconnect(rounds[i].answer);
        if !ok {
          End();
          return;
        }
        i := i + 1;
      }
    }

    /** Start and, if it connects, everything the stream does afterwards. */
    method Start(answer: nat -> Attempt, rounds: seq<Round>) returns (ok: bool)
      requires Valid()
      modifies this
      ensures Valid() && started
      ensures old(started) ==> !ok && trace == old(trace) && finished == old(finished)
      ensures !old(started) ==> ok == activated == Reconnects(maxAttempts, answer)
      ensures !old(started) && !ok ==> finished && Stop !in trace
    {
      if started {
        return false;
      }
      started := true;
      Mirror(BeginStart);
      ok := ConnectWithRetry(answer);
      ExtendsRunning([], trace, Kind.Start);
      if !ok {
        End();
        return;
      }
      MirrorStep(steps, phase, activated, trace, Activate);
      assert trace + [] == trace;
      steps, phase := steps + [Of(0, Activate)], Phase.Reading;
      activated := true;
      Run(rounds);
    }

    /** Stop claims an idle stream; a started one only has its context cancelled. */
    method StopBeforeStart() returns (claimed: bool)
      requires Valid()
      modifies this
      ensures Valid() && started && claimed == !old(started)
      ensures trace == old(trace) && activated == old(activated)
      ensures finished == (claimed || old(finished))
    {
      claimed := !started;
      started := true;
      if claimed {
        Mirror(RemoteStreams.StopBeforeStart);
        Finish();
      }
    }
  }


  /** At any time a stream's publications are its trace in a run of its client, which is at the same place. */
  lemma TraceIsClientTrace(s: Stream)
    requires s.Valid()
    ensures exists steps ::
              && IsRun(Init(), steps) && |Run(Init(), steps).streams| == 1
              && TraceOf(Run(Init(), steps).log, 0) == s.trace
              && Run(Init(), steps).streams[0].activated == s.activated
              && (Run(Init(), steps).streams[0].phase.Finished? <==> s.finished)
  {
    OwnTrace(s.trace);
    assert IsRun(Init(), s.steps);
  }

  class Gate {
    var closed: bool
    var active: Option<Id>
    var created: nat

    constructor ()
      ensures !closed && active.None? && created == 0
    {
      closed, active, created := false, None, 0;
    }

    method NewStatusStream() returns (r: Option<Id>)
      modifies this`active, this`created
      ensures r.Some? <==> MayOpen(closed, old(active))
      ensures r.Some? ==> active == r && r.value == old(created) && created == old(created) + 1
      ensures r.None? ==> active == old(active) && created == old(created)
    {
      if closed || active.Some? {
        return None;
      }
      active, created := Some(created), created + 1;
      r := active;
    }

    method Release(id: Id)
      modifies this`active
      ensures active == WithoutActive(old(active), id)
    {
      if active == Some(id) {
        active := None;
      }
    }

    method BeginClose() returns (stopping: Option<Id>)
      modifies this`closed
      ensures closed && stopping == active
    {
      closed := true;
      stopping := active;
    }
  }
}

/**
 The status streams of one remote client, and what they publish on the shared
 stream-request topic: starts and lease renewals, and one stop when finishing.
 */
module RemoteStreams {
  import opened Wrappers

  /** Streams are numbered in the order NewStatusStream created them. */
  type Id = nat

  datatype Kind = Start | Renew | Stop

  datatype Publication = Publication(id: Id, kind: Kind)

  /** Which goroutine owns the stream and where it is. */
  datatype Phase =
    | Idle
    | Connecting        // Start, in connectWithRetry
    | Accepted          // Start, start published but not yet marked activated
    | Reading           // run, in readSubscription
    | Reconnecting      // run, in connectWithRetry
    | Finishing         // in the once-only finish, before publishStop
    | Stopping          // the stop publication has been issued and has not returned
    | Releasing         // the stop attempt has returned; the release callback is next
    | Sealing           // released; completion not yet observable
    | Finished

  datatype Stream = Stream(phase: Phase, activated: bool)

  datatype Client = Client(closed: bool, active: Option<Id>, streams: seq<Stream>, log: seq<Publication>)

  datatype StreamStep =
    | BeginStart
    | StopBeforeStart
    | PublishStart(ok: bool)
    | GiveUp                      // last attempt failed, or the context ended
    | Activate
    | PublishRenewal(ok: bool)
    | ReadFails                   // the subscription failed; reconnect
    | ReadEnds                    // terminal read result, or the context ended
    | PublishStop
    | StopReturns                 // with or without an error
    | Release
    | Seal

  datatype Step = NewStream | Close | Of(id: Id, a: StreamStep)

  predicate StreamEnabled(p: Phase, a: StreamStep) {
    match a
    case BeginStart => p.Idle?
    case StopBeforeStart => p.Idle?
    case PublishStart(_) => p.Connecting? || p.Reconnecting?
    case GiveUp => p.Connecting? || p.Reconnecting?
    case Activate => p.Accepted?
    case PublishRenewal(_) => p.Reading?
    case ReadFails => p.Reading?
    case ReadEnds => p.Reading?
    case PublishStop => p.Finishing?
    case StopReturns => p.Stopping?
    case Release => p.Releasing?
    case Seal => p.Sealing?
  }

  function AfterStream(s: Stream, a: StreamStep): Stream
    requires StreamEnabled(s.phase, a)
  {
    match a
    case BeginStart => s.(phase := Connecting)
    case StopBeforeStart => s.(phase := Finishing)
    case PublishStart(ok) =>
      if !ok then s else if s.phase.Connecting? then s.(phase := Accepted) else s.(phase := Reading)
    case GiveUp => s.(phase := Finishing)
    case Activate => Stream(Reading, true)
    case PublishRenewal(ok) => if ok then s else s.(phase := Reconnecting)
    case ReadFails => s.(phase := Reconnecting)
    case ReadEnds => s.(phase := Finishing)
    case PublishStop => s.(phase := if s.activated then Stopping else Releasing)
    case StopReturns => s.(phase := Releasing)
    case Release => s.(phase := Sealing)
    case Seal => s.(phase := Finished)
  }

  /** The publication a step issues, whether or not the broker accepts it. */
  function Issued(id: Id, s: Stream, a: StreamStep): seq<Publication> {
    match a
    case PublishStart(_) => [Publication(id, Start)]
    case PublishRenewal(_) => [Publication(id, Renew)]
    case PublishStop => if s.activated then [Publication(id, Stop)] else []
    case _ => []
  }

  /** NewStatusStream's check under the mutex. */
  predicate MayOpen(closed: bool, active: Option<Id>) { !closed && active.None? }

  /** The release callback clears the active stream only if it is still this one. */
  function WithoutActive(active: Option<Id>, id: Id): Option<Id> {
    if active == Some(id) then None else active
  }

  predicate Enabled(c: Client, step: Step) {
    match step
    case NewStream => MayOpen(c.closed, c.active)
    case Close => true
    case Of(id, a) => id < |c.streams| && StreamEnabled(c.streams[id].phase, a)
  }

  function After(c: Client, step: Step): Client
    requires Enabled(c, step)
  {
    match step
    case NewStream => c.(active := Some(|c.streams|), streams := c.streams + [Stream(Idle, false)])
    case Close => c.(closed := true)
    case Of(id, a) =>
      c.(streams := c.streams[id := AfterStream(c.streams[id], a)],
         log := c.log + Issued(id, c.streams[id], a),
         active := if a.Release? then WithoutActive(c.active, id) else c.active)
  }

  function Init(): Client { Client(false, None, [], []) }

  ghost predicate IsRun(c: Client, steps: seq<Step>)
    decreases |steps|
  {
    steps == [] || (Enabled(c, steps[0]) && IsRun(After(c, steps[0]), steps[1..]))
  }

  function Run(c: Client, steps: seq<Step>): Client
    requires IsRun(c, steps)
    decreases |steps|
  {
    if steps == [] then c else Run(After(c, steps[0]), steps[1..])
  }

  // The invariant.

  predicate Released(p: Phase) { p.Sealing? || p.Finished? }

  predicate PastStop(p: Phase) { p.Stopping? || p.Releasing? || Released(p) }

  /** Only the newest stream can be unreleased, and it is the active one. */
  ghost predicate ActiveInv(c: Client) {
    && (c.active.Some? ==> c.streams != [] && c.active.value == |c.streams| - 1)
    && (forall i :: 0 <= i < |c.streams| && !Released(c.streams[i].phase) ==> c.active == Some(i))
  }

  predicate PhaseFits(s: Stream) {
    && (s.phase.Reading? || s.phase.Reconnecting? ==> s.activated)
    && (s.phase.Idle? || s.phase.Connecting? || s.phase.Accepted? ==> !s.activated)
    && (s.phase.Stopping? ==> s.activated)
  }

  ghost predicate PhaseInv(c: Client) {
    forall i :: 0 <= i < |c.streams| ==> PhaseFits(c.streams[i])
  }

  /** The log is ordered by stream, and nothing follows a stream's stop. */
  ghost predicate OrderInv(n: nat, log: seq<Publication>) {
    && (forall k :: 0 <= k < |log| ==> log[k].id < n)
    && (forall k, l :: 0 <= k < l < |log| ==> log[k].id <= log[l].id)
    && (forall k, l :: 0 <= k < l < |log| && log[k].kind.Stop? ==> log[k].id < log[l].id)
  }

  /** Exactly the activated streams that are past it have published a stop. */
  ghost predicate StopInv(streams: seq<Stream>, log: seq<Publication>) {
    forall i :: 0 <= i < |streams| ==>
      (Publication(i, Stop) in log <==> PastStop(streams[i].phase) && streams[i].activated)
  }

  ghost predicate StartInv(streams: seq<Stream>, log: seq<Publication>) {
    forall i :: 0 <= i < |streams| && (streams[i].activated || streams[i].phase.Accepted?) ==>
      Publication(i, Start) in log
  }

  /** Every renewal and stop follows a start of the same stream. */
  ghost predicate FirstInv(log: seq<Publication>) {
    forall k :: 0 <= k < |log| && !log[k].kind.Start? ==> Publication(log[k].id, Start) in log[..k]
  }

  /** A publication comes only after every earlier activated stream's stop. */
  ghost predicate SuccessorInv(streams: seq<Stream>, log: seq<Publication>) {
    forall k, i :: 0 <= k < |log| && 0 <= i < log[k].id && i < |streams| && streams[i].activated ==>
      Publication(i, Stop) in log[..k]
  }

  ghost predicate Inv(c: Client) {
    && ActiveInv(c) && PhaseInv(c)
    && OrderInv(|c.streams|, c.log) && StopInv(c.streams, c.log)
    && StartInv(c.streams, c.log) && FirstInv(c.log) && SuccessorInv(c.streams, c.log)
  }

  /** A step that publishes belongs to the newest stream, before its stop. */
  lemma PublisherIsNewest(c: Client, id: Id, a: StreamStep)
    requires Inv(c) && Enabled(c, Of(id, a)) && Issued(id, c.streams[id], a) != []
    ensures id == |c.streams| - 1 && !PastStop(c.streams[id].phase)
    ensures Publication(id, Stop) !in c.log
    ensures a.PublishStart? || Publication(id, Start) in c.log
    ensures forall i :: 0 <= i < id && c.streams[i].activated ==> Publication(i, Stop) in c.log
  {
    assert !Released(c.streams[id].phase);
  }

  lemma Published(n: nat, streams: seq<Stream>, log: seq<Publication>, p: Publication)
    requires OrderInv(n, log) && FirstInv(log) && SuccessorInv(streams, log)
    requires p.id == n - 1 && n == |streams| && Publication(p.id, Stop) !in log
    requires p.kind.Start? || Publication(p.id, Start) in log
    requires forall i :: 0 <= i < p.id && streams[i].activated ==> Publication(i, Stop) in log
    ensures OrderInv(n, log + [p]) && FirstInv(log + [p]) && SuccessorInv(streams, log + [p])
  {
    var log' := log + [p];
    assert log'[..|log|] == log;
    forall k, l | 0 <= k < l < |log'|
      ensures log'[k].id <= log'[l].id && (log'[k].kind.Stop? ==> log'[k].id < log'[l].id)
    {
      if l == |log| {
        assert log[k] in log;
        assert log[k].kind.Stop? ==> log[k] == Publication(log[k].id, Stop);
      }
    }
    forall k | 0 <= k < |log| ensures log'[..k] == log[..k] {}
  }

  /** A stream past its stop never becomes activated, so earlier logs stay in order. */
  lemma StreamChange(streams: seq<Stream>, log: seq<Publication>, id: Id, s: Stream)
    requires SuccessorInv(streams, log) && id == |streams| - 1 && OrderInv(|streams|, log)
    ensures SuccessorInv(streams[id := s], log)
  {
  }

  lemma StreamStepKeepsLog(c: Client, id: Id, a: StreamStep)
    requires Inv(c) && Enabled(c, Of(id, a))
    ensures var c' := After(c, Of(id, a));
            OrderInv(|c'.streams|, c'.log) && FirstInv(c'.log) && SuccessorInv(c'.streams, c'.log)
  {
    var s := c.streams[id];
    if Issued(id, s, a) != [] {
      PublisherIsNewest(c, id, a);
      Published(|c.streams|, c.streams, c.log, Issued(id, s, a)[0]);
      StreamChange(c.streams, c.log + Issued(id, s, a), id, AfterStream(s, a));
    } else {
      assert c.log + [] == c.log;
      if AfterStream(s, a).activated && !s.activated {
        assert c.active == Some(id);
        StreamChange(c.streams, c.log, id, AfterStream(s, a));
      }
    }
  }

  lemma StepKeepsPhaseFit(s: Stream, a: StreamStep)
    requires PhaseFits(s) && StreamEnabled(s.phase, a)
    ensures PhaseFits(AfterStream(s, a)) && (Released(s.phase) ==> Released(AfterStream(s, a).phase))
    ensures a.Release? <==> Released(AfterStream(s, a).phase) && !Released(s.phase)
  {
  }

  lemma StreamStepKeepsPhases(c: Client, id: Id, a: StreamStep)
    requires ActiveInv(c) && PhaseInv(c) && Enabled(c, Of(id, a))
    ensures ActiveInv(After(c, Of(id, a))) && PhaseInv(After(c, Of(id, a)))
  {
    assert PhaseFits(c.streams[id]);
    StepKeepsPhaseFit(c.streams[id], a);
  }

  lemma StreamStepKeepsStops(c: Client, id: Id, a: StreamStep)
    requires Inv(c) && Enabled(c, Of(id, a))
    ensures StopInv(After(c, Of(id, a)).streams, After(c, Of(id, a)).log)
  {
    var c' := After(c, Of(id, a));
    forall i | 0 <= i < |c'.streams|
      ensures Publication(i, Stop) in c'.log <==> PastStop(c'.streams[i].phase) && c'.streams[i].activated
    {
      assert Publication(i, Stop) in c.log <==> PastStop(c.streams[i].phase) && c.streams[i].activated;
    }
  }

  lemma StreamStepKeepsStarts(c: Client, id: Id, a: StreamStep)
    requires Inv(c) && Enabled(c, Of(id, a))
    ensures StartInv(After(c, Of(id, a)).streams, After(c, Of(id, a)).log)
  {
    var c' := After(c, Of(id, a));
    forall i | 0 <= i < |c'.streams| && (c'.streams[i].activated || c'.streams[i].phase.Accepted?)
      ensures Publication(i, Start) in c'.log
    {
      if c.streams[i].activated || c.streams[i].phase.Accepted? { assert Publication(i, Start) in c.log; }
    }
  }

  lemma NewStreamKeepsInv(c: Client)
    requires Inv(c) && Enabled(c, NewStream)
    ensures Inv(After(c, NewStream))
  {
    assert Publication(|c.streams|, Stop) !in c.log by {
      forall k | 0 <= k < |c.log| ensures c.log[k].id < |c.streams| {}
    }
  }

  lemma StepKeepsInv(c: Client, step: Step)
    requires Inv(c) && Enabled(c, step)
    ensures Inv(After(c, step))
  {
    match step
    case NewStream => NewStreamKeepsInv(c);
    case Close =>
    case Of(id, a) =>
      StreamStepKeepsLog(c, id, a);
      StreamStepKeepsPhases(c, id, a);
      StreamStepKeepsStops(c, id, a);
      StreamStepKeepsStarts(c, id, a);
  }

  lemma {:induction false} RunKeepsInv(c: Client, steps: seq<Step>)
    requires Inv(c) && IsRun(c, steps)
    ensures Inv(Run(c, steps))
    decreases |steps|
  {
    if steps != [] {
      StepKeepsInv(c, steps[0]);
      RunKeepsInv(After(c, steps[0]), steps[1..]);
    }
  }

  // The trace of one stream, as a grammar.

  /** What stream `id` published, in order. */
  function TraceOf(log: seq<Publication>, id: Id): seq<Kind> {
    if log == [] then []
    else TraceOf(log[..|log| - 1], id) + if log[|log| - 1].id == id then [log[|log| - 1].kind] else []
  }

  /** Starts and renewals, beginning with a start, then at most one stop at the very end. */
  ghost predicate WellFormedTrace(trace: seq<Kind>) {
    && (trace != [] ==> trace[0].Start?)
    && (forall k :: 0 <= k < |trace| - 1 ==> !trace[k].Stop?)
  }

  /** The traces of streams 0 to n-1, one after the other. */
  function Concatenated(log: seq<Publication>, n: nat): seq<Publication> {
    if n == 0 then [] else Concatenated(log, n - 1) + Labelled(TraceOf(log, n - 1), n - 1)
  }

  function Labelled(trace: seq<Kind>, id: Id): seq<Publication> {
    seq(|trace|, k requires 0 <= k < |trace| => Publication(id, trace[k]))
  }

  lemma {:induction false} TraceMembers(log: seq<Publication>, id: Id, kind: Kind)
    ensures kind in TraceOf(log, id) <==> Publication(id, kind) in log
    decreases |log|
  {
    if log != [] {
      var n := |log| - 1;
      TraceMembers(log[..n], id, kind);
      assert log == log[..n] + [log[n]];
    }
  }

  lemma PrefixKeepsFirst(log: seq<Publication>, m: nat)
    requires FirstInv(log) && m <= |log|
    ensures FirstInv(log[..m])
  {
    forall k | 0 <= k < m && !log[..m][k].kind.Start? ensures Publication(log[..m][k].id, Start) in log[..m][..k] {
      assert log[..m][..k] == log[..k];
    }
  }

  lemma TraceGrows(trace: seq<Kind>, kind: Kind)
    requires WellFormedTrace(trace) && Stop !in trace && (kind.Start? || Start in trace)
    ensures WellFormedTrace(trace + [kind])
  {
  }

  /** The last publication of a log respects what its stream published before. */
  lemma LastIsInOrder(n: nat, log: seq<Publication>)
    requires OrderInv(n, log) && FirstInv(log) && log != []
    ensures var last := log[|log| - 1];
            && Publication(last.id, Stop) !in log[..|log| - 1]
            && (last.kind.Start? || Publication(last.id, Start) in log[..|log| - 1])
  {
    var m := |log| - 1;
    forall k | 0 <= k < m ensures log[..m][k] != Publication(log[m].id, Stop) {
      assert log[..m][k] == log[k];
    }
  }

  lemma {:induction false} TraceIsWellFormed(n: nat, log: seq<Publication>, id: Id)
    requires OrderInv(n, log) && FirstInv(log)
    ensures WellFormedTrace(TraceOf(log, id))
    decreases |log|
  {
    if log != [] {
      var m := |log| - 1;
      var before, trace := log[..m], TraceOf(log[..m], id);
      PrefixKeepsFirst(log, m);
      TraceIsWellFormed(n, before, id);
      if log[m].id == id {
        LastIsInOrder(n, log);
        TraceMembers(before, id, Stop);
        TraceMembers(before, id, Start);
        TraceGrows(trace, log[m].kind);
      } else {
        assert trace + [] == trace;
      }
    }
  }

  lemma {:induction false} EarlierTraces(log: seq<Publication>, p: Publication, n: nat)
    requires n <= p.id
    ensures Concatenated(log + [p], n) == Concatenated(log, n)
  {
    if n > 0 {
      EarlierTraces(log, p, n - 1);
      assert (log + [p])[..|log|] == log;
    }
  }

  lemma {:induction false} NoLaterTraces(log: seq<Publication>, n: nat, m: nat)
    requires n <= m && forall k :: 0 <= k < |log| ==> log[k].id < n
    ensures Concatenated(log, m) == Concatenated(log, n)
    decreases m
  {
    if n < m {
      NoLaterTraces(log, n, m - 1);
      var trace := TraceOf(log, m - 1);
      assert trace == [] by {
        if trace != [] {
          TraceMembers(log, m - 1, trace[0]);
        }
      }
      assert Labelled(trace, m - 1) == [];
    }
  }

  lemma AppendToNewest(log: seq<Publication>, p: Publication)
    ensures Concatenated(log + [p], p.id + 1) == Concatenated(log, p.id + 1) + [p]
  {
    var all := log + [p];
    assert all[..|log|] == log;
    var trace := TraceOf(log, p.id);
    assert TraceOf(all, p.id) == trace + [p.kind];
    EarlierTraces(log, p, p.id);
    assert Labelled(trace + [p.kind], p.id) == Labelled(trace, p.id) + [p];
  }

  /** Streams after the newest publisher have no trace, so their number does not matter. */
  lemma OnlyUpTo(log: seq<Publication>, last: Id, n: nat)
    requires last < n && forall k :: 0 <= k < |log| ==> log[k].id <= last
    ensures Concatenated(log, n) == Concatenated(log, last + 1)
  {
    forall k | 0 <= k < |log| ensures log[k].id < last + 1 {}
    NoLaterTraces(log, last + 1, n);
  }

  lemma AppendKeepsBound(log: seq<Publication>, p: Publication)
    requires forall k :: 0 <= k < |log| ==> log[k].id <= p.id
    ensures forall k :: 0 <= k < |log + [p]| ==> (log + [p])[k].id <= p.id
  {
  }

  lemma AppendPublication(n: nat, log: seq<Publication>, p: Publication)
    requires p.id < n && forall k :: 0 <= k < |log| ==> log[k].id <= p.id
    ensures Concatenated(log + [p], n) == Concatenated(log, n) + [p]
  {
    AppendKeepsBound(log, p);
    OnlyUpTo(log, p.id, n);
    OnlyUpTo(log + [p], p.id, n);
    AppendToNewest(log, p);
  }

  /** An ordered log is the concatenation of its per-stream traces. */
  lemma {:induction false} OrderedLogSplits(n: nat, log: seq<Publication>)
    requires OrderInv(n, log)
    ensures Concatenated(log, n) == log
    decreases |log|
  {
    if log == [] {
      NoLaterTraces(log, 0, n);
    } else {
      var before, p := log[..|log| - 1], log[|log| - 1];
      assert before + [p] == log;
      OrderedLogSplits(n, before);
      AppendPublication(n, before, p);
    }
  }

  /**
   In every run of a client, the publications on the stream-request topic are
   the concatenation of per-stream traces, each starts and renewals followed by
   at most one stop; a stream has published its stop if and only if it was
   activated and has got past that point; and every publication comes after the
   stops of all earlier activated streams.
   */
  lemma PublicationsFollowProtocol(steps: seq<Step>)
    requires IsRun(Init(), steps)
    ensures var c := Run(Init(), steps);
            && c.log == Concatenated(c.log, |c.streams|)
            && (forall id :: WellFormedTrace(TraceOf(c.log, id)))
            && (forall i :: 0 <= i < |c.streams| ==>
                  (Stop in TraceOf(c.log, i) <==> PastStop(c.streams[i].phase) && c.streams[i].activated))
            && SuccessorInv(c.streams, c.log)
  {
    var c := Run(Init(), steps);
    RunKeepsInv(Init(), steps);
    OrderedLogSplits(|c.streams|, c.log);
    forall id ensures WellFormedTrace(TraceOf(c.log, id)) { TraceIsWellFormed(|c.streams|, c.log, id); }
    forall i | 0 <= i < |c.streams|
      ensures Stop in TraceOf(c.log, i) <==> PastStop(c.streams[i].phase) && c.streams[i].activated
    {
      TraceMembers(c.log, i, Stop);
    }
  }

  /** When a stream publishes, the stop attempt of every earlier one has returned. */
  lemma SuccessorWaits(steps: seq<Step>, id: Id, a: StreamStep)
    requires IsRun(Init(), steps) && Enabled(Run(Init(), steps), Of(id, a))
    requires Issued(id, Run(Init(), steps).streams[id], a) != []
    ensures forall i :: 0 <= i < id ==> Released(Run(Init(), steps).streams[i].phase)
  {
    RunKeepsInv(Init(), steps);
    PublisherIsNewest(Run(Init(), steps), id, a);
  }

  /** A client can be closed at any time, and then opens no stream, whatever its open one still does. */
  lemma {:induction false} NothingOpensAfterClose(c: Client, steps: seq<Step>)
    requires IsRun(c, steps)
    ensures Enabled(c, Close) && After(c, Close).closed
    ensures c.closed ==> Run(c, steps).closed && |Run(c, steps).streams| == |c.streams|
    decreases |steps|
  {
    if steps != [] { NothingOpensAfterClose(After(c, steps[0]), steps[1..]); }
  }
}

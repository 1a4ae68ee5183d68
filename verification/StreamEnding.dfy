/**
 Ending a status stream makes progress: once its context has ended, or Stop has
 claimed it, every run is bounded by the work left and by what still comes in,
 something can always step, and so every Start, Stop and Wait call returns.
 */
module StreamEnding {
  import StreamState
  import opened StreamLifecycle
  import opened Totals
  import opened Wrappers

  /** Steps a goroutine may still take, with the publication and the message it may still cause. */
  function Rank(t: Thread): nat {
    match t
    case Connecting => 22
    case Reconnecting => 22
    case Delivering(_) => 19
    case Reading => 16
    case Leaving(_) => 15
    case Calling(_, _) => 14
    case Cleaning(_, _) => 13
    case Locking(_, _) => 12
    case Closing(_) => 3
    case Starting => 2
    case StoppingCall => 2
    case Waiting => 1
  }

  function Ranks(threads: map<ThreadId, Thread>): map<ThreadId, nat> {
    map t | t in threads :: Rank(threads[t])
  }

  function PublisherRank(p: StreamState.Publisher): nat {
    match p
    case Sending(_) => 8
    case Draining(_) => 7
    case Resending(_) => 6
    case Sent(_) => 3
    case Ending => 2
    case Quiet => 0
  }

  function One(b: bool): nat { if b then 1 else 0 }

  /** Of the shared state: the publication in progress and what the channels hold. */
  function SharedLeft(s: State): nat {
    PublisherRank(s.shared.publisher) + |s.shared.channel| + |s.messages|
    + One(!s.messagesClosed) + One(s.watcher.Some?)
  }

  ghost function WorkLeft(s: State): nat { Total(Ranks(s.threads)) + SharedLeft(s) }

  /** What comes from outside the ending: new calls, received messages, status changes. */
  predicate IsInput(a: Step) {
    match a
    case Of(_, b) => b.CallStart? || b.CallStop? || b.CallWait? || b.Receives? || b.SetStatus?
    case WatcherSets(_) => true
    case _ => false
  }

  /** Until the once has run, some goroutine runs a started stream; a cancelled one was started. */
  ghost predicate Manned(s: State) {
    && (s.cancelled ==> s.started)
    && (s.started && !s.once.Ran? ==> exists id :: id in s.threads && Owns(s.threads[id]))
  }

  ghost predicate EndingInv(c: Config, s: State) { Inv(c, s) && Manned(s) && s.cancelled }

  // The work left falls.

  lemma RankMoves(threads: map<ThreadId, Thread>, id: ThreadId, t: Thread)
    requires id in threads
    ensures Total(Ranks(threads[id := t])) + Rank(threads[id]) == Total(Ranks(threads)) + Rank(t)
  {
    TotalUpdate(Ranks(threads), id, Rank(t));
    assert Ranks(threads[id := t]) == Ranks(threads)[id := Rank(t)];
  }

  lemma RankJoins(threads: map<ThreadId, Thread>, id: ThreadId, t: Thread)
    requires id !in threads
    ensures Total(Ranks(threads[id := t])) == Total(Ranks(threads)) + Rank(t)
  {
    TotalUpdate(Ranks(threads), id, Rank(t));
    assert Ranks(threads[id := t]) == Ranks(threads)[id := Rank(t)];
  }

  lemma RankLeaves(threads: map<ThreadId, Thread>, id: ThreadId)
    requires id in threads
    ensures Total(Ranks(threads - {id})) + Rank(threads[id]) == Total(Ranks(threads))
  {
    TotalUpdate(Ranks(threads), id, 0);
    assert Ranks(threads - {id}) == Ranks(threads) - {id};
  }

  /** An input adds at most eight units of work, any other step removes one. */
  ghost predicate Progresses(s: State, s': State, input: bool) {
    if input then WorkLeft(s') <= WorkLeft(s) + 8 else WorkLeft(s') < WorkLeft(s)
  }

  /** Once the stream is started, a new call joins, and the others wait or return. */
  lemma CallPlace(c: Config, s: State, id: ThreadId, a: Action)
    requires s.started && ActionEnabled(c, s, id, a) && IsCall(a)
    ensures SharedLeft(AfterCall(c, s, id, a)) == SharedLeft(s)
    ensures var threads := AfterCall(c, s, id, a).threads;
            match a
            case CallStart => threads == s.threads[id := Starting]
            case CallStop => threads == s.threads[id := StoppingCall]
            case CallWait => threads == s.threads[id := Waiting]
            case ClaimStop => threads == s.threads[id := Waiting]
            case _ => threads == s.threads - {id}
  {
  }

  lemma CallProgresses(c: Config, s: State, id: ThreadId, a: Action)
    requires s.started && ActionEnabled(c, s, id, a) && IsCall(a)
    ensures Progresses(s, AfterCall(c, s, id, a), IsInput(Of(id, a)))
  {
    CallPlace(c, s, id, a);
    match a
    case CallStart => RankJoins(s.threads, id, Starting);
    case CallStop => RankJoins(s.threads, id, StoppingCall);
    case CallWait => RankJoins(s.threads, id, Waiting);
    case ClaimStop => RankMoves(s.threads, id, Waiting);
    case _ => RankLeaves(s.threads, id);
  }

  lemma FinishShares(c: Config, s: State, id: ThreadId, a: Action)
    requires ActionEnabled(c, s, id, a) && IsFinish(a)
    ensures SharedLeft(AfterFinish(c, s, id, a)) == SharedLeft(s) + if a.Lock? then 8 else 0
    ensures AfterFinish(c, s, id, a).threads == Moved(s.threads, id, FinishPlace(s.threads[id], s.once, a))
  {
  }

  function PlaceRank(place: Option<Thread>): nat { if place.Some? then Rank(place.value) else 0 }

  /** Taking the lock starts the last publication, which costs eight steps. */
  lemma FinishRankFalls(c: Config, s: State, id: ThreadId, a: Action)
    requires ActionEnabled(c, s, id, a) && IsFinish(a)
    ensures PlaceRank(FinishPlace(s.threads[id], s.once, a)) + (if a.Lock? then 8 else 0) < Rank(s.threads[id])
  {
  }

  lemma MovedRanks(threads: map<ThreadId, Thread>, id: ThreadId, place: Option<Thread>)
    requires id in threads
    ensures Total(Ranks(Moved(threads, id, place))) + Rank(threads[id]) == Total(Ranks(threads)) + PlaceRank(place)
  {
    if place.Some? {
      RankMoves(threads, id, place.value);
    } else {
      RankLeaves(threads, id);
    }
  }

  lemma FinishProgresses(c: Config, s: State, id: ThreadId, a: Action)
    requires ActionEnabled(c, s, id, a) && IsFinish(a)
    ensures Progresses(s, AfterFinish(c, s, id, a), false)
  {
    FinishShares(c, s, id, a);
    FinishRankFalls(c, s, id, a);
    MovedRanks(s.threads, id, FinishPlace(s.threads[id], s.once, a));
  }

  lemma RunningShares(c: Config, s: State, id: ThreadId, a: Action)
    requires ActionEnabled(c, s, id, a) && !IsCall(a) && !IsFinish(a)
    ensures id in s.threads
    ensures AfterRunning(c, s, id, a).threads == s.threads[id := RunningPlace(s.threads[id], s.cancelled, a)]
    ensures SharedLeft(AfterRunning(c, s, id, a))
            <= SharedLeft(s) + if a.SetStatus? then 8 else if a.Sends? || a.Connected? then 1 else 0
  {
  }

  lemma RunningProgresses(c: Config, s: State, id: ThreadId, a: Action)
    requires s.cancelled && ActionEnabled(c, s, id, a) && !IsCall(a) && !IsFinish(a)
    ensures Progresses(s, AfterRunning(c, s, id, a), IsInput(Of(id, a)))
  {
    RunningShares(c, s, id, a);
    RankMoves(s.threads, id, RunningPlace(s.threads[id], s.cancelled, a));
  }

  lemma PublicationFalls(s: StreamState.Shared)
    requires StreamState.Inv(s) && !s.publisher.Quiet?
    ensures var s' := StreamState.After(s, StreamState.Publish);
            PublisherRank(s'.publisher) + |s'.channel| < PublisherRank(s.publisher) + |s.channel|
  {
  }

  lemma SharedProgresses(c: Config, s: State, a: Step)
    requires StreamState.Inv(s.shared) && s.cancelled && Enabled(c, s, a) && !a.Of?
    ensures After(c, s, a).threads == s.threads
    ensures var l, l' := SharedLeft(s), SharedLeft(After(c, s, a)); if IsInput(a) then l' <= l + 8 else l' < l
  {
    if a.Publish? { PublicationFalls(s.shared); }
  }

  /** After the end of the context every step uses up work, except for inputs. */
  lemma EndingStepFalls(c: Config, s: State, a: Step)
    requires EndingInv(c, s) && Enabled(c, s, a)
    ensures Progresses(s, After(c, s, a), IsInput(a))
  {
    match a
    case Of(id, b) =>
      if IsCall(b) {
        CallProgresses(c, s, id, b);
      } else if IsFinish(b) {
        FinishProgresses(c, s, id, b);
      } else {
        RunningProgresses(c, s, id, b);
      }
    case _ => SharedProgresses(c, s, a);
  }

  // The stream stays manned.

  lemma CallKeepsManned(c: Config, s: State, id: ThreadId, a: Action)
    requires Manned(s) && ActionEnabled(c, s, id, a) && IsCall(a)
    ensures Manned(AfterCall(c, s, id, a))
  {
    var s' := AfterCall(c, s, id, a);
    if s.started && !s.once.Ran? {
      var t :| t in s.threads && Owns(s.threads[t]);
      assert t in s'.threads && Owns(s'.threads[t]);
    } else if s'.started && !s'.once.Ran? {
      assert id in s'.threads && Owns(s'.threads[id]);
    }
  }

  /** A goroutine that leaves finish has run the once. */
  lemma FinishKeepsManned(c: Config, s: State, id: ThreadId, a: Action)
    requires Inv(c, s) && Manned(s) && ActionEnabled(c, s, id, a) && IsFinish(a)
    ensures Manned(AfterFinish(c, s, id, a))
  {
    var s' := AfterFinish(c, s, id, a);
    assert Fits(s.threads[id], s.started, s.once, s.shared.finished);
    if !a.FinishReturns? {
      assert id in s'.threads && Owns(s'.threads[id]);
    }
  }

  lemma RunningKeepsManned(c: Config, s: State, id: ThreadId, a: Action)
    requires Manned(s) && ActionEnabled(c, s, id, a) && !IsCall(a) && !IsFinish(a)
    ensures Manned(AfterRunning(c, s, id, a))
  {
    var t := RunningMove(c, s, id, a);
    var s' := AfterRunning(c, s, id, a);
    assert s' == AfterAction(c, s, id, a) && s'.cancelled == s.cancelled;
    assert Owns(s'.threads[id]);
  }

  lemma StepKeepsManned(c: Config, s: State, a: Step)
    requires Inv(c, s) && Manned(s) && Enabled(c, s, a)
    ensures Manned(After(c, s, a))
  {
    match a
    case Of(id, b) =>
      if IsCall(b) {
        CallKeepsManned(c, s, id, b);
      } else if IsFinish(b) {
        FinishKeepsManned(c, s, id, b);
      } else {
        RunningKeepsManned(c, s, id, b);
      }
    case _ => assert After(c, s, a).threads == s.threads;
  }

  lemma CancelledStays(c: Config, s: State, a: Step)
    requires s.cancelled && Enabled(c, s, a)
    ensures After(c, s, a).cancelled
  {
    if a.Of? {
      if IsCall(a.a) {
        assert AfterCall(c, s, a.id, a.a).cancelled;
      } else if IsFinish(a.a) {
        assert AfterFinish(c, s, a.id, a.a).cancelled;
      } else {
        assert AfterRunning(c, s, a.id, a.a).cancelled;
      }
    }
  }

  lemma EndingStepKeeps(c: Config, s: State, a: Step)
    requires EndingInv(c, s) && Enabled(c, s, a)
    ensures EndingInv(c, After(c, s, a))
  {
    StreamLifecycle.StepKeepsInv(c, s, a);
    StepKeepsManned(c, s, a);
    CancelledStays(c, s, a);
  }

  lemma {:induction false} RunKeepsManned(c: Config, s: State, steps: seq<Step>)
    requires Inv(c, s) && Manned(s) && IsRun(c, s, steps)
    ensures Inv(c, Run(c, s, steps)) && Manned(Run(c, s, steps))
    decreases |steps|
  {
    if steps != [] {
      StreamLifecycle.StepKeepsInv(c, s, steps[0]);
      StepKeepsManned(c, s, steps[0]);
      RunKeepsManned(c, After(c, s, steps[0]), steps[1..]);
    }
  }

  /** Every run that has reached the end of its context is ending. */
  lemma CancelledRunIsEnding(c: Config, steps: seq<Step>)
    requires IsRun(c, Init(), steps) && Run(c, Init(), steps).cancelled
    ensures EndingInv(c, Run(c, Init(), steps))
  {
    RunKeepsManned(c, Init(), steps);
  }

  // Something can always step.

  /** The next step of the goroutine that runs the stream, with no publication in progress and no watcher. */
  lemma OwnerCanStep(c: Config, s: State, id: ThreadId) returns (a: Action)
    requires EndingInv(c, s) && s.shared.publisher.Quiet? && s.watcher.None?
    requires id in s.threads && Owns(s.threads[id])
    ensures ActionEnabled(c, s, id, a) && !IsInput(Of(id, a))
  {
    assert Fits(s.threads[id], s.started, s.once, s.shared.finished);
    match s.threads[id]
    case Connecting => a := ConnectFails(None);
    case Reconnecting => a := ConnectFails(None);
    case Reading => a := ReadEnds(ToReconnect);
    case Delivering(_) => a := SendFails(ToReconnect);
    case Leaving(_) => a := Action.Left;
    case Calling(_, _) => a := EnterFinish;
    case Cleaning(_, _) => a := CleanupReturns(None);
    case Locking(_, _) => a := Lock;
    case Closing(_) => a := FinishReturns;
  }

  /** Without an owner the stream is done, and every call can go on. */
  lemma CallCanStep(c: Config, s: State, id: ThreadId) returns (a: Action)
    requires EndingInv(c, s) && s.shared.publisher.Quiet?
    requires forall t :: t in s.threads ==> !Owns(s.threads[t])
    requires id in s.threads
    ensures ActionEnabled(c, s, id, a) && !IsInput(Of(id, a))
  {
    match s.threads[id]
    case Starting => a := Begin;
    case StoppingCall => a := ClaimStop;
    case Waiting => a := Action.WaitReturns;
  }

  /** Until every call and goroutine has returned, a step other than an input is enabled. */
  lemma EndingCanStep(c: Config, s: State) returns (a: Step)
    requires EndingInv(c, s) && s.threads != map[]
    ensures Enabled(c, s, a) && !IsInput(a)
  {
    if !s.shared.publisher.Quiet? {
      a := if s.shared.publisher == StreamState.Sent(true) && !s.messagesClosed then CloseMessages else Publish;
    } else if s.watcher.Some? {
      a := WatcherStops;
    } else if id :| id in s.threads && Owns(s.threads[id]) {
      var b := OwnerCanStep(c, s, id);
      a := Of(id, b);
    } else {
      var id :| id in s.threads;
      var b := CallCanStep(c, s, id);
      a := Of(id, b);
    }
  }

  // Main results.

  function Inputs(steps: seq<Step>): nat {
    if steps == [] then 0 else One(IsInput(steps[0])) + Inputs(steps[1..])
  }

  /** From the end of the context on, a run is no longer than the work left and nine steps for each input. */
  lemma {:induction false} EndingRunIsBounded(c: Config, s: State, steps: seq<Step>)
    requires EndingInv(c, s) && IsRun(c, s, steps)
    ensures |steps| + WorkLeft(Run(c, s, steps)) <= WorkLeft(s) + 9 * Inputs(steps)
    decreases |steps|
  {
    if steps != [] {
      EndingStepFalls(c, s, steps[0]);
      EndingStepKeeps(c, s, steps[0]);
      EndingRunIsBounded(c, After(c, s, steps[0]), steps[1..]);
    }
  }

  /** A schedule that never idles, and takes no further input, while a call or goroutine is left. */
  ghost predicate Fair(c: Config, choose: State -> Step) {
    forall s: State :: EndingInv(c, s) && s.threads != map[] ==> Enabled(c, s, choose(s)) && !IsInput(choose(s))
  }

  /** Under every such schedule the stream completes, and every Start, Stop and Wait call returns. */
  lemma {:induction false} EveryScheduleEnds(c: Config, s: State, choose: State -> Step) returns (steps: seq<Step>)
    requires EndingInv(c, s) && Fair(c, choose)
    ensures IsRun(c, s, steps) && Run(c, s, steps).threads == map[]
    ensures Run(c, s, steps).shared.done && Run(c, s, steps).watcher.None?
    ensures |steps| <= WorkLeft(s)
    decreases WorkLeft(s)
  {
    if s.threads == map[] {
      steps := [];
    } else {
      var a := choose(s);
      EndingStepFalls(c, s, a);
      EndingStepKeeps(c, s, a);
      var rest := EveryScheduleEnds(c, After(c, s, a), choose);
      steps := [a] + rest;
      assert steps[1..] == rest;
    }
  }
}

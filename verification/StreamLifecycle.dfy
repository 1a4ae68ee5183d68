/**
 The goroutines of one status stream around its shared state, for both
 clients: any number of Start, Stop and Wait calls, the run context, the reading
 goroutine with its sends on the message channel, the local client's staleness
 watcher, and the once-only finish that closes the channels.
 */
module StreamLifecycle {
  import opened StreamState
  import opened Wrappers

  /** The remote client cleans up when it finishes; the local one watches for staleness while it reads. */
  datatype Client = Local | Remote

  type ThreadId = nat

  /** Where reading leads. */
  datatype Next = ToFinish(terminal: Option<Error>) | ToReconnect

  datatype Thread =
    | Starting                                          // Start, before Begin
    | StoppingCall                                      // Stop, before StopBeforeStart
    | Connecting
    | Reading
    | Delivering(message: Message)
    | Leaving(next: Next)                               // waits for the watcher
    | Reconnecting
    | Calling(terminal: Option<Error>, waits: bool)     // about to call finish
    | Cleaning(terminal: Option<Error>, waits: bool)    // inside the once, in cleanup
    | Locking(terminal: Option<Error>, waits: bool)     // cleanup has returned
    | Closing(waits: bool)                              // publishes the terminal status and closes
    | Waiting                                           // Wait, for done

  datatype Once = Fresh | Running | Ran

  datatype State = State(
    shared: Shared,
    started: bool,
    once: Once,
    finishCalls: nat,
    threads: map<ThreadId, Thread>,
    watcher: Option<ThreadId>,          // the reading goroutine whose watcher still runs
    messages: seq<Message>,
    messagesClosed: bool,
    accepted: seq<Message>,             // what Deliver has sent
    consumed: seq<Message>,             // what the reader has taken
    sentOnClosed: bool,
    cancelled: bool)                    // the run context has ended, or Stop claimed the idle stream

  /** `client` and `capacity` are fixed for a stream. */
  datatype Config = Config(client: Client, capacity: nat)

  function Init(): State {
    State(StreamState.Init(), false, Fresh, 0, map[], None, [], false, [], [], false, false)
  }

  datatype Action =
    | CallStart
    | CallStop
    | CallWait
    | Begin
    | ClaimStop
    | Connected
    | ConnectFails(error: Option<Error>)
    | SetStatus(status: Status)
    | Receives(message: Message)
    | Sends(fatal: Option<Error>)            // Deliver succeeds
    | SendFails(next: Next)                  // full, or the context ended
    | ReadEnds(next: Next)
    | Left
    | EnterFinish
    | CleanupReturns(error: Option<Error>)
    | Lock
    | FinishReturns
    | WaitReturns

  datatype Step =
    | Of(id: ThreadId, a: Action)
    | Publish                                // the goroutine that holds the mutex
    | CloseMessages                          // likewise
    | WatcherSets(status: Status)
    | WatcherStops
    | ReadStatus
    | ReadMessage
    | ContextEnds                            // the context of Start, or of the client

  /** Threads that run the stream; the others only call into it. */
  predicate Owns(t: Thread) {
    !t.Starting? && !t.StoppingCall? && !t.Waiting?
  }

  predicate SetsStatus(t: Thread) {
    t.Connecting? || t.Reading? || t.Reconnecting?
  }

  predicate ActionEnabled(c: Config, s: State, id: ThreadId, a: Action) {
    match a
    case CallStart => id !in s.threads
    case CallStop => id !in s.threads
    case CallWait => id !in s.threads && s.started
    case Begin => id in s.threads && s.threads[id].Starting?
    case ClaimStop => id in s.threads && s.threads[id].StoppingCall?
    case Connected => id in s.threads && (s.threads[id].Connecting? || s.threads[id].Reconnecting?)
    case ConnectFails(_) => id in s.threads && (s.threads[id].Connecting? || s.threads[id].Reconnecting?)
    case SetStatus(_) => id in s.threads && SetsStatus(s.threads[id]) && s.shared.publisher.Quiet?
    case Receives(_) => id in s.threads && s.threads[id].Reading?
    case Sends(_) => id in s.threads && s.threads[id].Delivering? && |s.messages| < c.capacity
    case SendFails(_) => id in s.threads && s.threads[id].Delivering?
    case ReadEnds(_) => id in s.threads && s.threads[id].Reading?
    case Left => id in s.threads && s.threads[id].Leaving? && s.watcher.None?
    case EnterFinish => id in s.threads && s.threads[id].Calling? && !s.once.Running?
    case CleanupReturns(error) => id in s.threads && s.threads[id].Cleaning? && (c.client.Local? ==> error.None?)
    case Lock => id in s.threads && s.threads[id].Locking? && s.shared.publisher.Quiet? && !s.shared.finished
    case FinishReturns => id in s.threads && s.threads[id].Closing? && s.shared.done
    case WaitReturns =>
      id in s.threads && s.threads[id].Waiting? && StreamState.Enabled(s.shared, StreamState.WaitReturns)
  }

  function Put(s: State, id: ThreadId, t: Thread): State { s.(threads := s.threads[id := t]) }

  function Drop(s: State, id: ThreadId): State { s.(threads := s.threads - {id}) }

  function Resumed(next: Next): Thread {
    match next
    case ToFinish(terminal) => Calling(terminal, false)
    case ToReconnect => Thread.Reconnecting
  }

  predicate IsCall(a: Action) {
    a.CallStart? || a.CallStop? || a.CallWait? || a.Begin? || a.ClaimStop? || a.WaitReturns?
  }

  predicate IsFinish(a: Action) {
    a.EnterFinish? || a.CleanupReturns? || a.Lock? || a.FinishReturns?
  }

  function AfterCall(c: Config, s: State, id: ThreadId, a: Action): State
    requires ActionEnabled(c, s, id, a) && IsCall(a)
  {
    match a
    case CallStart => Put(s, id, Starting)
    case CallStop => Put(s, id, StoppingCall)
    case CallWait => Put(s, id, Waiting)
    case Begin => if s.started then Drop(s, id) else Put(s, id, Thread.Connecting).(started := true)
    case ClaimStop =>
      (if s.started then Put(s, id, Waiting) else Put(s, id, Calling(None, true)).(started := true)).(cancelled := true)
    case WaitReturns => Drop(s, id).(shared := StreamState.After(s.shared, StreamState.WaitReturns))
  }

  /** Where running the stream takes its goroutine; it may also stay. */
  function RunningPlace(t: Thread, cancelled: bool, a: Action): Thread {
    match a
    case Connected => Reading
    case ConnectFails(error) => Calling(if cancelled && t.Reconnecting? then None else error, false)
    case Receives(m) => Delivering(m)
    case Sends(fatal) => if fatal.Some? then Leaving(ToFinish(fatal)) else Reading
    case SendFails(next) => Leaving(next)
    case ReadEnds(next) => Leaving(next)
    case Left => if cancelled || !t.Leaving? then Calling(None, false) else Resumed(t.next)
    case _ => t
  }

  function AfterRunning(c: Config, s: State, id: ThreadId, a: Action): State
    requires ActionEnabled(c, s, id, a) && !IsCall(a) && !IsFinish(a)
  {
    var t := s.threads[id];
    var s' := Put(s, id, RunningPlace(t, s.cancelled, a));
    match a
    case Connected => s'.(watcher := if c.client.Local? then Some(id) else s.watcher)
    case SetStatus(status) => s'.(shared := StreamState.After(s.shared, BeginSet(status)))
    case Sends(_) =>
      s'.(messages := s.messages + [t.message], accepted := s.accepted + [t.message],
          sentOnClosed := s.sentOnClosed || s.messagesClosed)
    case _ => s'
  }

  /** Where finish takes its goroutine; only the first call of finish enters the once. */
  function FinishPlace(t: Thread, once: Once, a: Action): Option<Thread>
    requires t.Calling? || t.Cleaning? || t.Locking? || t.Closing?
  {
    match a
    case EnterFinish => if once.Fresh? && t.Calling? then Some(Cleaning(t.terminal, t.waits)) else Rest(t.waits)
    case CleanupReturns(error) => if t.Cleaning? then Some(Locking(Join(t.terminal, error), t.waits)) else Some(t)
    case Lock => Some(Closing(t.waits))
    case _ => Rest(t.waits)
  }

  /** Stop goes on to wait; the others return. */
  function Rest(waits: bool): Option<Thread> { if waits then Some(Waiting) else None }

  function Moved(threads: map<ThreadId, Thread>, id: ThreadId, place: Option<Thread>): map<ThreadId, Thread> {
    if place.Some? then threads[id := place.value] else threads - {id}
  }

  function AfterFinish(c: Config, s: State, id: ThreadId, a: Action): State
    requires ActionEnabled(c, s, id, a) && IsFinish(a)
  {
    var s' := s.(threads := Moved(s.threads, id, FinishPlace(s.threads[id], s.once, a)));
    match a
    case EnterFinish =>
      s'.(once := if s.once.Fresh? then Running else s.once, finishCalls := s.finishCalls + 1)
    case Lock => s'.(shared := StreamState.After(s.shared, BeginFinish(s.threads[id].terminal)))
    case FinishReturns => s'.(once := Ran)
    case _ => s'
  }

  function AfterAction(c: Config, s: State, id: ThreadId, a: Action): State
    requires ActionEnabled(c, s, id, a)
  {
    if IsCall(a) then AfterCall(c, s, id, a)
    else if IsFinish(a) then AfterFinish(c, s, id, a)
    else AfterRunning(c, s, id, a)
  }

  predicate Enabled(c: Config, s: State, a: Step) {
    match a
    case Of(id, b) => ActionEnabled(c, s, id, b)
    case Publish => !s.shared.publisher.Quiet? && (s.shared.publisher == Sent(true) ==> s.messagesClosed)
    case CloseMessages => s.shared.publisher == Sent(true) && !s.messagesClosed
    case WatcherSets(_) => s.watcher.Some? && s.shared.publisher.Quiet?
    case WatcherStops => s.watcher.Some?
    case ReadStatus => StreamState.Enabled(s.shared, Read)
    case ReadMessage => s.messages != []
    case ContextEnds => s.started && !s.cancelled
  }

  function After(c: Config, s: State, a: Step): State
    requires Enabled(c, s, a)
  {
    match a
    case Of(id, b) => AfterAction(c, s, id, b)
    case Publish => s.(shared := StreamState.After(s.shared, StreamState.Publish))
    case CloseMessages => s.(messagesClosed := true)
    case WatcherSets(status) => s.(shared := StreamState.After(s.shared, BeginSet(status)))
    case WatcherStops => s.(watcher := None)
    case ReadStatus => s.(shared := StreamState.After(s.shared, Read))
    case ReadMessage => s.(messages := s.messages[1..], consumed := s.consumed + [s.messages[0]])
    case ContextEnds => s.(cancelled := true)
  }

  ghost predicate IsRun(c: Config, s: State, steps: seq<Step>)
    decreases |steps|
  {
    steps == [] || (Enabled(c, s, steps[0]) && IsRun(c, After(c, s, steps[0]), steps[1..]))
  }

  function Run(c: Config, s: State, steps: seq<Step>): State
    requires IsRun(c, s, steps)
    decreases |steps|
  {
    if steps == [] then s else Run(c, After(c, s, steps[0]), steps[1..])
  }

  // The invariant.

  predicate InFinish(t: Thread) { t.Cleaning? || t.Locking? || t.Closing? }

  predicate InRead(t: Thread) { t.Reading? || t.Delivering? || t.Leaving? }

  /** What an owner's place says about the rest of the state. */
  predicate Fits(t: Thread, started: bool, once: Once, finished: bool) {
    Owns(t) ==>
      && started
      && (InFinish(t) <==> once.Running?)
      && (!InFinish(t) ==> once.Fresh?)
      && (t.Closing? <==> finished)
  }

  /** At most one goroutine runs the stream, and what it does fits the once and the shared state. */
  ghost predicate OwnerInv(threads: map<ThreadId, Thread>, started: bool, once: Once, finished: bool) {
    && (forall t, u :: t in threads && u in threads && Owns(threads[t]) && Owns(threads[u]) ==> t == u)
    && (forall t :: t in threads ==> Fits(threads[t], started, once, finished))
  }

  predicate OnceInv(s: State) {
    && (!s.started ==> s.once.Fresh?)
    && (s.once.Fresh? ==> !s.shared.finished)
    && (s.once.Ran? ==> s.shared.done)
    && s.finishCalls == (if s.once.Fresh? then 0 else 1)
  }

  predicate WatcherInv(s: State) {
    s.watcher.Some? ==> s.watcher.value in s.threads && InRead(s.threads[s.watcher.value])
  }

  ghost predicate MessageInv(c: Config, s: State) {
    && |s.messages| <= c.capacity
    && s.consumed + s.messages == s.accepted
    && !s.sentOnClosed
    && (s.messagesClosed ==> s.shared.finished)
    && (s.shared.closed ==> s.messagesClosed)
  }

  ghost predicate Inv(c: Config, s: State) {
    && StreamState.Inv(s.shared)
    && OwnerInv(s.threads, s.started, s.once, s.shared.finished)
    && OnceInv(s) && WatcherInv(s) && MessageInv(c, s)
  }

  ghost predicate OthersIdle(threads: map<ThreadId, Thread>, id: ThreadId) {
    forall t :: t in threads && t != id ==> !Owns(threads[t])
  }

  /** With every other thread idle, one thread may take any fitting place. */
  lemma MoveKeepsOwner(threads: map<ThreadId, Thread>, id: ThreadId, t: Thread,
                       started: bool, once: Once, finished: bool)
    requires OthersIdle(threads, id) && Fits(t, started, once, finished)
    ensures OwnerInv(threads[id := t], started, once, finished)
    ensures OwnerInv(threads - {id}, started, once, finished)
  {
  }

  /** A thread that owns nothing may come, move and go. */
  lemma CallerKeepsOwner(threads: map<ThreadId, Thread>, id: ThreadId, t: Thread,
                         started: bool, once: Once, finished: bool)
    requires OwnerInv(threads, started, once, finished) && (id in threads ==> !Owns(threads[id])) && !Owns(t)
    ensures OwnerInv(threads[id := t], started, once, finished)
    ensures OwnerInv(threads - {id}, started, once, finished)
  {
  }

  lemma OwnersAlone(s: State, id: ThreadId)
    requires OwnerInv(s.threads, s.started, s.once, s.shared.finished) && id in s.threads
    requires Owns(s.threads[id]) || !s.started
    ensures OthersIdle(s.threads, id)
  {
    forall t | t in s.threads && t != id ensures !Owns(s.threads[t]) {
      assert Fits(s.threads[t], s.started, s.once, s.shared.finished);
    }
  }

  lemma CallKeepsOwner(c: Config, s: State, id: ThreadId, a: Action)
    requires OwnerInv(s.threads, s.started, s.once, s.shared.finished) && OnceInv(s)
    requires ActionEnabled(c, s, id, a) && IsCall(a)
    ensures var s' := AfterAction(c, s, id, a); OwnerInv(s'.threads, s'.started, s'.once, s'.shared.finished)
  {
    var s' := AfterAction(c, s, id, a);
    var t := if id in s'.threads then s'.threads[id] else Waiting;
    if Owns(t) {
      OwnersAlone(s, id);
      MoveKeepsOwner(s.threads, id, t, s'.started, s'.once, s'.shared.finished);
    } else {
      CallerKeepsOwner(s.threads, id, t, s'.started, s'.once, s'.shared.finished);
    }
  }

  lemma FinishMove(c: Config, s: State, id: ThreadId, a: Action) returns (t: Thread)
    requires OwnerInv(s.threads, s.started, s.once, s.shared.finished) && OnceInv(s)
    requires ActionEnabled(c, s, id, a) && IsFinish(a)
    ensures Owns(s.threads[id])
    ensures var s' := AfterAction(c, s, id, a);
            && Fits(t, s'.started, s'.once, s'.shared.finished)
            && (s'.threads == s.threads[id := t] || s'.threads == s.threads - {id})
  {
    var s' := AfterAction(c, s, id, a);
    t := if id in s'.threads then s'.threads[id] else Waiting;
    assert Fits(s.threads[id], s.started, s.once, s.shared.finished);
  }

  lemma FinishKeepsOwner(c: Config, s: State, id: ThreadId, a: Action)
    requires OwnerInv(s.threads, s.started, s.once, s.shared.finished) && OnceInv(s)
    requires ActionEnabled(c, s, id, a) && IsFinish(a)
    ensures var s' := AfterAction(c, s, id, a); OwnerInv(s'.threads, s'.started, s'.once, s'.shared.finished)
  {
    var t := FinishMove(c, s, id, a);
    var s' := AfterAction(c, s, id, a);
    OwnersAlone(s, id);
    MoveKeepsOwner(s.threads, id, t, s'.started, s'.once, s'.shared.finished);
  }

  /** What running the stream does to its owner: nothing about the finish. */
  lemma RunningMove(c: Config, s: State, id: ThreadId, a: Action) returns (t: Thread)
    requires ActionEnabled(c, s, id, a) && !IsCall(a) && !IsFinish(a)
    ensures id in s.threads && Owns(s.threads[id]) && !InFinish(s.threads[id])
    ensures Owns(t) && !InFinish(t) && AfterAction(c, s, id, a).threads == s.threads[id := t]
    ensures var s' := AfterAction(c, s, id, a);
            s'.started == s.started && s'.once == s.once && s'.shared.finished == s.shared.finished
  {
    t := AfterAction(c, s, id, a).threads[id];
    assert s.threads == s.threads[id := s.threads[id]];
  }

  lemma RunningKeepsOwner(c: Config, s: State, id: ThreadId, a: Action)
    requires OwnerInv(s.threads, s.started, s.once, s.shared.finished)
    requires ActionEnabled(c, s, id, a) && !IsCall(a) && !IsFinish(a)
    ensures var s' := AfterAction(c, s, id, a); OwnerInv(s'.threads, s'.started, s'.once, s'.shared.finished)
  {
    var t := RunningMove(c, s, id, a);
    assert Fits(s.threads[id], s.started, s.once, s.shared.finished);
    OwnersAlone(s, id);
    MoveKeepsOwner(s.threads, id, t, s.started, s.once, s.shared.finished);
  }

  /** An action leaves the shared state alone or takes one of its steps. */
  lemma ActionKeepsShared(c: Config, s: State, id: ThreadId, a: Action)
    requires StreamState.Inv(s.shared) && ActionEnabled(c, s, id, a)
    ensures StreamState.Inv(AfterAction(c, s, id, a).shared)
  {
    if a.WaitReturns? {
      StreamState.StepKeepsInv(s.shared, StreamState.WaitReturns);
    } else if a.SetStatus? {
      StreamState.StepKeepsInv(s.shared, BeginSet(a.status));
    } else if a.Lock? {
      StreamState.StepKeepsInv(s.shared, BeginFinish(s.threads[id].terminal));
    } else {
      OtherLeavesShared(c, s, id, a);
    }
  }

  lemma OtherLeavesShared(c: Config, s: State, id: ThreadId, a: Action)
    requires ActionEnabled(c, s, id, a) && !a.WaitReturns? && !a.SetStatus? && !a.Lock?
    ensures AfterAction(c, s, id, a).shared == s.shared
  {
    if IsCall(a) {
      assert AfterCall(c, s, id, a).shared == s.shared;
    } else if IsFinish(a) {
      assert AfterFinish(c, s, id, a).shared == s.shared;
    } else {
      assert AfterRunning(c, s, id, a).shared == s.shared;
    }
  }

  lemma FinishKeepsOnce(c: Config, s: State, id: ThreadId, a: Action)
    requires OwnerInv(s.threads, s.started, s.once, s.shared.finished) && OnceInv(s)
    requires ActionEnabled(c, s, id, a) && IsFinish(a)
    ensures OnceInv(AfterAction(c, s, id, a))
  {
    assert Fits(s.threads[id], s.started, s.once, s.shared.finished);
  }

  lemma ActionKeepsOnce(c: Config, s: State, id: ThreadId, a: Action)
    requires OwnerInv(s.threads, s.started, s.once, s.shared.finished) && OnceInv(s) && ActionEnabled(c, s, id, a)
    ensures OnceInv(AfterAction(c, s, id, a))
  {
    if IsFinish(a) {
      FinishKeepsOnce(c, s, id, a);
    }
  }

  /** A reading goroutine stays in reading until its watcher is gone. */
  lemma ReaderStays(c: Config, s: State, id: ThreadId, a: Action)
    requires ActionEnabled(c, s, id, a) && id in s.threads && InRead(s.threads[id]) && s.watcher.Some?
    ensures id in AfterAction(c, s, id, a).threads && InRead(AfterAction(c, s, id, a).threads[id])
  {
  }

  /** An action moves only its own thread. */
  ghost predicate MovesOnly(before: map<ThreadId, Thread>, after: map<ThreadId, Thread>, id: ThreadId) {
    forall t :: t in before && t != id ==> t in after && after[t] == before[t]
  }

  lemma CallMovesOnly(c: Config, s: State, id: ThreadId, a: Action)
    requires ActionEnabled(c, s, id, a) && IsCall(a)
    ensures MovesOnly(s.threads, AfterAction(c, s, id, a).threads, id)
  {
  }

  lemma FinishMovesOnly(c: Config, s: State, id: ThreadId, a: Action)
    requires ActionEnabled(c, s, id, a) && IsFinish(a)
    ensures MovesOnly(s.threads, AfterAction(c, s, id, a).threads, id)
  {
    var place := FinishPlace(s.threads[id], s.once, a);
    MovedMovesOnly(s.threads, id, place);
    assert AfterFinish(c, s, id, a).threads == Moved(s.threads, id, place);
  }

  lemma MovedMovesOnly(threads: map<ThreadId, Thread>, id: ThreadId, place: Option<Thread>)
    ensures MovesOnly(threads, Moved(threads, id, place), id)
  {
  }

  lemma OthersUnmoved(c: Config, s: State, id: ThreadId, a: Action)
    requires ActionEnabled(c, s, id, a)
    ensures MovesOnly(s.threads, AfterAction(c, s, id, a).threads, id)
  {
    if IsCall(a) {
      CallMovesOnly(c, s, id, a);
    } else if IsFinish(a) {
      FinishMovesOnly(c, s, id, a);
    } else {
      var t := RunningMove(c, s, id, a);
    }
  }

  lemma WatcherOnlyFromConnected(c: Config, s: State, id: ThreadId, a: Action)
    requires ActionEnabled(c, s, id, a) && !a.Connected?
    ensures AfterAction(c, s, id, a).watcher == s.watcher
  {
    if IsCall(a) {
      assert AfterCall(c, s, id, a).watcher == s.watcher;
    } else if IsFinish(a) {
      assert AfterFinish(c, s, id, a).watcher == s.watcher;
    } else {
      assert AfterRunning(c, s, id, a).watcher == s.watcher;
    }
  }

  lemma ActionKeepsWatcher(c: Config, s: State, id: ThreadId, a: Action)
    requires WatcherInv(s) && ActionEnabled(c, s, id, a)
    ensures WatcherInv(AfterAction(c, s, id, a))
  {
    if s.watcher == Some(id) {
      ReaderStays(c, s, id, a);
    } else if s.watcher.Some? {
      OthersUnmoved(c, s, id, a);
    }
    if !a.Connected? {
      WatcherOnlyFromConnected(c, s, id, a);
    }
  }

  /** The one who sends is the one who would have closed. */
  lemma SendKeepsMessages(c: Config, s: State, id: ThreadId, fatal: Option<Error>)
    requires OwnerInv(s.threads, s.started, s.once, s.shared.finished)
    requires MessageInv(c, s) && ActionEnabled(c, s, id, Sends(fatal))
    ensures MessageInv(c, AfterAction(c, s, id, Sends(fatal)))
  {
    assert Fits(s.threads[id], s.started, s.once, s.shared.finished);
    assert s.consumed + (s.messages + [s.threads[id].message]) == s.accepted + [s.threads[id].message];
  }

  ghost predicate SameMessages(s: State, s': State) {
    && s'.messages == s.messages && s'.consumed == s.consumed && s'.accepted == s.accepted
    && s'.sentOnClosed == s.sentOnClosed && s'.messagesClosed == s.messagesClosed
    && s'.shared.closed == s.shared.closed && (s.shared.finished ==> s'.shared.finished)
  }

  lemma CallLeavesMessages(c: Config, s: State, id: ThreadId, a: Action)
    requires ActionEnabled(c, s, id, a) && IsCall(a)
    ensures SameMessages(s, AfterAction(c, s, id, a))
  {
  }

  lemma FinishLeavesMessages(c: Config, s: State, id: ThreadId, a: Action)
    requires ActionEnabled(c, s, id, a) && IsFinish(a)
    ensures SameMessages(s, AfterAction(c, s, id, a))
  {
  }

  lemma RunningLeavesMessages(c: Config, s: State, id: ThreadId, a: Action)
    requires ActionEnabled(c, s, id, a) && !IsCall(a) && !IsFinish(a) && !a.Sends?
    ensures SameMessages(s, AfterAction(c, s, id, a))
  {
  }

  /** No other action touches the message channel, and none makes a finished stream unfinished. */
  lemma OtherLeavesMessages(c: Config, s: State, id: ThreadId, a: Action)
    requires ActionEnabled(c, s, id, a) && !a.Sends?
    ensures SameMessages(s, AfterAction(c, s, id, a))
  {
    if IsCall(a) {
      CallLeavesMessages(c, s, id, a);
    } else if IsFinish(a) {
      FinishLeavesMessages(c, s, id, a);
    } else {
      RunningLeavesMessages(c, s, id, a);
    }
  }

  lemma OtherKeepsMessages(c: Config, s: State, id: ThreadId, a: Action)
    requires MessageInv(c, s) && ActionEnabled(c, s, id, a) && !a.Sends?
    ensures MessageInv(c, AfterAction(c, s, id, a))
  {
    OtherLeavesMessages(c, s, id, a);
  }

  lemma ActionKeepsMessages(c: Config, s: State, id: ThreadId, a: Action)
    requires OwnerInv(s.threads, s.started, s.once, s.shared.finished) && StreamState.Inv(s.shared)
    requires MessageInv(c, s) && ActionEnabled(c, s, id, a)
    ensures MessageInv(c, AfterAction(c, s, id, a))
  {
    if a.Sends? {
      SendKeepsMessages(c, s, id, a.fatal);
    } else {
      OtherKeepsMessages(c, s, id, a);
    }
  }

  lemma ActionKeepsInv(c: Config, s: State, id: ThreadId, a: Action)
    requires Inv(c, s) && ActionEnabled(c, s, id, a)
    ensures Inv(c, AfterAction(c, s, id, a))
  {
    if IsCall(a) {
      CallKeepsOwner(c, s, id, a);
    } else if IsFinish(a) {
      FinishKeepsOwner(c, s, id, a);
    } else {
      RunningKeepsOwner(c, s, id, a);
    }
    ActionKeepsShared(c, s, id, a);
    ActionKeepsOnce(c, s, id, a);
    ActionKeepsWatcher(c, s, id, a);
    ActionKeepsMessages(c, s, id, a);
  }

  lemma StepKeepsInv(c: Config, s: State, a: Step)
    requires Inv(c, s) && Enabled(c, s, a)
    ensures Inv(c, After(c, s, a))
  {
    match a
    case Of(id, b) => ActionKeepsInv(c, s, id, b);
    case Publish => StreamState.StepKeepsInv(s.shared, StreamState.Publish);
    case WatcherSets(status) => StreamState.StepKeepsInv(s.shared, BeginSet(status));
    case ReadStatus => StreamState.StepKeepsInv(s.shared, Read);
    case ReadMessage =>
      assert (s.consumed + [s.messages[0]]) + s.messages[1..] == s.consumed + s.messages;
    case _ =>
  }

  lemma {:induction false} RunKeepsInv(c: Config, s: State, steps: seq<Step>)
    requires Inv(c, s) && IsRun(c, s, steps)
    ensures Inv(c, Run(c, s, steps))
    decreases |steps|
  {
    if steps != [] {
      StepKeepsInv(c, s, steps[0]);
      RunKeepsInv(c, After(c, s, steps[0]), steps[1..]);
    }
  }

  // Main results.

  /**
   In every run of either client, whatever starts, stops and waits are called:
   nothing is sent on a closed channel, finish is called at most once, at most
   one goroutine runs the stream, and none, nor its watcher, is left when done
   is closed; all completed Wait and Stop calls returned one value, the final
   error; and the reader gets the accepted messages in order.
   */
  lemma LifecycleIsSafe(c: Config, steps: seq<Step>)
    requires IsRun(c, Init(), steps)
    ensures var s := Run(c, Init(), steps);
            && !s.sentOnClosed && !s.shared.sentOnClosed
            && (s.messagesClosed ==> forall t :: t in s.threads ==> !s.threads[t].Delivering?)
            && s.finishCalls <= 1
            && (forall t, u :: t in s.threads && u in s.threads && Owns(s.threads[t]) && Owns(s.threads[u]) ==> t == u)
            && (s.shared.done ==> s.watcher.None?)
            && (s.shared.done ==> forall t :: t in s.threads && Owns(s.threads[t]) ==> s.threads[t].Closing?)
            && (forall r :: r in s.shared.returned ==> s.shared.done && r == s.shared.finalErr)
            && s.consumed + s.messages == s.accepted && |s.messages| <= c.capacity
  {
    RunKeepsInv(c, Init(), steps);
    var s := Run(c, Init(), steps);
    forall t | t in s.threads && Owns(s.threads[t]) && s.shared.done ensures s.threads[t].Closing? {
      assert Fits(s.threads[t], s.started, s.once, s.shared.finished);
    }
    forall t | t in s.threads && s.messagesClosed ensures !s.threads[t].Delivering? {
      assert Fits(s.threads[t], s.started, s.once, s.shared.finished);
    }
    if s.watcher.Some? {
      assert Fits(s.threads[s.watcher.value], s.started, s.once, s.shared.finished);
    }
  }

  lemma FinishedSetsNothing(c: Config, s: State, id: ThreadId)
    requires Inv(c, s) && s.shared.finished
    ensures s.watcher.None? && (id in s.threads ==> !SetsStatus(s.threads[id]))
  {
    assert id in s.threads ==> Fits(s.threads[id], s.started, s.once, s.shared.finished);
    assert s.watcher.Some? ==> Fits(s.threads[s.watcher.value], s.started, s.once, s.shared.finished);
  }

  /** SetStatus's guard against a finished stream is never needed. */
  lemma NoStatusAfterFinish(c: Config, steps: seq<Step>, id: ThreadId, status: Status)
    requires IsRun(c, Init(), steps) && Run(c, Init(), steps).shared.finished
    ensures !Enabled(c, Run(c, Init(), steps), WatcherSets(status))
    ensures !Enabled(c, Run(c, Init(), steps), Of(id, SetStatus(status)))
  {
    RunKeepsInv(c, Init(), steps);
    FinishedSetsNothing(c, Run(c, Init(), steps), id);
  }

  /** Once the message channel is closed, what a reader draining it gets is settled. */
  lemma {:induction false} NothingAcceptedAfterClose(c: Config, s: State, steps: seq<Step>)
    requires Inv(c, s) && s.messagesClosed && IsRun(c, s, steps)
    ensures Run(c, s, steps).accepted == s.accepted && Run(c, s, steps).messagesClosed
    decreases |steps|
  {
    if steps != [] {
      ClosedStep(c, s, steps[0]);
      StepKeepsInv(c, s, steps[0]);
      NothingAcceptedAfterClose(c, After(c, s, steps[0]), steps[1..]);
    }
  }

  lemma ClosedStep(c: Config, s: State, a: Step)
    requires Inv(c, s) && s.messagesClosed && Enabled(c, s, a)
    ensures After(c, s, a).accepted == s.accepted && After(c, s, a).messagesClosed
  {
    if a.Of? && a.id in s.threads {
      assert Fits(s.threads[a.id], s.started, s.once, s.shared.finished);
    }
  }
}

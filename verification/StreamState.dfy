/**
 The lifecycle state shared by both status-stream transports: coalesced status
 publication through a one-slot channel, and stable completion.
 */
module StreamState {
  import opened Wrappers

  /** `Both` is the join of two errors. */
  datatype Error = Cause(code: nat) | Both(first: Error, second: Error)

  function Join(a: Option<Error>, b: Option<Error>): Option<Error> {
    if a.None? then b else if b.None? then a else Some(Both(a.value, b.value))
  }

  datatype Lifecycle = Idle | Connecting | Connected | Reconnecting | Stopped | Failure

  /** `detail` stands for the remaining fields of a status snapshot. */
  datatype Status = Status(lifecycle: Lifecycle, error: Option<Error>, detail: nat)

  const INITIAL := Status(Idle, None, 0)

  function Terminal(s: Status, error: Option<Error>): Status {
    if error.None? then s.(lifecycle := Stopped) else s.(lifecycle := Failure, error := error)
  }

  /** Stopped without an error, and failed with one, which the status carries. */
  predicate EndStatus(s: Status, finalErr: Option<Error>) {
    s.lifecycle == (if finalErr.None? then Stopped else Failure) && (finalErr.Some? ==> s.error == finalErr)
  }

  predicate IsTerminal(s: Status) { s.lifecycle.Stopped? || s.lifecycle.Failure? }

  type Message = nat

  datatype DeliverResult = Delivered | ContextEnded | SlowConsumer

  class State {
    const capacity: nat
    var messages: seq<Message>         // channel of this capacity
    var status: Status
    var statuses: seq<Status>          // channel of capacity one
    var closed: bool                   // the messages, statuses and done channels
    var started: bool
    var finished: bool
    var finalErr: Option<Error>

    ghost predicate Valid() reads this {
      && |messages| <= capacity
      && |statuses| <= 1
      && (statuses != [] ==> statuses[0] == status)
      && (finished <==> closed)
      && (finished ==> IsTerminal(status))
    }

    constructor (capacity: nat)
      ensures Valid() && this.capacity == capacity && messages == []
      ensures status == INITIAL && statuses == [INITIAL] && !started && !finished
    {
      this.capacity := capacity;
      messages, status, statuses, closed := [], INITIAL, [INITIAL], false;
      started, finished, finalErr := false, false, None;
    }

    /** The one-shot claim of Start. */
    method Begin() returns (ok: bool)
      modifies this`started
      ensures ok == !old(started) && started
    {
      ok := !started;
      started := true;
    }

    /** Stop's claim of an idle stream uses the same flag. */
    method StopBeforeStart() returns (claimed: bool)
      modifies this`started
      ensures claimed == !old(started) && started
    {
      if started {
        return false;
      }
      started := true;
      claimed := true;
    }

    /** A send that never blocks; the channel must not be closed, or the program panics. */
    method Deliver(m: Message, contextEnded: bool, preferRoom: bool) returns (r: DeliverResult)
      requires Valid() && !closed
      modifies this`messages
      ensures Valid()
      ensures messages == if r.Delivered? then old(messages) + [m] else old(messages)
      ensures r.ContextEnded? ==> contextEnded
      ensures r.SlowConsumer? <==> |old(messages)| == capacity && !contextEnded
    {
      if |messages| < capacity && (preferRoom || !contextEnded) {
        messages := messages + [m];
        r := Delivered;
      } else {
        r := if contextEnded then ContextEnded else SlowConsumer;
      }
    }

    /** Three non-blocking channel operations; a reader may drain the channel before the last two. */
    method PublishStatusLocked(drainedBefore: bool, drainedBetween: bool)
      requires |statuses| <= 1 && !closed
      modifies this`statuses
      ensures statuses == [status]
    {
      if statuses == [] {
        statuses := [status];
        return;
      }
      if drainedBefore { statuses := []; }
      if statuses != [] { statuses := []; }
      if drainedBetween { statuses := []; }
      if statuses == [] { statuses := [status]; }
    }

    method SetStatus(change: Status -> Status, a: bool, b: bool)
      requires Valid()
      modifies this`status, this`statuses
      ensures Valid()
      ensures finished ==> status == old(status) && statuses == old(statuses)
      ensures !finished ==> status == change(old(status)) && statuses == [status]
    {
      if finished { return; }
      status := change(status);
      PublishStatusLocked(a, b);
    }

    /** Only the first call runs its cleanup, whose error joins the terminal one, and closes the channels. */
    method Finish(terminal: Option<Error>, cleanup: Option<Error>, a: bool, b: bool)
      requires Valid()
      modifies this
      ensures Valid() && finished && closed
      ensures old(finished) ==> status == old(status) && finalErr == old(finalErr) && statuses == old(statuses)
      ensures !old(finished) ==> finalErr == Join(terminal, cleanup)
      ensures !old(finished) ==> status == Terminal(old(status), Join(terminal, cleanup)) && statuses == [status]
      ensures !old(finished) ==> EndStatus(status, finalErr)
      ensures !old(finished) && terminal.None? ==> finalErr == cleanup
      ensures !old(finished) && cleanup.None? ==> finalErr == terminal
      ensures started == old(started) && messages == old(messages)
    {
      if finished { return; }
      var joined := Join(terminal, cleanup);
      status := Terminal(status, joined);
      finalErr := joined;
      PublishStatusLocked(a, b);
      finished, closed := true, true;
    }
  }

  // Every interleaving of one publisher at a time with a reader.

  /** Where the goroutine holding the mutex is inside publishStatusLocked. */
  datatype Publisher =
    | Quiet
    | Sending(last: bool)
    | Draining(last: bool)
    | Resending(last: bool)
    | Sent(last: bool)
    | Ending                 // Finish, between closing the statuses channel and the done channel

  datatype Shared = Shared(
    status: Status,
    channel: seq<Status>,
    closed: bool,                // the statuses channel
    done: bool,                  // the done channel is closed
    finished: bool,
    finalErr: Option<Error>,
    publisher: Publisher,
    read: seq<Status>,           // what the reader has taken from the channel
    sentOnClosed: bool,
    returned: seq<Option<Error>>)    // results of completed Wait and Stop calls

  datatype Step =
    | BeginSet(status: Status)
    | BeginFinish(error: Option<Error>)
    | Publish
    | Read
    | WaitReturns

  function Init(): Shared {
    Shared(INITIAL, [INITIAL], false, false, false, None, Quiet, [], false, [])
  }

  predicate Enabled(s: Shared, a: Step) {
    match a
    case BeginSet(_) => s.publisher.Quiet?
    case BeginFinish(_) => s.publisher.Quiet? && !s.finished
    case Publish => !s.publisher.Quiet?
    case Read => s.channel != []
    case WaitReturns => s.done && s.publisher.Quiet?
  }

  function Offer(s: Shared, whenFull: Publisher): Shared
    requires !s.publisher.Quiet? && !s.publisher.Ending?
  {
    if s.channel == [] then
      s.(channel := [s.status], publisher := Sent(s.publisher.last), sentOnClosed := s.sentOnClosed || s.closed)
    else s.(publisher := whenFull)
  }

  function After(s: Shared, a: Step): Shared
    requires Enabled(s, a)
  {
    match a
    case BeginSet(status) => if s.finished then s else s.(status := status, publisher := Sending(false))
    case BeginFinish(error) =>
      s.(status := Terminal(s.status, error), finished := true, finalErr := error, publisher := Sending(true))
    case Publish =>
      (match s.publisher
       case Sending(last) => Offer(s, Draining(last))
       case Draining(last) => s.(channel := [], publisher := Resending(last))
       case Resending(last) => Offer(s, Sent(last))
       case Sent(last) => if last then s.(closed := true, publisher := Ending) else s.(publisher := Quiet)
       case Ending => s.(done := true, publisher := Quiet)
       case Quiet => s)
    case Read => s.(read := s.read + [s.channel[0]], channel := [])
    case WaitReturns => s.(returned := s.returned + [s.finalErr])
  }

  ghost predicate IsRun(s: Shared, steps: seq<Step>)
    decreases |steps|
  {
    steps == [] || (Enabled(s, steps[0]) && IsRun(After(s, steps[0]), steps[1..]))
  }

  function Run(s: Shared, steps: seq<Step>): Shared
    requires IsRun(s, steps)
    decreases |steps|
  {
    if steps == [] then s else Run(After(s, steps[0]), steps[1..])
  }

  /** What a reader has seen or will see next, in order. */
  function Seen(s: Shared): seq<Status> { s.read + s.channel }

  ghost predicate EndsWith(seen: seq<Status>, status: Status) {
    seen != [] && seen[|seen| - 1] == status
  }

  ghost predicate Inv(s: Shared) {
    && |s.channel| <= 1
    && (s.publisher.Quiet? || s.publisher.Sent? || s.publisher.Ending? ==> EndsWith(Seen(s), s.status))
    && (s.publisher.Resending? ==> s.channel == [])
    && (s.finished ==> IsTerminal(s.status) && EndStatus(s.status, s.finalErr))
    && (s.closed ==> s.finished && (s.publisher.Ending? || s.done))
    && (s.done ==> s.closed && s.publisher.Quiet?)
    && (s.publisher.Ending? ==> s.closed)
    && (!s.publisher.Quiet? && !s.publisher.Ending? ==> (s.publisher.last <==> s.finished))
    && (s.finished && s.publisher.Quiet? ==> s.done)
    && !s.sentOnClosed
    && (forall r :: r in s.returned ==> s.done && r == s.finalErr)
  }

  /** One step of the publisher. */
  lemma PublishKeepsInv(s: Shared)
    requires Inv(s) && Enabled(s, Publish)
    ensures Inv(After(s, Publish))
  {
    if s.publisher.Sending? || s.publisher.Resending? {
      assert s.channel == [] ==> EndsWith(s.read + [s.status], s.status);
    }
  }

  lemma StepKeepsInv(s: Shared, a: Step)
    requires Inv(s) && Enabled(s, a)
    ensures Inv(After(s, a))
  {
    match a
    case Publish => PublishKeepsInv(s);
    case Read => assert Seen(After(s, a)) == Seen(s);
    case _ =>
  }

  lemma {:induction false} RunKeepsInv(s: Shared, steps: seq<Step>)
    requires Inv(s) && IsRun(s, steps)
    ensures Inv(Run(s, steps))
    decreases |steps|
  {
    if steps != [] {
      StepKeepsInv(s, steps[0]);
      RunKeepsInv(After(s, steps[0]), steps[1..]);
    }
  }

  /**
   In every run: outside a publication the channel is empty or holds exactly the
   latest status, and if it is empty the reader already took that status; a
   reader draining a closed channel gets the terminal status last; nothing is
   sent on a closed channel; and all completed waits returned one value.
   */
  lemma StatusesCoalesce(steps: seq<Step>)
    requires IsRun(Init(), steps)
    ensures var s := Run(Init(), steps);
            && (s.publisher.Quiet? ==> s.channel == [] || s.channel == [s.status])
            && (s.publisher.Quiet? && s.channel == [] ==> EndsWith(s.read, s.status))
            && (s.closed ==> EndsWith(Seen(s), s.status) && EndStatus(s.status, s.finalErr))
            && !s.sentOnClosed && (s.closed ==> s.publisher.Ending? || s.publisher.Quiet?)
            && (forall i, j :: 0 <= i < |s.returned| && 0 <= j < |s.returned| ==> s.returned[i] == s.returned[j])
  {
    RunKeepsInv(Init(), steps);
    var s := Run(Init(), steps);
    assert s.channel == [] ==> Seen(s) == s.read;
    assert forall i :: 0 <= i < |s.returned| ==> s.returned[i] in s.returned;
  }

  lemma {:induction false} PublishingKeepsStatus(s: Shared, steps: seq<Step>)
    requires IsRun(s, steps) && forall a :: a in steps ==> a.Publish? || a.Read?
    ensures Run(s, steps).status == s.status
    decreases |steps|
  {
    if steps != [] {
      assert steps[0] in steps && After(s, steps[0]).status == s.status;
      PublishingKeepsStatus(After(s, steps[0]), steps[1..]);
    }
  }

  /** A status set on an unfinished stream is the last one a reader sees when its publication is over. */
  lemma SetStatusIsSeen(before: seq<Step>, st: Status, steps: seq<Step>)
    requires IsRun(Init(), before) && Run(Init(), before).publisher.Quiet? && !Run(Init(), before).finished
    requires forall a :: a in steps ==> a.Publish? || a.Read?
    requires IsRun(After(Run(Init(), before), BeginSet(st)), steps)
    requires Run(After(Run(Init(), before), BeginSet(st)), steps).publisher.Quiet?
    ensures EndsWith(Seen(Run(After(Run(Init(), before), BeginSet(st)), steps)), st)
  {
    var s := Run(Init(), before);
    RunKeepsInv(Init(), before);
    StepKeepsInv(s, BeginSet(st));
    RunKeepsInv(After(s, BeginSet(st)), steps);
    PublishingKeepsStatus(After(s, BeginSet(st)), steps);
  }

  /** `st` is the idle status of a new stream, was set in the run, or is the terminal one. */
  ghost predicate Announced(s: Shared, steps: seq<Step>, st: Status) {
    || (st.lifecycle.Idle? && st.error.None? && st == INITIAL)
    || BeginSet(st) in steps
    || (s.finished && st == s.status)
  }

  ghost predicate AllAnnounced(s: Shared, steps: seq<Step>) {
    && Announced(s, steps, s.status)
    && forall st :: st in Seen(s) ==> Announced(s, steps, st)
  }

  /** A step shows at most the status it finds, and keeps or sets that. */
  lemma StepShows(s: Shared, a: Step)
    requires Inv(s) && Enabled(s, a)
    ensures var s' := After(s, a);
            && (s.finished ==> s'.finished && s'.status == s.status)
            && (s'.status == s.status || a == BeginSet(s'.status) || s'.finished)
            && (forall st :: st in Seen(s') ==> st in Seen(s) || st == s.status)
  {
  }

  lemma StepAnnounces(s: Shared, before: seq<Step>, a: Step)
    requires Inv(s) && AllAnnounced(s, before) && Enabled(s, a)
    ensures AllAnnounced(After(s, a), before + [a])
  {
    StepShows(s, a);
    assert (before + [a])[|before|] == a;
    forall st | Announced(s, before, st) ensures Announced(After(s, a), before + [a], st) {
      assert BeginSet(st) in before ==> BeginSet(st) in before + [a];
    }
  }

  lemma {:induction false} RunAnnounces(s: Shared, before: seq<Step>, steps: seq<Step>)
    requires Inv(s) && AllAnnounced(s, before) && IsRun(s, steps)
    ensures AllAnnounced(Run(s, steps), before + steps)
    decreases |steps|
  {
    if steps == [] {
      assert before + steps == before;
    } else {
      StepAnnounces(s, before, steps[0]);
      StepKeepsInv(s, steps[0]);
      RunAnnounces(After(s, steps[0]), before + [steps[0]], steps[1..]);
      assert before + [steps[0]] + steps[1..] == before + steps;
    }
  }

  /** In every run a reader sees only the idle status, statuses that were set, and the terminal one. */
  lemma NoStatusIsInvented(steps: seq<Step>, st: Status)
    requires IsRun(Init(), steps) && st in Seen(Run(Init(), steps))
    ensures Announced(Run(Init(), steps), steps, st)
  {
    RunAnnounces(Init(), [], steps);
    assert [] + steps == steps;
  }

  /** Once finished, the status and the final error never change again. */
  lemma {:induction false} TerminalIsForever(s: Shared, steps: seq<Step>)
    requires s.finished && IsRun(s, steps)
    ensures Run(s, steps).finished && Run(s, steps).status == s.status && Run(s, steps).finalErr == s.finalErr
    decreases |steps|
  {
    if steps != [] { TerminalIsForever(After(s, steps[0]), steps[1..]); }
  }

  lemma {:induction false} RunExtends(s: Shared, steps: seq<Step>, a: Step)
    requires IsRun(s, steps) && Enabled(Run(s, steps), a)
    ensures IsRun(s, steps + [a]) && Run(s, steps + [a]) == After(Run(s, steps), a)
    decreases |steps|
  {
    if steps == [] {
      assert steps + [a] == [a];
      assert IsRun(After(s, a), [a][1..]);
    } else {
      RunExtends(After(s, steps[0]), steps[1..], a);
      assert (steps + [a])[1..] == steps[1..] + [a];
    }
  }

  /** The publication that the class runs in place is a run of the publisher, with the reader draining before it. */
  lemma PublicationIsRun(s: Shared, drainedBefore: bool) returns (steps: seq<Step>)
    requires s.publisher.Sending? && |s.channel| <= 1
    ensures forall a :: a in steps ==> a.Publish? || a.Read?
    ensures IsRun(s, steps) && Run(s, steps).publisher == Sent(s.publisher.last)
    ensures Run(s, steps).channel == [s.status]
    ensures Run(s, steps).read == if s.channel != [] && drainedBefore then s.read + s.channel else s.read
  {
    steps := [Publish];
    RunExtends(s, [], Publish);
    assert [] + [Publish] == steps;
    if s.channel != [] {
      steps := FullPublicationIsRun(After(s, Publish), drainedBefore);
      RunFrom(s, Publish, steps);
      steps := [Publish] + steps;
    }
  }

  lemma RunFrom(s: Shared, a: Step, steps: seq<Step>)
    requires Enabled(s, a) && IsRun(After(s, a), steps)
    ensures IsRun(s, [a] + steps) && Run(s, [a] + steps) == Run(After(s, a), steps)
  {
    assert ([a] + steps)[1..] == steps;
  }

  /** The same from the second of the three channel operations on. */
  lemma FullPublicationIsRun(s: Shared, drainedBefore: bool) returns (steps: seq<Step>)
    requires s.publisher.Draining? && |s.channel| == 1
    ensures forall a :: a in steps ==> a.Publish? || a.Read?
    ensures IsRun(s, steps) && Run(s, steps).publisher == Sent(s.publisher.last)
    ensures Run(s, steps).channel == [s.status]
    ensures Run(s, steps).read == if drainedBefore then s.read + s.channel else s.read
  {
    var s1 := if drainedBefore then After(s, Read) else s;
    var s2 := After(s1, Publish);
    var s3 := After(s2, Publish);
    assert s.channel == [s.channel[0]];
    assert IsRun(s3, []) && Run(s3, []) == s3;
    RunFrom(s2, Publish, []);
    RunFrom(s1, Publish, [Publish] + []);
    steps := [Publish] + ([Publish] + []);
    if drainedBefore {
      RunFrom(s, Read, steps);
      steps := [Read] + steps;
    }
  }
}

/**
 Which messages a stream passes on: every one it receives, in order, but for those
 whose delivery failed and ended the reading.
 */
module StreamMessages {
  import StreamState
  import opened StreamLifecycle
  import opened Wrappers

  type Message = StreamState.Message
  type Thread = StreamLifecycle.Thread
  type State = StreamLifecycle.State
  type Step = StreamLifecycle.Step

  /** What has been received and not refused, after one more step. */
  function Keep(kept: seq<Message>, a: Step): seq<Message> {
    match a
    case Of(_, Receives(m)) => kept + [m]
    case Of(_, SendFails(_)) => if kept == [] then [] else kept[..|kept| - 1]
    case _ => kept
  }

  function KeepAll(kept: seq<Message>, steps: seq<Step>): seq<Message>
    decreases |steps|
  {
    if steps == [] then kept else KeepAll(Keep(kept, steps[0]), steps[1..])
  }

  /** The message that the reading goroutine is about to send, if any. */
  ghost predicate InHand(s: State, hand: seq<Message>) {
    if exists id :: id in s.threads && s.threads[id].Delivering? then
      |hand| == 1 && forall id :: id in s.threads && s.threads[id].Delivering? ==> s.threads[id].message == hand[0]
    else hand == []
  }

  ghost predicate Passes(s: State, kept: seq<Message>, hand: seq<Message>) {
    InHand(s, hand) && kept == s.accepted + hand
  }

  /** With every other thread idle, only this one can have a message in hand. */
  lemma HandOf(s: State, id: ThreadId, hand: seq<Message>)
    requires OthersIdle(s.threads, id) && id in s.threads && InHand(s, hand)
    ensures hand == if s.threads[id].Delivering? then [s.threads[id].message] else []
  {
    if s.threads[id].Delivering? {
      assert s.threads[id].message == hand[0];
      assert hand == [hand[0]];
    }
  }

  lemma RunningPasses(c: Config, s: State, id: ThreadId, a: Action, kept: seq<Message>, hand: seq<Message>)
    returns (next: seq<Message>)
    requires Inv(c, s) && ActionEnabled(c, s, id, a) && !IsCall(a) && !IsFinish(a) && Passes(s, kept, hand)
    ensures Passes(AfterRunning(c, s, id, a), Keep(kept, Of(id, a)), next)
  {
    var moved := RunningMove(c, s, id, a);
    OwnersAlone(s, id);
    HandOf(s, id, hand);
    RunningAccepts(c, s, id, a);
    var t := RunningPlace(s.threads[id], s.cancelled, a);
    PlaceInHand(c, s, id, a);
    next := if t.Delivering? then [t.message] else [];
    MovedHand(s, id, t, AfterRunning(c, s, id, a), next);
    assert kept == s.accepted + hand;
    if a.Receives? {
      assert hand == [] && kept == s.accepted;
    } else if a.SendFails? {
      assert |hand| == 1 && kept[..|kept| - 1] == s.accepted;
    }
  }

  lemma RunningAccepts(c: Config, s: State, id: ThreadId, a: Action)
    requires ActionEnabled(c, s, id, a) && !IsCall(a) && !IsFinish(a)
    ensures id in s.threads
    ensures AfterRunning(c, s, id, a).threads == s.threads[id := RunningPlace(s.threads[id], s.cancelled, a)]
    ensures AfterRunning(c, s, id, a).accepted
         == s.accepted + if a.Sends? && s.threads[id].Delivering? then [s.threads[id].message] else []
  {
  }

  /** A message is taken in hand when it is received, and leaves it when it is sent or refused. */
  lemma PlaceInHand(c: Config, s: State, id: ThreadId, a: Action)
    requires ActionEnabled(c, s, id, a) && !IsCall(a) && !IsFinish(a) && id in s.threads
    ensures var t, next := s.threads[id], RunningPlace(s.threads[id], s.cancelled, a);
            && (a.Receives? ==> next == Delivering(a.message) && !t.Delivering?)
            && (a.Sends? || a.SendFails? ==> t.Delivering? && !next.Delivering?)
            && (!a.Receives? && !a.Sends? && !a.SendFails? && (t.Delivering? || next.Delivering?) ==> next == t)
  {
  }

  lemma MovedHand(s: State, id: ThreadId, t: Thread, s': State, next: seq<Message>)
    requires OthersIdle(s.threads, id) && s'.threads == s.threads[id := t]
    requires next == if t.Delivering? then [t.message] else []
    ensures InHand(s', next)
  {
    assert s'.threads[id] == t;
  }

  /** Calls and the finish have nothing to do with messages. */
  lemma CallPasses(c: Config, s: State, id: ThreadId, a: Action, kept: seq<Message>, hand: seq<Message>)
    requires ActionEnabled(c, s, id, a) && IsCall(a) && Passes(s, kept, hand)
    ensures Passes(AfterCall(c, s, id, a), kept, hand)
  {
    var s' := AfterCall(c, s, id, a);
    CallMovesOnly(c, s, id, a);
    CallLeavesMessages(c, s, id, a);
    assert id in s'.threads ==> !s'.threads[id].Delivering?;
    SameDelivering(s, s', id, hand);
  }

  lemma FinishPasses(c: Config, s: State, id: ThreadId, a: Action, kept: seq<Message>, hand: seq<Message>)
    requires ActionEnabled(c, s, id, a) && IsFinish(a) && Passes(s, kept, hand)
    ensures Passes(AfterFinish(c, s, id, a), kept, hand)
  {
    var s' := AfterFinish(c, s, id, a);
    FinishMovesOnly(c, s, id, a);
    FinishLeavesMessages(c, s, id, a);
    assert s' == AfterAction(c, s, id, a);
    SameDelivering(s, s', id, hand);
  }

  lemma SameDelivering(s: State, s': State, id: ThreadId, hand: seq<Message>)
    requires InHand(s, hand) && MovesOnly(s.threads, s'.threads, id)
    requires forall t :: t in s'.threads && t != id ==> t in s.threads
    requires id in s.threads ==> !s.threads[id].Delivering?
    requires id in s'.threads ==> !s'.threads[id].Delivering?
    ensures InHand(s', hand)
  {
    if t :| t in s.threads && s.threads[t].Delivering? {
      assert t in s'.threads && s'.threads[t].Delivering?;
    }
  }

  lemma StepPasses(c: Config, s: State, a: Step, kept: seq<Message>, hand: seq<Message>) returns (next: seq<Message>)
    requires Inv(c, s) && Enabled(c, s, a) && Passes(s, kept, hand)
    ensures Passes(After(c, s, a), Keep(kept, a), next)
  {
    next := hand;
    if a.Of? {
      if IsCall(a.a) {
        CallPasses(c, s, a.id, a.a, kept, hand);
      } else if IsFinish(a.a) {
        FinishPasses(c, s, a.id, a.a, kept, hand);
      } else {
        next := RunningPasses(c, s, a.id, a.a, kept, hand);
      }
    } else {
      assert After(c, s, a).threads == s.threads;
    }
  }

  lemma {:induction false} RunPasses(c: Config, s: State, steps: seq<Step>, kept: seq<Message>, hand: seq<Message>)
    returns (last: seq<Message>)
    requires Inv(c, s) && IsRun(c, s, steps) && Passes(s, kept, hand)
    ensures Passes(Run(c, s, steps), KeepAll(kept, steps), last)
    decreases |steps|
  {
    if steps == [] {
      last := hand;
    } else {
      var next := StepPasses(c, s, steps[0], kept, hand);
      StepKeepsInv(c, s, steps[0]);
      last := RunPasses(c, After(c, s, steps[0]), steps[1..], Keep(kept, steps[0]), next);
    }
  }

  /**
   In every run the messages that were received and not refused are exactly those
   the consumer took, those in the channel, and the one about to be sent, in order.
   */
  lemma ReceivedIsPassedOn(c: Config, steps: seq<Step>) returns (hand: seq<Message>)
    requires IsRun(c, Init(), steps)
    ensures var s := Run(c, Init(), steps);
            InHand(s, hand) && KeepAll([], steps) == s.consumed + s.messages + hand
  {
    hand := RunPasses(c, Init(), steps, [], []);
    RunKeepsInv(c, Init(), steps);
  }

  // A stream that is not ended serves.

  lemma Then(c: Config, s: State, a: Step, steps: seq<Step>)
    requires Enabled(c, s, a) && IsRun(c, After(c, s, a), steps)
    ensures IsRun(c, s, [a] + steps) && Run(c, s, [a] + steps) == Run(c, After(c, s, a), steps)
  {
    assert ([a] + steps)[1..] == steps;
  }

  lemma {:induction false} Join(c: Config, s: State, first: seq<Step>, second: seq<Step>)
    requires IsRun(c, s, first) && IsRun(c, Run(c, s, first), second)
    ensures IsRun(c, s, first + second) && Run(c, s, first + second) == Run(c, Run(c, s, first), second)
    decreases |first|
  {
    if first == [] {
      assert first + second == second;
    } else {
      var next := After(c, s, first[0]);
      Join(c, next, first[1..], second);
      Then(c, s, first[0], first[1..] + second);
      assert [first[0]] + (first[1..] + second) == first + second;
    }
  }

  /** A connection attempt can succeed, and what is received then reaches the consumer. */
  lemma ConnectionServes(c: Config, s: State, id: ThreadId, m: Message) returns (steps: seq<Step>)
    requires c.capacity >= 1 && s.messages == [] && s.shared.publisher.Quiet?
    requires id in s.threads && (s.threads[id].Connecting? || s.threads[id].Reconnecting?)
    ensures IsRun(c, s, steps)
    ensures var e := Run(c, s, steps);
            && e.consumed == s.consumed + [m] && e.messages == [] && id in e.threads && e.threads[id].Reading?
            && e.shared == s.shared && e.cancelled == s.cancelled
  {
    var s1 := After(c, s, Of(id, Connected));
    assert s1.threads[id] == Reading && s1.messages == [];
    var s2 := After(c, s1, Of(id, Receives(m)));
    assert s2.threads[id] == Delivering(m) && s2.messages == [];
    var s3 := After(c, s2, Of(id, Sends(None)));
    assert s3.threads[id] == Reading && s3.messages == [] + [m];
    var s4 := After(c, s3, ReadMessage);
    assert IsRun(c, s4, []) && Run(c, s4, []) == s4;
    Then(c, s3, ReadMessage, []);
    steps := [ReadMessage] + [];
    Then(c, s2, Of(id, Sends(None)), steps);
    steps := [Of(id, Sends(None))] + steps;
    Then(c, s1, Of(id, Receives(m)), steps);
    steps := [Of(id, Receives(m))] + steps;
    Then(c, s, Of(id, Connected), steps);
    steps := [Of(id, Connected)] + steps;
  }

  /** A reading stream whose connection ends can reconnect while its context lasts. */
  lemma Reconnects(c: Config, s: State, id: ThreadId) returns (steps: seq<Step>)
    requires !s.cancelled && id in s.threads && s.threads[id].Reading?
    ensures IsRun(c, s, steps)
    ensures var e := Run(c, s, steps);
            && id in e.threads && e.threads[id].Reconnecting? && e.messages == s.messages && e.consumed == s.consumed
            && e.shared == s.shared && e.cancelled == s.cancelled
  {
    var s1 := After(c, s, Of(id, ReadEnds(ToReconnect)));
    assert s1.threads[id] == Leaving(ToReconnect);
    var s2 := if s1.watcher.Some? then After(c, s1, WatcherStops) else s1;
    var s3 := After(c, s2, Of(id, Action.Left));
    assert IsRun(c, s3, []) && Run(c, s3, []) == s3;
    Then(c, s2, Of(id, Action.Left), []);
    steps := [Of(id, Action.Left)] + [];
    if s1.watcher.Some? {
      Then(c, s1, WatcherStops, steps);
      steps := [WatcherStops] + steps;
    }
    Then(c, s, Of(id, ReadEnds(ToReconnect)), steps);
    steps := [Of(id, ReadEnds(ToReconnect))] + steps;
  }

  /** Started once, a stream of either client can serve messages on one connection after another. */
  lemma StreamServes(c: Config, m: Message, n: Message) returns (steps: seq<Step>)
    requires c.capacity >= 1
    ensures IsRun(c, Init(), steps) && Run(c, Init(), steps).consumed == [m, n]
  {
    var s1 := After(c, Init(), Of(0, CallStart));
    var s2 := After(c, s1, Of(0, Begin));
    assert IsRun(c, s2, []) && Run(c, s2, []) == s2;
    Then(c, s1, Of(0, Begin), []);
    Then(c, Init(), Of(0, CallStart), [Of(0, Begin)] + []);
    steps := [Of(0, CallStart)] + ([Of(0, Begin)] + []);
    var more := ConnectionServes(c, s2, 0, m);
    Join(c, Init(), steps, more);
    steps := steps + more;
    more := Reconnects(c, Run(c, Init(), steps), 0);
    Join(c, Init(), steps, more);
    steps := steps + more;
    more := ConnectionServes(c, Run(c, Init(), steps), 0, n);
    Join(c, Init(), steps, more);
    steps := steps + more;
    assert [] + [m] + [n] == [m, n];
  }
}

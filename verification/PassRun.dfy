/**
 The reconcile pass that the transport object runs in place is a run of the
 reconcile loop's steps: the same commands, the same cache, the same end.
 */
module PassRun {
  import opened Registry
  import opened Reconciler
  import opened Transport

  /** Only steps of the loop's own pass. */
  ghost predicate OfPass(steps: seq<Step>) {
    forall a :: a in steps ==> a == Control(Snapshot) || a.Pass?
  }

  /** `steps` leads from `s` to `e` by the pass alone. */
  ghost predicate Leads(s: State, steps: seq<Step>, e: State) {
    IsRun(s, steps) && OfPass(steps) && Run(s, steps) == e
  }

  lemma LeadsOn(s: State, steps: seq<Step>, e: State, a: PassStep)
    requires Leads(s, steps, e) && PassEnabled(e, a)
    ensures Leads(s, steps + [Pass(a)], AfterPass(e, a))
  {
    ReachableStep(steps, s, Pass(a));
  }

  function Dids(log: seq<Command>): Log {
    if log == [] then [] else Dids(log[..|log| - 1]) + [Did(log[|log| - 1])]
  }

  lemma DidsGrow(log: seq<Command>, c: Command)
    ensures Dids(log + [c]) == Dids(log) + [Did(c)]
  {
    assert (log + [c])[..|log|] == log;
  }

  function Topics(log: seq<Command>): set<Topic> { set c | c in log :: c.topic }

  lemma TopicsGrow(log: seq<Command>, c: Command)
    ensures Topics(log + [c]) == Topics(log) + {c.topic}
  {
    assert forall d :: d in log + [c] <==> d in log || d == c;
  }

  ghost predicate TopicsDiffer(log: seq<Command>) {
    forall i, j :: 0 <= i < j < |log| ==> log[i].topic != log[j].topic
  }

  lemma {:induction false} Untouched(held: map<Topic, QoS>, log: seq<Command>, t: Topic)
    requires t !in Topics(log)
    ensures t in PerformAll(held, log) <==> t in held
    ensures t in held ==> PerformAll(held, log)[t] == held[t]
    decreases |log|
  {
    if log != [] {
      var n := |log| - 1;
      assert log[n] in log;
      assert t !in Topics(log[..n]);
      Untouched(held, log[..n], t);
    }
  }

  lemma {:induction false} PerformTwice(held: map<Topic, QoS>, a: seq<Command>, b: seq<Command>)
    ensures PerformAll(held, a + b) == PerformAll(PerformAll(held, a), b)
    ensures Dids(a + b) == Dids(a) + Dids(b)
    decreases |b|
  {
    if b == [] {
      assert a + b == a;
    } else {
      var n := |b| - 1;
      PerformTwice(held, a, b[..n]);
      assert (a + b)[..|a + b| - 1] == a + b[..n];
    }
  }

  // The loop after some commands of each half.

  function Subscribed(s: State, w: Waker, desired: map<Topic, QoS>, cmds: seq<Command>): State {
    s.(loop := Subscribing(w, desired, desired.Keys - Topics(cmds)),
       cache := PerformAll(s.cache, cmds), log := s.log + Dids(cmds))
  }

  function Unsubscribed(s: State, w: Waker, desired: map<Topic, QoS>, cmds: seq<Command>): State {
    s.(loop := Unsubscribing(w, desired, s.cache.Keys - desired.Keys - Topics(cmds)),
       cache := PerformAll(s.cache, cmds), log := s.log + Dids(cmds))
  }

  /** The broker's i-th answer is one it can give in state `s`. */
  ghost predicate AllPlausible(s: State, log: seq<Command>, answer: nat -> Reply, from: nat) {
    forall i :: 0 <= i < |log| ==> Plausible(s, log[i], answer(from + i))
  }

  ghost predicate AllTaken(log: seq<Command>, answer: nat -> Reply, from: nat) {
    forall i :: 0 <= i < |log| ==> Accepted(log[i], answer(from + i))
  }

  ghost predicate Subscribes(desired: map<Topic, QoS>, cache: map<Topic, QoS>, log: seq<Command>) {
    TopicsDiffer(log) && forall c :: c in log ==> c.Subscribe? && Needed(desired, cache, c)
  }

  ghost predicate Unsubscribes(desired: map<Topic, QoS>, cache: map<Topic, QoS>, log: seq<Command>) {
    TopicsDiffer(log) && forall c :: c in log ==> c.Unsubscribe? && Needed(desired, cache, c)
  }

  /** The last of some commands, apart from the others. */
  lemma LastCommand(desired: map<Topic, QoS>, cache: map<Topic, QoS>, cmds: seq<Command>)
    requires cmds != [] && TopicsDiffer(cmds) && forall c :: c in cmds ==> Needed(desired, cache, c)
    ensures var n := |cmds| - 1;
            && cmds[..n] + [cmds[n]] == cmds && TopicsDiffer(cmds[..n])
            && (forall c :: c in cmds[..n] ==> c in cmds)
            && cmds[n] in cmds && cmds[n].topic !in Topics(cmds[..n])
  {
  }

  lemma FrontAnswered(s: State, cmds: seq<Command>, answer: nat -> Reply, from: nat)
    requires cmds != [] && AllTaken(cmds, answer, from) && AllPlausible(s, cmds, answer, from)
    ensures var n := |cmds| - 1;
            && AllTaken(cmds[..n], answer, from) && AllPlausible(s, cmds[..n], answer, from)
            && Accepted(cmds[n], answer(from + n)) && Plausible(s, cmds[n], answer(from + n))
  {
    var front := cmds[..|cmds| - 1];
    forall i | 0 <= i < |front|
      ensures Accepted(front[i], answer(from + i)) && Plausible(s, front[i], answer(from + i))
    {
      assert front[i] == cmds[i];
    }
  }

  /** The next needed subscribe can be sent. */
  lemma CanSubscribe(s: State, w: Waker, desired: map<Topic, QoS>, cmds: seq<Command>, c: Command, reply: Reply)
    requires c.Subscribe? && Needed(desired, s.cache, c) && c.topic !in Topics(cmds)
    requires Plausible(s, c, reply)
    ensures PassEnabled(Subscribed(s, w, desired, cmds), SendSubscribe(c.topic, reply))
  {
    Untouched(s.cache, cmds, c.topic);
  }

  lemma SubscribeTwoSteps(s: State, w: Waker, desired: map<Topic, QoS>, cmds: seq<Command>, c: Command, reply: Reply)
    requires c.Subscribe? && Needed(desired, s.cache, c) && c.topic !in Topics(cmds)
    requires Plausible(s, c, reply) && ValidSuback(reply)
    ensures var e := Subscribed(s, w, desired, cmds);
            && PassEnabled(e, SendSubscribe(c.topic, reply))
            && PassEnabled(AfterSubscribe(e, c.topic, reply), RecordGrant)
            && AfterPass(AfterSubscribe(e, c.topic, reply), RecordGrant) == Subscribed(s, w, desired, cmds + [c])
  {
    CanSubscribe(s, w, desired, cmds, c, reply);
    TopicsGrow(cmds, c);
    DidsGrow(cmds, c);
    PerformAllGrows(s.cache, cmds, c);
    assert desired.Keys - Topics(cmds) - {c.topic} == desired.Keys - (Topics(cmds) + {c.topic});
    assert (s.log + Dids(cmds)) + [Did(c)] == s.log + (Dids(cmds) + [Did(c)]);
  }

  lemma SubscribeExtends(s0: State, s: State, w: Waker, desired: map<Topic, QoS>, cmds: seq<Command>, c: Command,
                         reply: Reply, before: seq<Step>)
    returns (steps: seq<Step>)
    requires Leads(s0, before, Subscribed(s, w, desired, cmds))
    requires c.Subscribe? && Needed(desired, s.cache, c) && c.topic !in Topics(cmds)
    requires Plausible(s, c, reply) && ValidSuback(reply)
    ensures Leads(s0, steps, Subscribed(s, w, desired, cmds + [c]))
  {
    SubscribeTwoSteps(s, w, desired, cmds, c, reply);
    var e := Subscribed(s, w, desired, cmds);
    LeadsOn(s0, before, e, SendSubscribe(c.topic, reply));
    steps := before + [Pass(SendSubscribe(c.topic, reply))];
    LeadsOn(s0, steps, AfterSubscribe(e, c.topic, reply), RecordGrant);
    steps := steps + [Pass(RecordGrant)];
  }

  lemma {:induction false} SubscribesRun(s0: State, s: State, w: Waker, desired: map<Topic, QoS>, cmds: seq<Command>,
                                         answer: nat -> Reply, before: seq<Step>)
    returns (steps: seq<Step>)
    requires Leads(s0, before, Subscribed(s, w, desired, []))
    requires Subscribes(desired, s.cache, cmds) && AllTaken(cmds, answer, 0) && AllPlausible(s, cmds, answer, 0)
    ensures Leads(s0, steps, Subscribed(s, w, desired, cmds))
    decreases |cmds|
  {
    if cmds == [] {
      steps := before;
    } else {
      var n := |cmds| - 1;
      var c, reply := cmds[n], answer(0 + n);
      LastCommand(desired, s.cache, cmds);
      FrontAnswered(s, cmds, answer, 0);
      steps := SubscribesRun(s0, s, w, desired, cmds[..n], answer, before);
      steps := SubscribeExtends(s0, s, w, desired, cmds[..n], c, reply, steps);
    }
  }

  /** Topics that are up to date are skipped, in any order. */
  lemma {:induction false} SkipsRun(s0: State, s: State, w: Waker, desired: map<Topic, QoS>, todo: set<Topic>,
                                    before: seq<Step>)
    returns (steps: seq<Step>)
    requires Leads(s0, before, s.(loop := Subscribing(w, desired, todo)))
    requires forall t :: t in todo ==> t in desired && t in s.cache && s.cache[t] == desired[t]
    ensures Leads(s0, steps, s.(loop := Subscribing(w, desired, {})))
    decreases |todo|
  {
    if todo == {} {
      steps := before;
    } else {
      var t :| t in todo;
      LeadsOn(s0, before, s.(loop := Subscribing(w, desired, todo)), Skip(t));
      assert todo == (todo - {t}) + {t};
      steps := SkipsRun(s0, s, w, desired, todo - {t}, before + [Pass(Skip(t))]);
    }
  }

  lemma UnsubscribeTwoSteps(s: State, w: Waker, desired: map<Topic, QoS>, cmds: seq<Command>, c: Command, reply: Reply)
    requires c.Unsubscribe? && Needed(desired, s.cache, c) && c.topic !in Topics(cmds)
    requires Plausible(s, c, reply) && ValidUnsuback(reply)
    ensures var e := Unsubscribed(s, w, desired, cmds);
            && PassEnabled(e, SendUnsubscribe(c.topic, reply))
            && PassEnabled(AfterUnsubscribe(e, c.topic, reply), RecordRevoke)
            && AfterPass(AfterUnsubscribe(e, c.topic, reply), RecordRevoke) == Unsubscribed(s, w, desired, cmds + [c])
  {
    TopicsGrow(cmds, c);
    DidsGrow(cmds, c);
    PerformAllGrows(s.cache, cmds, c);
    var stale := s.cache.Keys - desired.Keys;
    assert stale - Topics(cmds) - {c.topic} == stale - (Topics(cmds) + {c.topic});
    assert (s.log + Dids(cmds)) + [Did(c)] == s.log + (Dids(cmds) + [Did(c)]);
  }

  lemma UnsubscribeExtends(s0: State, s: State, w: Waker, desired: map<Topic, QoS>, cmds: seq<Command>, c: Command,
                         reply: Reply, before: seq<Step>)
    returns (steps: seq<Step>)
    requires Leads(s0, before, Unsubscribed(s, w, desired, cmds))
    requires c.Unsubscribe? && Needed(desired, s.cache, c) && c.topic !in Topics(cmds)
    requires Plausible(s, c, reply) && ValidUnsuback(reply)
    ensures Leads(s0, steps, Unsubscribed(s, w, desired, cmds + [c]))
  {
    UnsubscribeTwoSteps(s, w, desired, cmds, c, reply);
    var e := Unsubscribed(s, w, desired, cmds);
    LeadsOn(s0, before, e, SendUnsubscribe(c.topic, reply));
    steps := before + [Pass(SendUnsubscribe(c.topic, reply))];
    LeadsOn(s0, steps, AfterUnsubscribe(e, c.topic, reply), RecordRevoke);
    steps := steps + [Pass(RecordRevoke)];
  }

  lemma {:induction false} UnsubscribesRun(s0: State, s: State, w: Waker, desired: map<Topic, QoS>, cmds: seq<Command>,
                                           answer: nat -> Reply, from: nat, before: seq<Step>)
    returns (steps: seq<Step>)
    requires Leads(s0, before, Unsubscribed(s, w, desired, []))
    requires Unsubscribes(desired, s.cache, cmds) && AllTaken(cmds, answer, from) && AllPlausible(s, cmds, answer, from)
    ensures Leads(s0, steps, Unsubscribed(s, w, desired, cmds))
    decreases |cmds|
  {
    if cmds == [] {
      steps := before;
    } else {
      var n := |cmds| - 1;
      var c, reply := cmds[n], answer(from + n);
      LastCommand(desired, s.cache, cmds);
      FrontAnswered(s, cmds, answer, from);
      steps := UnsubscribesRun(s0, s, w, desired, cmds[..n], answer, from, before);
      steps := UnsubscribeExtends(s0, s, w, desired, cmds[..n], c, reply, steps);
    }
  }

  // Putting a pass together.

  lemma {:induction false} SplitLog(log: seq<Command>) returns (k: nat)
    requires SubscribesFirst(log)
    ensures k <= |log| && forall c :: c in log[..k] ==> c.Subscribe?
    ensures forall c :: c in log[k..] ==> c.Unsubscribe?
    decreases |log|
  {
    if log == [] || log[|log| - 1].Unsubscribe? == false {
      k := |log|;
      forall c | c in log ensures c.Subscribe? {
        var i :| 0 <= i < |log| && log[i] == c;
      }
    } else {
      var n := |log| - 1;
      k := SplitLog(log[..n]);
      assert log[k..] == log[..n][k..] + [log[n]];
      assert log[..k] == log[..n][..k];
    }
  }

  /** Distinct needed commands of one kind name distinct topics. */
  lemma DistinctTopics(desired: map<Topic, QoS>, before: map<Topic, QoS>, log: seq<Command>)
    requires WellIssued(desired, before, log)
    requires (forall c :: c in log ==> c.Subscribe?) || (forall c :: c in log ==> c.Unsubscribe?)
    ensures TopicsDiffer(log)
  {
    forall i, j | 0 <= i < j < |log| ensures log[i].topic != log[j].topic {
      assert log[i] in log && log[j] in log;
      assert Needed(desired, before, log[i]) && Needed(desired, before, log[j]);
    }
  }

  /** The loop after its snapshot and some acknowledged subscribes. */
  lemma FirstHalf(s: State, w: Waker, cmds: seq<Command>, answer: nat -> Reply) returns (steps: seq<Step>)
    requires s.loop == Starting(w)
    requires Subscribes(Desired(s.subs), s.cache, cmds) && AllTaken(cmds, answer, 0) && AllPlausible(s, cmds, answer, 0)
    ensures Leads(s, steps, Subscribed(s, w, Desired(s.subs), cmds))
  {
    var desired := Desired(s.subs);
    var e := Subscribed(s, w, desired, []);
    assert Topics([]) == {} && desired.Keys - {} == desired.Keys && s.log + [] == s.log;
    assert AfterControl(s, Snapshot) == e;
    assert IsRun(s, []) && Run(s, []) == s;
    ReachableStep([], s, Control(Snapshot));
    assert [] + [Control(Snapshot)] == [Control(Snapshot)];
    assert Leads(s, [Control(Snapshot)], e);
    steps := SubscribesRun(s, s, w, desired, cmds, answer, [Control(Snapshot)]);
  }

  /** The state with the effect of acknowledged commands and the loop at `l`. */
  function Done(s: State, cmds: seq<Command>, l: Loop): State {
    s.(cache := PerformAll(s.cache, cmds), log := s.log + Dids(cmds), loop := l)
  }

  /** With every needed subscribe acknowledged, the loop gets to the stale topics. */
  lemma Middle(s: State, w: Waker, cmds: seq<Command>, before: seq<Step>) returns (steps: seq<Step>)
    requires var desired := Desired(s.subs);
             && Leads(s, before, Subscribed(s, w, desired, cmds))
             && Subscribes(desired, s.cache, cmds)
             && forall c :: Needed(desired, s.cache, c) && c.Subscribe? ==> c in cmds
    ensures Leads(s, steps, Unsubscribed(Done(s, cmds, Idle), w, Desired(s.subs), []))
  {
    var desired := Desired(s.subs);
    var m := Done(s, cmds, Idle);
    var todo := desired.Keys - Topics(cmds);
    forall t | t in todo ensures t in m.cache && m.cache[t] == desired[t] {
      Untouched(s.cache, cmds, t);
      var c := Subscribe(t, desired[t]);
      assert c in cmds ==> c.topic in Topics(cmds);
    }
    steps := SkipsRun(s, m, w, desired, todo, before);
    LeadsOn(s, steps, m.(loop := Subscribing(w, desired, {})), FinishSubscribes);
    steps := steps + [Pass(FinishSubscribes)];
    var stale := m.cache.Keys - desired.Keys;
    assert Topics([]) == {} && stale - {} == stale && m.log + [] == m.log;
  }

  /** Subscribing touches no stale topic. */
  lemma StaleStaysNeeded(desired: map<Topic, QoS>, cache: map<Topic, QoS>, subs: seq<Command>, c: Command)
    requires Subscribes(desired, cache, subs) && c.Unsubscribe?
    ensures Needed(desired, PerformAll(cache, subs), c) <==> Needed(desired, cache, c)
  {
    if c.topic !in desired {
      assert c.topic !in Topics(subs);
      Untouched(cache, subs, c.topic);
    }
  }

  /** Where the step system is after a pass, in terms of what the method reports. */
  function PassEnd(s: State, w: Waker, result: PassResult, acks: seq<Command>): State {
    Done(s, acks,
         match result
         case Completed => Replying(w, true)
         case Refused(c, reply) =>
           if c.Subscribe? && !IsDown(reply) then Failing(w, c.topic) else Replying(w, false))
      .(retry := result.Refused? && result.command.Unsubscribe? && !IsDown(result.reply))
  }

  /** What ReconcileBroker promises about its log, on a cache and a registry. */
  ghost predicate PassContract(subs: Subscriptions, cache: map<Topic, QoS>, result: PassResult, log: seq<Command>,
                               answer: nat -> Reply) {
    && WellIssued(Desired(subs), cache, log)
    && SubscribesDone(Desired(subs), cache, log)
    && (result.Completed? ==> forall c :: Needed(Desired(subs), cache, c) ==> c in log)
    && RefusedLast(result, log, answer) && AllAccepted(Acknowledged(result, log), answer)
  }

  /** A refused subscribe comes after subscribes only, and names a topic of its own. */
  lemma OnlySubscribes(s: State, result: PassResult, log: seq<Command>, answer: nat -> Reply)
    requires PassContract(s.subs, s.cache, result, log, answer) && result.Refused? && result.command.Subscribe?
    ensures log == Acknowledged(result, log) + [result.command]
    ensures Subscribes(Desired(s.subs), s.cache, Acknowledged(result, log))
    ensures Needed(Desired(s.subs), s.cache, result.command)
    ensures result.command.topic !in Topics(Acknowledged(result, log))
  {
    var n := |log| - 1;
    forall d | d in log ensures d.Subscribe? {
      var i :| 0 <= i < |log| && log[i] == d;
    }
    DistinctTopics(Desired(s.subs), s.cache, log);
    assert forall d :: d in log[..n] ==> d in log;
    assert log[n] in log;
  }

  lemma AcksAnswered(s: State, result: PassResult, log: seq<Command>, answer: nat -> Reply)
    requires PassContract(s.subs, s.cache, result, log, answer) && AllPlausible(s, log, answer, 0)
    ensures AllTaken(Acknowledged(result, log), answer, 0) && AllPlausible(s, Acknowledged(result, log), answer, 0)
    ensures result.Refused? ==> Plausible(s, result.command, result.reply)
  {
    var acks := Acknowledged(result, log);
    forall i | 0 <= i < |acks| ensures Accepted(acks[i], answer(0 + i)) {
      assert acks[i] == log[i] && answer(0 + i) == answer(i);
    }
    if result.Refused? {
      assert log[|log| - 1] == result.command && answer(0 + (|log| - 1)) == result.reply;
    }
  }

  lemma RefusedSubscribeEnds(s: State, w: Waker, acks: seq<Command>, c: Command, reply: Reply)
    requires c.Subscribe? && !ValidSuback(reply)
    requires PassEnabled(Subscribed(s, w, Desired(s.subs), acks), SendSubscribe(c.topic, reply))
    ensures AfterPass(Subscribed(s, w, Desired(s.subs), acks), SendSubscribe(c.topic, reply))
         == PassEnd(s, w, Refused(c, reply), acks)
  {
  }

  lemma RefusedSubscribeRun(s: State, w: Waker, result: PassResult, log: seq<Command>, answer: nat -> Reply)
    returns (steps: seq<Step>)
    requires s.loop == Starting(w) && PassContract(s.subs, s.cache, result, log, answer)
    requires result.Refused? && result.command.Subscribe? && AllPlausible(s, log, answer, 0)
    ensures Leads(s, steps, PassEnd(s, w, result, Acknowledged(result, log)))
  {
    var acks, c, reply := Acknowledged(result, log), result.command, result.reply;
    OnlySubscribes(s, result, log, answer);
    AcksAnswered(s, result, log, answer);
    steps := FirstHalf(s, w, acks, answer);
    CanSubscribe(s, w, Desired(s.subs), acks, c, reply);
    LeadsOn(s, steps, Subscribed(s, w, Desired(s.subs), acks), SendSubscribe(c.topic, reply));
    RefusedSubscribeEnds(s, w, acks, c, reply);
    steps := steps + [Pass(SendSubscribe(c.topic, reply))];
  }

  /** Both halves of the acknowledged commands, when every needed subscribe is among them. */
  lemma BothHalves(s: State, w: Waker, subs: seq<Command>, unsubs: seq<Command>, answer: nat -> Reply)
    returns (steps: seq<Step>)
    requires s.loop == Starting(w)
    requires var desired := Desired(s.subs);
             && Subscribes(desired, s.cache, subs) && Unsubscribes(desired, s.cache, unsubs)
             && forall c :: Needed(desired, s.cache, c) && c.Subscribe? ==> c in subs
    requires AllTaken(subs, answer, 0) && AllPlausible(s, subs, answer, 0)
    requires AllTaken(unsubs, answer, |subs|) && AllPlausible(s, unsubs, answer, |subs|)
    ensures Leads(s, steps, Unsubscribed(Done(s, subs, Idle), w, Desired(s.subs), unsubs))
  {
    var desired := Desired(s.subs);
    steps := FirstHalf(s, w, subs, answer);
    steps := Middle(s, w, subs, steps);
    var m := Done(s, subs, Idle);
    forall c | c in unsubs ensures Needed(desired, m.cache, c) {
      StaleStaysNeeded(desired, s.cache, subs, c);
    }
    steps := UnsubscribesRun(s, m, w, desired, unsubs, answer, |subs|, steps);
  }

  /** The acknowledged commands of such a pass, in halves. */
  lemma Halves(desired: map<Topic, QoS>, cache: map<Topic, QoS>, acks: seq<Command>)
    returns (subs: seq<Command>, unsubs: seq<Command>)
    requires WellIssued(desired, cache, acks)
    ensures acks == subs + unsubs
    ensures Subscribes(desired, cache, subs) && Unsubscribes(desired, cache, unsubs)
    ensures forall c :: c in acks && c.Subscribe? ==> c in subs
    ensures forall c :: c in acks && c.Unsubscribe? ==> c in unsubs
  {
    var k := SplitLog(acks);
    subs, unsubs := acks[..k], acks[k..];
    assert acks == subs + unsubs;
    assert forall c :: c in subs || c in unsubs ==> c in acks;
    DistinctTopics(desired, cache, subs);
    DistinctTopics(desired, cache, unsubs);
  }

  lemma HalvesAnswered(s: State, acks: seq<Command>, subs: seq<Command>, unsubs: seq<Command>, answer: nat -> Reply)
    requires acks == subs + unsubs && AllTaken(acks, answer, 0) && AllPlausible(s, acks, answer, 0)
    ensures AllTaken(subs, answer, 0) && AllPlausible(s, subs, answer, 0)
    ensures AllTaken(unsubs, answer, |subs|) && AllPlausible(s, unsubs, answer, |subs|)
  {
    forall i | 0 <= i < |subs| ensures Accepted(subs[i], answer(i)) && Plausible(s, subs[i], answer(i)) {
      assert subs[i] == acks[i];
    }
    forall i | 0 <= i < |unsubs|
      ensures Accepted(unsubs[i], answer(|subs| + i)) && Plausible(s, unsubs[i], answer(|subs| + i))
    {
      assert unsubs[i] == acks[|subs| + i];
      assert answer(0 + (|subs| + i)) == answer(|subs| + i);
    }
  }

  lemma FrontWellIssued(desired: map<Topic, QoS>, before: map<Topic, QoS>, log: seq<Command>, n: nat)
    requires WellIssued(desired, before, log) && n <= |log|
    ensures WellIssued(desired, before, log[..n])
  {
    forall c | c in log[..n] ensures Needed(desired, before, c) {
      assert c in log;
    }
  }

  /** A refused unsubscribe is no needed subscribe, so those are among the acknowledged commands. */
  lemma FrontSubscribed(desired: map<Topic, QoS>, before: map<Topic, QoS>, log: seq<Command>)
    requires SubscribesDone(desired, before, log) && log != [] && log[|log| - 1].Unsubscribe?
    ensures AllSubscribed(desired, before, log[..|log| - 1])
  {
    var n := |log| - 1;
    assert log[n] in log;
    forall c | Needed(desired, before, c) && c.Subscribe? ensures c in log[..n] {
      var i :| 0 <= i < |log| && log[i] == c;
      assert log[..n][i] == c;
    }
  }

  /** The acknowledged commands of a pass that got to the stale topics. */
  lemma AcksOfPass(s: State, result: PassResult, log: seq<Command>, answer: nat -> Reply)
    requires PassContract(s.subs, s.cache, result, log, answer)
    requires result.Refused? ==> result.command.Unsubscribe?
    ensures var acks := Acknowledged(result, log);
            && WellIssued(Desired(s.subs), s.cache, acks) && AllSubscribed(Desired(s.subs), s.cache, acks)
            && (result.Refused? ==> log == acks + [result.command])
  {
    if result.Refused? {
      FrontWellIssued(Desired(s.subs), s.cache, log, |log| - 1);
      FrontSubscribed(Desired(s.subs), s.cache, log);
      assert log == log[..|log| - 1] + [log[|log| - 1]];
    }
  }

  /** The stale topics not yet unsubscribed, after both halves. */
  function StaleLeft(s: State, subs: seq<Command>, unsubs: seq<Command>): set<Topic> {
    PerformAll(s.cache, subs).Keys - Desired(s.subs).Keys - Topics(unsubs)
  }

  lemma BothHalvesEnd(s: State, w: Waker, subs: seq<Command>, unsubs: seq<Command>)
    ensures Unsubscribed(Done(s, subs, Idle), w, Desired(s.subs), unsubs)
         == Done(s, subs + unsubs, Unsubscribing(w, Desired(s.subs), StaleLeft(s, subs, unsubs)))
  {
    PerformTwice(s.cache, subs, unsubs);
    assert (s.log + Dids(subs)) + Dids(unsubs) == s.log + (Dids(subs) + Dids(unsubs));
  }

  lemma NothingStaleLeft(s: State, subs: seq<Command>, unsubs: seq<Command>)
    requires Subscribes(Desired(s.subs), s.cache, subs)
    requires forall c :: Needed(Desired(s.subs), s.cache, c) && c.Unsubscribe? ==> c in unsubs
    ensures StaleLeft(s, subs, unsubs) == {}
  {
    forall t | t in PerformAll(s.cache, subs) && t !in Desired(s.subs) ensures t in Topics(unsubs) {
      var c := Unsubscribe(t);
      StaleStaysNeeded(Desired(s.subs), s.cache, subs, c);
      assert c in unsubs && c.topic == t;
    }
  }

  lemma CompletedRun(s: State, w: Waker, log: seq<Command>, answer: nat -> Reply) returns (steps: seq<Step>)
    requires s.loop == Starting(w) && PassContract(s.subs, s.cache, Completed, log, answer)
    requires AllPlausible(s, log, answer, 0)
    ensures Leads(s, steps, PassEnd(s, w, Completed, log))
  {
    AcksOfPass(s, Completed, log, answer);
    AcksAnswered(s, Completed, log, answer);
    var subs, unsubs := Halves(Desired(s.subs), s.cache, log);
    HalvesAnswered(s, log, subs, unsubs, answer);
    steps := BothHalves(s, w, subs, unsubs, answer);
    BothHalvesEnd(s, w, subs, unsubs);
    NothingStaleLeft(s, subs, unsubs);
    var e := Done(s, log, Unsubscribing(w, Desired(s.subs), {}));
    LeadsOn(s, steps, e, FinishPass);
    steps := steps + [Pass(FinishPass)];
  }

  /** The refused unsubscribe names a stale topic that is still to be visited. */
  lemma StillStale(s: State, log: seq<Command>, subs: seq<Command>, unsubs: seq<Command>, c: Command)
    requires WellIssued(Desired(s.subs), s.cache, log) && log == subs + unsubs + [c] && c.Unsubscribe?
    requires Subscribes(Desired(s.subs), s.cache, subs) && Unsubscribes(Desired(s.subs), s.cache, unsubs)
    ensures c.topic in StaleLeft(s, subs, unsubs)
  {
    assert log[|log| - 1] == c && c in log;
    StaleStaysNeeded(Desired(s.subs), s.cache, subs, c);
    forall d | d in unsubs ensures d.topic != c.topic {
      var i :| 0 <= i < |unsubs| && unsubs[i] == d;
      assert log[|subs| + i] == d;
    }
  }

  lemma RefusedUnsubscribeRun(s: State, w: Waker, result: PassResult, log: seq<Command>, answer: nat -> Reply)
    returns (steps: seq<Step>)
    requires s.loop == Starting(w) && PassContract(s.subs, s.cache, result, log, answer)
    requires result.Refused? && result.command.Unsubscribe? && AllPlausible(s, log, answer, 0)
    ensures Leads(s, steps, PassEnd(s, w, result, Acknowledged(result, log)))
  {
    var acks, c, reply := Acknowledged(result, log), result.command, result.reply;
    AcksOfPass(s, result, log, answer);
    AcksAnswered(s, result, log, answer);
    var subs, unsubs := Halves(Desired(s.subs), s.cache, acks);
    HalvesAnswered(s, acks, subs, unsubs, answer);
    steps := BothHalves(s, w, subs, unsubs, answer);
    BothHalvesEnd(s, w, subs, unsubs);
    StillStale(s, log, subs, unsubs, c);
    var e := Done(s, acks, Unsubscribing(w, Desired(s.subs), StaleLeft(s, subs, unsubs)));
    LeadsOn(s, steps, e, SendUnsubscribe(c.topic, reply));
    steps := steps + [Pass(SendUnsubscribe(c.topic, reply))];
  }

  /**
   An undisturbed pass of the transport object, on answers the broker can give,
   is a run of the loop's steps from its start to its end, with the same
   acknowledged commands, cache and retry timer, and with the topic failed that
   handleResult fails.
   */
  lemma PassIsRun(s: State, w: Waker, result: PassResult, log: seq<Command>, answer: nat -> Reply)
    returns (steps: seq<Step>)
    requires s.loop == Starting(w) && PassContract(s.subs, s.cache, result, log, answer)
    requires AllPlausible(s, log, answer, 0)
    ensures Leads(s, steps, PassEnd(s, w, result, Acknowledged(result, log)))
  {
    if result.Completed? {
      steps := CompletedRun(s, w, log, answer);
    } else if result.command.Subscribe? {
      steps := RefusedSubscribeRun(s, w, result, log, answer);
    } else {
      steps := RefusedUnsubscribeRun(s, w, result, log, answer);
    }
  }

  /** The method meets that contract, and its cache is the one the run ends with. */
  method ReconcileAsRun(t: Transport, answer: nat -> Reply, ghost s: State, ghost w: Waker)
    returns (result: PassResult, log: seq<Command>, ghost steps: seq<Step>)
    requires t.Valid() && s.subs == t.subscriptions && s.cache == t.broker && s.loop == Starting(w)
    requires forall c, i :: Plausible(s, c, answer(i))
    modifies t`broker, t`retry
    ensures Leads(s, steps, PassEnd(s, w, result, Acknowledged(result, log)))
    ensures t.broker == Run(s, steps).cache && t.retry == Run(s, steps).retry
  {
    result, log := t.ReconcileBroker(answer);
    steps := PassIsRun(s, w, result, log, answer);
    var fail := t.HandleResult(result);
  }
}

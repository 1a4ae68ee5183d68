/**
 What a successful Subscribe means to its caller: the broker session holds the
 topic at no less than the requested QoS, unless the session has been replaced.
 */
module Serving {
  import opened Registry
  import opened Reconciler
  import opened Wrappers

  predicate Covers(held: map<Topic, QoS>, item: Item) {
    item.topic in held && held[item.topic] >= item.qos
  }

  /** A waiting Subscribe has created its object, so nobody registers that object again. */
  ghost predicate WaitsAreCreated(calls: map<nat, Call>, created: set<Item>) {
    forall id :: id in calls && (calls[id].Submitting? || calls[id].Awaiting?) ==> calls[id].item in created
  }

  /** `held` covers the Subscribe that `w` stands for, if its object is still registered. */
  predicate ServedBy(w: Waker, held: map<Topic, QoS>, calls: map<nat, Call>, subs: Subscriptions) {
    && w.Operation? && w.id in calls && calls[w.id].Awaiting?
    && calls[w.id].item in Registered(subs, calls[w.id].item.topic)
    ==> Covers(held, calls[w.id].item)
  }

  /** What the operation being served can rely on: the snapshot, and the cache once the pass succeeds. */
  function Promised(l: Loop, cache: map<Topic, QoS>): Option<map<Topic, QoS>> {
    match l
    case Subscribing(_, desired, _) => Some(desired)
    case Granted(_, desired, _, _) => Some(desired)
    case Unsubscribing(_, desired, _) => Some(desired)
    case Revoked(_, desired, _, _) => Some(desired)
    case Replying(_, ok) => if ok then Some(cache) else None
    case _ => None
  }

  predicate Served(s: State) {
    Promised(s.loop, s.cache).Some? ==> ServedBy(s.loop.w, Promised(s.loop, s.cache).value, s.calls, s.subs)
  }

  ghost predicate ServingInv(s: State) {
    WaitsAreCreated(s.calls, s.created) && Served(s)
  }

  lemma CallerKeepsLoop(s: State, id: nat, c: CallerStep)
    requires CallerEnabled(s, id, c)
    ensures AfterCaller(s, id, c).loop == s.loop && AfterCaller(s, id, c).cache == s.cache
  {
  }

  /** Another caller registers only objects of its own. */
  lemma RegisterKeepsServed(s: State, id: nat, item: Item)
    requires ServingInv(s) && CallerEnabled(s, id, Register(item))
    ensures ServingInv(AfterCaller(s, id, Register(item)))
  {
    CallerKeepsLoop(s, id, Register(item));
  }

  /** The other steps register nothing and put no call back to waiting. */
  lemma OtherKeepsWaits(s: State, id: nat, c: CallerStep)
    requires CallerEnabled(s, id, c) && !c.Register?
    ensures AfterCaller(s, id, c).created == s.created
    ensures OnlyEnds(s.calls, AfterCaller(s, id, c).calls)
  {
  }

  ghost predicate OnlyEnds(calls: map<nat, Call>, calls': map<nat, Call>) {
    forall j :: j in calls' && (calls'[j].Submitting? || calls'[j].Awaiting?) ==> j in calls && calls[j] == calls'[j]
  }

  lemma OtherRegistersNothing(s: State, id: nat, c: CallerStep, t: Topic)
    requires CallerEnabled(s, id, c) && !c.Register?
    ensures Registered(AfterCaller(s, id, c).subs, t) <= Registered(s.subs, t)
  {
  }

  lemma CallerKeepsServed(s: State, id: nat, c: CallerStep)
    requires ServingInv(s) && CallerEnabled(s, id, c)
    ensures ServingInv(AfterCaller(s, id, c))
  {
    if c.Register? {
      RegisterKeepsServed(s, id, c.item);
    } else {
      CallerKeepsLoop(s, id, c);
      OtherKeepsWaits(s, id, c);
      forall t ensures Registered(AfterCaller(s, id, c).subs, t) <= Registered(s.subs, t) {
        OtherRegistersNothing(s, id, c, t);
      }
    }
  }

  lemma SnapshotServes(subs: Subscriptions, w: Waker, calls: map<nat, Call>)
    requires WellFormed(subs)
    ensures ServedBy(w, Desired(subs), calls, subs)
  {
    if w.Operation? && w.id in calls && calls[w.id].Awaiting? && calls[w.id].item.topic in subs {
      HighestIsMaximum(subs[calls[w.id].item.topic]);
    }
  }

  lemma ControlKeepsWaits(s: State, c: ControlStep)
    requires WaitsAreCreated(s.calls, s.created) && ControlEnabled(s, c)
    ensures WaitsAreCreated(AfterControl(s, c).calls, AfterControl(s, c).created)
  {
  }

  /** Only a snapshot makes a promise; the other steps outside a pass withdraw it. */
  lemma ControlPromises(s: State, c: ControlStep)
    requires ControlEnabled(s, c)
    ensures var s' := AfterControl(s, c);
            if c.Snapshot? then
              s'.loop.Subscribing? && s'.loop.desired == Desired(s.subs) && s'.calls == s.calls && s'.subs == s.subs
            else Promised(s'.loop, s'.cache) == None
  {
  }

  lemma ControlKeepsServed(s: State, c: ControlStep)
    requires Inv(s) && ServingInv(s) && ControlEnabled(s, c)
    ensures ServingInv(AfterControl(s, c))
  {
    ControlKeepsWaits(s, c);
    ControlPromises(s, c);
    if c.Snapshot? { SnapshotServes(s.subs, AfterControl(s, c).loop.w, s.calls); }
  }

  lemma PassKeepsCreated(s: State, p: PassStep)
    requires PassEnabled(s, p) && !IsSend(p)
    ensures AfterPass(s, p).calls == s.calls && AfterPass(s, p).created == s.created
  {
  }

  lemma LocalKeepsServed(s: State, p: PassStep)
    requires Inv(s) && ServingInv(s) && PassEnabled(s, p) && !IsSend(p)
    ensures ServingInv(AfterPass(s, p))
  {
    PassKeepsCreated(s, p);
    LocalKeepsRegistry(s, p);
    if p.FinishPass? { FinishedPassAgrees(s); }
  }

  lemma SubscribeKeepsServed(s: State, t: Topic, reply: Registry.Reply)
    requires ServingInv(s) && PassEnabled(s, SendSubscribe(t, reply))
    ensures ServingInv(AfterSubscribe(s, t, reply))
  {
  }

  lemma UnsubscribeKeepsServed(s: State, t: Topic, reply: Registry.Reply)
    requires ServingInv(s) && PassEnabled(s, SendUnsubscribe(t, reply))
    ensures ServingInv(AfterUnsubscribe(s, t, reply))
  {
  }

  lemma StepKeepsServing(s: State, a: Step)
    requires Inv(s) && ServingInv(s) && Enabled(s, a)
    ensures ServingInv(After(s, a))
  {
    match a
    case Caller(id, c) => CallerKeepsServed(s, id, c);
    case Control(c) => ControlKeepsServed(s, c);
    case Pass(SendSubscribe(t, reply)) => SubscribeKeepsServed(s, t, reply);
    case Pass(SendUnsubscribe(t, reply)) => UnsubscribeKeepsServed(s, t, reply);
    case Pass(p) => LocalKeepsServed(s, p);
    case _ =>
  }

  lemma {:induction false} RunKeepsServing(s: State, steps: seq<Step>)
    requires Inv(s) && ServingInv(s) && IsRun(s, steps)
    ensures ServingInv(Run(s, steps))
    decreases |steps|
  {
    if steps != [] {
      StepKeepsInv(s, steps[0]);
      StepKeepsServing(s, steps[0]);
      RunKeepsServing(After(s, steps[0]), steps[1..]);
    }
  }

  /** The loop is about to tell Subscribe call `id` that it succeeded. */
  predicate Succeeds(s: State, id: nat) {
    s.loop == Replying(Operation(id), true) && id in s.calls && s.calls[id].Awaiting?
  }

  /**
   In every run, when Subscribe succeeds and its object is still registered, the
   session holds the topic at no less than the requested QoS, unless a new
   connection has posted its reconnect token in the meantime.
   */
  lemma SubscribeSuccessMeansHeld(s: State, id: nat)
    requires Reachable(s) && Succeeds(s, id) && !s.reconnect
    requires s.calls[id].item in Registered(s.subs, s.calls[id].item.topic)
    ensures Covers(Held(s.log), s.calls[id].item)
  {
    var steps :| IsRun(Init(), steps) && Run(Init(), steps) == s;
    RunKeepsInv(Init(), steps);
    RunKeepsServing(Init(), steps);
    HeldIsTrackedOrForgotten(s.log, s.calls[id].item.topic);
  }

  /** The exception is real: the session granted the topic, and a new one began before the result was delivered. */
  lemma SubscribeSuccessMayMissNewSession(item: Item)
    ensures exists s :: Reachable(s) && Succeeds(s, 0) && s.up && s.reconnect
                        && s.calls[0].item == item && item in Registered(s.subs, item.topic) && Held(s.log) == map[]
  {
    EarlyAck(item);
    var s := State(map[item.topic := {item}], map[item.topic := item.qos],
                   Subscribing(Operation(0), map[item.topic := item.qos], {}), false, true, false,
                   map[0 := Awaiting(item)], true, [Did(Subscribe(item.topic, item.qos))], {item});
    Reach(s, Pass(FinishSubscribes));
    var s1 := After(s, Pass(FinishSubscribes));
    assert s1.loop.todo == {};
    Reach(s1, Pass(FinishPass));
    var s2 := After(s1, Pass(FinishPass));
    Reach(s2, ConnectionUp);
    assert Succeeds(After(s2, ConnectionUp), 0);
  }
}

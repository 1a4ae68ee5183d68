/**
 The reconcile loop of the MQTT transport as a step system: lock sections,
 channel operations and broker commands are the atomic steps, and connection
 loss, connection establishment and caller cancellation may happen anywhere.
 */
module Reconciler {
  import opened Registry

  /** One unfinished call into the transport. */
  datatype Call =
    | Submitting(item: Item)              // Subscribe: registered, operation not yet taken by the loop
    | Awaiting(item: Item)                // Subscribe: operation taken, result outstanding
    | Removing(item: Item, close: bool)   // about to enter the lock section of remove
    | Posting(close: bool)                // removed, requestReconcile still to run
    | Resubmitting                        // Close: final reconcileSync, operation not yet taken
    | Resyncing                           // Close: operation taken, result outstanding

  datatype Waker = Token | Operation(id: nat)

  /** The program counter and local variables of reconcileLoop. */
  datatype Loop =
    | Idle
    | Starting(w: Waker)
    | Subscribing(w: Waker, desired: map<Topic, QoS>, todo: set<Topic>)
    | Granted(w: Waker, desired: map<Topic, QoS>, todo: set<Topic>, topic: Topic)
    | Unsubscribing(w: Waker, desired: map<Topic, QoS>, todo: set<Topic>)
    | Revoked(w: Waker, desired: map<Topic, QoS>, todo: set<Topic>, topic: Topic)
    | Failing(w: Waker, topic: Topic)     // failTopic, before its lock section
    | Waking(w: Waker)                    // failTopic, before its requestReconcile
    | Replying(w: Waker, ok: bool)

  /** What happened to the broker session, and `Forget` where the loop cleared its cache. */
  datatype Event = Did(command: Command) | Forget

  type Log = seq<Event>

  /** What the broker session holds: a repeated filter replaces the old subscription. */
  function Held(log: Log): map<Topic, QoS> {
    if log == [] then map[]
    else
      var before := Held(log[..|log| - 1]);
      match log[|log| - 1]
      case Did(c) => Perform(before, c)
      case Forget => before
  }

  /** What a cache that was emptied at the last `Forget` has been told since. */
  function Tracked(log: Log): map<Topic, QoS> {
    if log == [] then map[]
    else match log[|log| - 1]
      case Did(c) => Perform(Tracked(log[..|log| - 1]), c)
      case Forget => map[]
  }

  /** `t` was held when the cache was last cleared and no command has named it since. */
  ghost predicate Forgotten(log: Log, t: Topic) {
    exists i :: 0 <= i < |log| && log[i].Forget? && t in Held(log[..i]) && Untouched(log, i, t)
  }

  ghost predicate Untouched(log: Log, i: int, t: Topic) {
    forall j :: i < j < |log| && 0 <= j && log[j].Did? ==> log[j].command.topic != t
  }

  datatype State = State(
    subs: Subscriptions,
    cache: map<Topic, QoS>,
    loop: Loop,
    reconcile: bool,        // token in the one-slot reconcile channel
    reconnect: bool,        // token in the one-slot reconnect channel
    retry: bool,            // retry timer armed
    calls: map<nat, Call>,
    up: bool,               // connection to the broker
    log: Log,               // history of the current broker session
    created: set<Item>)     // every subscription object so far

  function Init(): State {
    State(map[], map[], Idle, false, false, false, map[], false, [], {})
  }

  /** Steps of the calling goroutines; they never touch the loop's state. Subscribe registers a new object. */
  datatype CallerStep =
    | Register(item: Item)
    | BeginRemove(item: Item, close: bool)
    | GiveUp
    | RemoveSection
    | PostReconcile

  /** Steps of the loop outside a pass. */
  datatype ControlStep =
    | TakeOperation(id: nat)
    | TakeReconcile
    | TakeReconnect
    | RetryFires
    | Snapshot
    | FailTopicSection
    | FailTopicPost
    | Reply

  /** Steps of reconcileBroker after its snapshot; topics are visited in any order. */
  datatype PassStep =
    | Skip(topic: Topic)
    | SendSubscribe(topic: Topic, reply: Reply)
    | RecordGrant
    | FinishSubscribes
    | SendUnsubscribe(topic: Topic, reply: Reply)
    | RecordRevoke
    | FinishPass

  datatype Step =
    | Caller(id: nat, caller: CallerStep)
    | Control(control: ControlStep)
    | Pass(pass: PassStep)
    | ConnectionUp
    | ConnectionDown

  /** A command is acknowledged, or reports the connection down, only in the matching state. */
  predicate Plausible(s: State, command: Command, reply: Registry.Reply) {
    && (Accepted(command, reply) ==> s.up)
    && (reply.Failed? && reply.down ==> !s.up)
  }

  predicate CallerEnabled(s: State, id: nat, a: CallerStep) {
    match a
    case Register(item) => id !in s.calls && item !in s.created
    case BeginRemove(item, _) => id !in s.calls && item in s.created
    case GiveUp => id in s.calls && !s.calls[id].Removing? && !s.calls[id].Posting?
    case RemoveSection => id in s.calls && s.calls[id].Removing?
    case PostReconcile => id in s.calls && s.calls[id].Posting?
  }

  function AfterCaller(s: State, id: nat, a: CallerStep): State
    requires CallerEnabled(s, id, a)
  {
    match a
    case Register(item) =>
      s.(subs := Add(s.subs, item), calls := s.calls[id := Submitting(item)], created := s.created + {item})
    case BeginRemove(item, close) =>
      s.(calls := s.calls[id := Removing(item, close)])
    case GiveUp =>
      s.(calls := if s.calls[id].Submitting? || s.calls[id].Awaiting?
                  then s.calls[id := Removing(s.calls[id].item, false)]
                  else s.calls - {id})
    case RemoveSection =>
      s.(subs := Remove(s.subs, s.calls[id].item), calls := s.calls[id := Posting(s.calls[id].close)])
    case PostReconcile =>
      s.(reconcile := true,
         calls := if s.calls[id].close then s.calls[id := Resubmitting] else s.calls - {id})
  }

  predicate ControlEnabled(s: State, a: ControlStep) {
    match a
    case TakeOperation(id) =>
      s.loop.Idle? && id in s.calls && (s.calls[id].Submitting? || s.calls[id].Resubmitting?)
    case TakeReconcile => s.loop.Idle? && s.reconcile
    case TakeReconnect => s.loop.Idle? && s.reconnect
    case RetryFires => s.loop.Idle? && s.retry
    case Snapshot => s.loop.Starting?
    case FailTopicSection => s.loop.Failing?
    case FailTopicPost => s.loop.Waking?
    case Reply => s.loop.Replying?
  }

  function AfterControl(s: State, a: ControlStep): State
    requires ControlEnabled(s, a)
  {
    match a
    case TakeOperation(id) =>
      s.(loop := Starting(Operation(id)),
         calls := s.calls[id := if s.calls[id].Submitting? then Awaiting(s.calls[id].item) else Resyncing])
    case TakeReconcile => s.(reconcile := false, loop := Starting(Token))
    case TakeReconnect =>
      s.(reconnect := false, retry := false, cache := map[], log := s.log + [Forget], loop := Starting(Token))
    case RetryFires => s.(retry := false, loop := Starting(Token))
    case Snapshot => s.(loop := Subscribing(s.loop.w, Desired(s.subs), Desired(s.subs).Keys))
    case FailTopicSection => s.(subs := s.subs - {s.loop.topic}, loop := Waking(s.loop.w))
    case FailTopicPost => s.(reconcile := true, loop := Replying(s.loop.w, false))
    case Reply =>
      s.(loop := Idle, calls := match s.loop.w
                                case Token => s.calls
                                case Operation(id) => Answered(s.calls, id, s.loop.ok))
  }

  predicate UpToDate(s: State, t: Topic)
    requires s.loop.Subscribing?
  {
    t in s.loop.desired && t in s.cache && s.cache[t] == s.loop.desired[t]
  }

  predicate PassEnabled(s: State, a: PassStep) {
    match a
    case Skip(t) => s.loop.Subscribing? && t in s.loop.todo && UpToDate(s, t)
    case SendSubscribe(t, reply) =>
      && s.loop.Subscribing? && t in s.loop.todo && t in s.loop.desired && !UpToDate(s, t)
      && Plausible(s, Subscribe(t, s.loop.desired[t]), reply)
    case RecordGrant => s.loop.Granted? && s.loop.topic in s.loop.desired
    case FinishSubscribes => s.loop.Subscribing? && s.loop.todo == {}
    case SendUnsubscribe(t, reply) =>
      s.loop.Unsubscribing? && t in s.loop.todo && Plausible(s, Unsubscribe(t), reply)
    case RecordRevoke => s.loop.Revoked?
    case FinishPass => s.loop.Unsubscribing? && s.loop.todo == {}
  }

  /** An error goes through handleResult: it ends the pass, or fails the topic. */
  function AfterSubscribe(s: State, t: Topic, reply: Registry.Reply): (s': State)
    requires PassEnabled(s, SendSubscribe(t, reply))
    ensures s'.subs == s.subs && s'.calls == s.calls && s'.up == s.up && s'.reconnect == s.reconnect
  {
    var l := s.loop;
    if ValidSuback(reply) then
      s.(loop := Granted(l.w, l.desired, l.todo - {t}, t), log := s.log + [Did(Subscribe(t, l.desired[t]))])
    else if reply.Failed? && reply.down then s.(retry := false, loop := Replying(l.w, false))
    else s.(retry := false, loop := Failing(l.w, t))
  }

  /** An error goes through handleResult: it clears or arms the retry timer. */
  function AfterUnsubscribe(s: State, t: Topic, reply: Registry.Reply): (s': State)
    requires PassEnabled(s, SendUnsubscribe(t, reply))
    ensures s'.subs == s.subs && s'.calls == s.calls && s'.up == s.up && s'.reconnect == s.reconnect
  {
    var l := s.loop;
    if ValidUnsuback(reply) then
      s.(loop := Revoked(l.w, l.desired, l.todo - {t}, t), log := s.log + [Did(Unsubscribe(t))])
    else s.(retry := !(reply.Failed? && reply.down), loop := Replying(l.w, false))
  }

  function AfterPass(s: State, a: PassStep): State
    requires PassEnabled(s, a)
  {
    var l := s.loop;
    match a
    case Skip(t) => s.(loop := Subscribing(l.w, l.desired, l.todo - {t}))
    case SendSubscribe(t, reply) => AfterSubscribe(s, t, reply)
    case RecordGrant =>
      s.(cache := s.cache[l.topic := l.desired[l.topic]], loop := Subscribing(l.w, l.desired, l.todo))
    case FinishSubscribes =>
      s.(loop := Unsubscribing(l.w, l.desired, s.cache.Keys - l.desired.Keys))
    case SendUnsubscribe(t, reply) => AfterUnsubscribe(s, t, reply)
    case RecordRevoke => s.(cache := s.cache - {l.topic}, loop := Unsubscribing(l.w, l.desired, l.todo))
    case FinishPass => s.(retry := false, loop := Replying(l.w, true))
  }

  predicate Enabled(s: State, a: Step) {
    match a
    case Caller(id, c) => CallerEnabled(s, id, c)
    case Control(c) => ControlEnabled(s, c)
    case Pass(p) => PassEnabled(s, p)
    case ConnectionUp => true
    case ConnectionDown => true
  }

  /** A new connection starts an empty session and posts the reconnect token. */
  function After(s: State, a: Step): State
    requires Enabled(s, a)
  {
    match a
    case Caller(id, c) => AfterCaller(s, id, c)
    case Control(c) => AfterControl(s, c)
    case Pass(p) => AfterPass(s, p)
    case ConnectionUp => s.(up := true, reconnect := true, log := [])
    case ConnectionDown => s.(up := false)
  }

  /** The caller that receives the result: a failed Subscribe goes on to remove its item. */
  function Answered(calls: map<nat, Call>, id: nat, ok: bool): map<nat, Call> {
    if id !in calls then calls
    else match calls[id]
      case Awaiting(item) => if ok then calls - {id} else calls[id := Removing(item, false)]
      case Resyncing => calls - {id}
      case _ => calls
  }

  // Runs.

  ghost predicate IsRun(s: State, steps: seq<Step>)
    decreases |steps|
  {
    steps == [] || (Enabled(s, steps[0]) && IsRun(After(s, steps[0]), steps[1..]))
  }

  function Run(s: State, steps: seq<Step>): State
    requires IsRun(s, steps)
    decreases |steps|
  {
    if steps == [] then s else Run(After(s, steps[0]), steps[1..])
  }

  ghost predicate Reachable(s: State) {
    exists steps :: IsRun(Init(), steps) && Run(Init(), steps) == s
  }

  /** Connection up, loop idle, and no token, operation, timer or call outstanding. */
  predicate Quiet(s: State) {
    s.up && s.loop.Idle? && !s.reconcile && !s.reconnect && !s.retry && s.calls == map[]
  }

  // The invariant.

  ghost predicate Owes(c: Call) {
    c.Submitting? || c.Removing? || c.Posting?
  }

  /** Someone still has to post a token, or a token or operation is waiting for the loop. */
  ghost predicate Owed(s: State) {
    || s.reconcile
    || exists id :: id in s.calls && Owes(s.calls[id])
  }

  /** No wake-up is lost: any difference between registry and cache has a cause to run again. */
  ghost predicate NoLostWakeup(s: State) {
    match s.loop
    case Idle => Desired(s.subs) == s.cache || Owed(s) || s.reconnect || s.retry || !s.up
    case Replying(_, _) => Desired(s.subs) == s.cache || Owed(s) || s.reconnect || s.retry || !s.up
    case Subscribing(_, desired, _) => Desired(s.subs) == desired || Owed(s)
    case Granted(_, desired, _, _) => Desired(s.subs) == desired || Owed(s)
    case Unsubscribing(_, desired, _) => Desired(s.subs) == desired || Owed(s)
    case Revoked(_, desired, _, _) => Desired(s.subs) == desired || Owed(s)
    case _ => true
  }

  /** What the loop's unwritten acknowledgement will make of the cache. */
  function Pending(s: State): map<Topic, QoS> {
    match s.loop
    case Granted(_, desired, _, t) => if t in desired then s.cache[t := desired[t]] else s.cache
    case Revoked(_, _, _, t) => s.cache - {t}
    case _ => s.cache
  }

  ghost predicate Agree(desired: map<Topic, QoS>, cache: map<Topic, QoS>, except: set<Topic>) {
    forall t :: t in desired && t !in except ==> t in cache && cache[t] == desired[t]
  }

  /** `stale` covers the cached topics that are not desired, and no desired topic. */
  ghost predicate Stale(desired: map<Topic, QoS>, cache: map<Topic, QoS>, stale: set<Topic>) {
    && (forall t :: t in cache && t !in desired ==> t in stale)
    && (forall t :: t in stale ==> t !in desired)
  }

  /** How far the pass in progress has brought the cache towards its snapshot. */
  ghost predicate PassProgress(s: State) {
    match s.loop
    case Subscribing(_, desired, todo) => todo <= desired.Keys && Agree(desired, s.cache, todo)
    case Granted(_, desired, todo, t) =>
      todo <= desired.Keys && t in desired && Agree(desired, s.cache, todo + {t})
    case Unsubscribing(_, desired, todo) =>
      Agree(desired, s.cache, {}) && Stale(desired, s.cache, todo)
    case Revoked(_, desired, todo, t) =>
      Agree(desired, s.cache, {}) && Stale(desired, s.cache, todo + {t})
    case _ => true
  }

  /** The cache is exactly what it has been told, unless it is about to be cleared. */
  ghost predicate CacheTracksLog(s: State) {
    !s.reconnect ==> Tracked(s.log) == Pending(s)
  }

  ghost predicate Inv(s: State) {
    WellFormed(s.subs) && CacheTracksLog(s) && PassProgress(s) && NoLostWakeup(s)
  }

  /** A caller that changes the registry owes a wake-up, and keeps owing it until it posts. */
  lemma CallerKeepsOwed(s: State, id: nat, a: CallerStep)
    requires CallerEnabled(s, id, a)
    requires Owed(s) || Desired(AfterCaller(s, id, a).subs) != Desired(s.subs)
    ensures Owed(AfterCaller(s, id, a))
  {
    var s' := AfterCaller(s, id, a);
    if a.Register? || a.BeginRemove? || a.RemoveSection? {
      assert Owes(s'.calls[id]);
    } else if !s'.reconcile {
      var j :| j in s.calls && Owes(s.calls[j]);
      assert Owes(s'.calls[j]);
    }
  }

  lemma ReplyKeepsOwed(s: State)
    requires ControlEnabled(s, Reply) && Owed(s)
    ensures Owed(AfterControl(s, Reply))
  {
    if !s.reconcile {
      var j :| j in s.calls && Owes(s.calls[j]);
      assert Owes(AfterControl(s, Reply).calls[j]);
    }
  }

  lemma CallerKeepsInv(s: State, id: nat, a: CallerStep)
    requires Inv(s) && CallerEnabled(s, id, a)
    ensures Inv(AfterCaller(s, id, a))
  {
    var s' := AfterCaller(s, id, a);
    match a {
      case Register(item) => EditsKeepWellFormed(s.subs, item);
      case RemoveSection => EditsKeepWellFormed(s.subs, s.calls[id].item);
      case _ =>
    }
    if Owed(s) || Desired(s'.subs) != Desired(s.subs) { CallerKeepsOwed(s, id, a); }
  }

  lemma ControlKeepsInv(s: State, a: ControlStep)
    requires Inv(s) && ControlEnabled(s, a)
    ensures Inv(AfterControl(s, a))
  {
    if a.TakeReconnect? { LogGrows(s.log, Forget); }
    if a.Reply? && Owed(s) { ReplyKeepsOwed(s); }
  }

  lemma LogGrows(log: Log, e: Event)
    ensures Tracked(log + [e]) == match e case Did(c) => Perform(Tracked(log), c) case Forget => map[]
  {
    assert (log + [e])[..|log|] == log;
  }

  /** An acknowledgement reaches the log first and the cache one step later. */
  lemma SubscribeKeepsCacheTracksLog(s: State, t: Topic, reply: Reply)
    requires CacheTracksLog(s) && PassEnabled(s, SendSubscribe(t, reply))
    ensures CacheTracksLog(AfterSubscribe(s, t, reply))
  {
    if ValidSuback(reply) {
      LogGrows(s.log, Did(Subscribe(t, s.loop.desired[t])));
    } else {
      assert AfterSubscribe(s, t, reply).log == s.log && Pending(AfterSubscribe(s, t, reply)) == s.cache;
    }
  }

  lemma UnsubscribeKeepsCacheTracksLog(s: State, t: Topic, reply: Reply)
    requires CacheTracksLog(s) && PassEnabled(s, SendUnsubscribe(t, reply))
    ensures CacheTracksLog(AfterUnsubscribe(s, t, reply))
  {
    if ValidUnsuback(reply) { LogGrows(s.log, Did(Unsubscribe(t))); }
  }

  lemma PassKeepsCacheTracksLog(s: State, a: PassStep)
    requires CacheTracksLog(s) && PassEnabled(s, a)
    ensures CacheTracksLog(AfterPass(s, a))
  {
    match a
    case SendSubscribe(t, reply) => SubscribeKeepsCacheTracksLog(s, t, reply);
    case SendUnsubscribe(t, reply) => UnsubscribeKeepsCacheTracksLog(s, t, reply);
    case _ => LocalKeepsCacheTracksLog(s, a);
  }

  lemma LocalKeepsCacheTracksLog(s: State, a: PassStep)
    requires CacheTracksLog(s) && PassEnabled(s, a) && !IsSend(a)
    ensures CacheTracksLog(AfterPass(s, a))
  {
    assert Pending(AfterPass(s, a)) == Pending(s);
  }

  predicate IsSend(a: PassStep) { a.SendSubscribe? || a.SendUnsubscribe? }

  lemma SubscribeKeepsProgress(s: State, t: Topic, reply: Reply)
    requires PassProgress(s) && PassEnabled(s, SendSubscribe(t, reply))
    ensures PassProgress(AfterSubscribe(s, t, reply))
  {
  }

  lemma UnsubscribeKeepsProgress(s: State, t: Topic, reply: Reply)
    requires PassProgress(s) && PassEnabled(s, SendUnsubscribe(t, reply))
    ensures PassProgress(AfterUnsubscribe(s, t, reply))
  {
  }

  lemma LocalKeepsProgress(s: State, a: PassStep)
    requires PassProgress(s) && PassEnabled(s, a) && !IsSend(a)
    ensures PassProgress(AfterPass(s, a))
  {
  }

  lemma PassKeepsProgress(s: State, a: PassStep)
    requires PassProgress(s) && PassEnabled(s, a)
    ensures PassProgress(AfterPass(s, a))
  {
    match a
    case SendSubscribe(t, reply) => SubscribeKeepsProgress(s, t, reply);
    case SendUnsubscribe(t, reply) => UnsubscribeKeepsProgress(s, t, reply);
    case _ => LocalKeepsProgress(s, a);
  }

  /** A finished pass has made the cache equal to its snapshot. */
  lemma FinishedPassAgrees(s: State)
    requires PassProgress(s) && PassEnabled(s, FinishPass)
    ensures s.cache == s.loop.desired
  {
    forall t ensures t in s.cache <==> t in s.loop.desired {}
  }

  lemma SubscribeKeepsNoLostWakeup(s: State, t: Topic, reply: Reply)
    requires NoLostWakeup(s) && PassEnabled(s, SendSubscribe(t, reply))
    ensures NoLostWakeup(AfterSubscribe(s, t, reply))
  {
    assert Owed(s) ==> Owed(AfterSubscribe(s, t, reply));
  }

  lemma UnsubscribeKeepsNoLostWakeup(s: State, t: Topic, reply: Reply)
    requires NoLostWakeup(s) && PassEnabled(s, SendUnsubscribe(t, reply))
    ensures NoLostWakeup(AfterUnsubscribe(s, t, reply))
  {
    assert Owed(s) ==> Owed(AfterUnsubscribe(s, t, reply));
  }

  lemma LocalKeepsNoLostWakeup(s: State, a: PassStep)
    requires PassProgress(s) && NoLostWakeup(s) && PassEnabled(s, a) && !IsSend(a)
    ensures NoLostWakeup(AfterPass(s, a))
  {
    assert Owed(s) ==> Owed(AfterPass(s, a));
    if a.FinishPass? { FinishedPassAgrees(s); }
  }

  lemma PassKeepsNoLostWakeup(s: State, a: PassStep)
    requires PassProgress(s) && NoLostWakeup(s) && PassEnabled(s, a)
    ensures NoLostWakeup(AfterPass(s, a))
  {
    match a
    case SendSubscribe(t, reply) => SubscribeKeepsNoLostWakeup(s, t, reply);
    case SendUnsubscribe(t, reply) => UnsubscribeKeepsNoLostWakeup(s, t, reply);
    case _ => LocalKeepsNoLostWakeup(s, a);
  }

  lemma LocalKeepsRegistry(s: State, a: PassStep)
    requires PassEnabled(s, a) && !IsSend(a)
    ensures AfterPass(s, a).subs == s.subs
  {
  }

  lemma PassKeepsRegistry(s: State, a: PassStep)
    requires PassEnabled(s, a)
    ensures AfterPass(s, a).subs == s.subs
  {
    match a
    case SendSubscribe(t, reply) => assert AfterPass(s, a) == AfterSubscribe(s, t, reply);
    case SendUnsubscribe(t, reply) => assert AfterPass(s, a) == AfterUnsubscribe(s, t, reply);
    case _ => LocalKeepsRegistry(s, a);
  }

  lemma PassKeepsInv(s: State, a: PassStep)
    requires Inv(s) && PassEnabled(s, a)
    ensures Inv(AfterPass(s, a))
  {
    PassKeepsRegistry(s, a);
    PassKeepsCacheTracksLog(s, a);
    PassKeepsProgress(s, a);
    PassKeepsNoLostWakeup(s, a);
  }

  /** Every step keeps the invariant. */
  lemma StepKeepsInv(s: State, a: Step)
    requires Inv(s) && Enabled(s, a)
    ensures Inv(After(s, a))
  {
    match a
    case Caller(id, c) => CallerKeepsInv(s, id, c);
    case Control(c) => ControlKeepsInv(s, c);
    case Pass(p) => PassKeepsInv(s, p);
    case _ => assert Owed(s) ==> Owed(After(s, a));
  }

  lemma {:induction false} RunKeepsInv(s: State, steps: seq<Step>)
    requires Inv(s) && IsRun(s, steps)
    ensures Inv(Run(s, steps))
    decreases |steps|
  {
    if steps != [] {
      StepKeepsInv(s, steps[0]);
      RunKeepsInv(After(s, steps[0]), steps[1..]);
    }
  }

  // What the log says about the session and the cache.

  /** The session holds what the cache tracks, plus the forgotten topics. */
  lemma {:induction false} HeldIsTrackedOrForgotten(log: Log, t: Topic)
    ensures t in Held(log) <==> t in Tracked(log) || Forgotten(log, t)
    ensures !(t in Tracked(log) && Forgotten(log, t))
    ensures t in Tracked(log) ==> Held(log)[t] == Tracked(log)[t]
  {
    if log != [] {
      var n := |log| - 1;
      var before := log[..n];
      HeldIsTrackedOrForgotten(before, t);
      ForgottenAtEnd(log, t);
    }
  }

  /** How one more event changes what is forgotten. */
  lemma ForgottenAtEnd(log: Log, t: Topic)
    requires log != []
    ensures Forgotten(log, t) <==> ForgottenNext(log[..|log| - 1], log[|log| - 1], t)
  {
    var n := |log| - 1;
    if Forgotten(log, t) {
      var i :| 0 <= i < |log| && log[i].Forget? && t in Held(log[..i]) && Untouched(log, i, t);
      if i < n { ForgottenBefore(log, i, t); }
    }
    if ForgottenNext(log[..n], log[n], t) { ForgottenAfter(log, t); }
  }

  ghost predicate ForgottenNext(before: Log, e: Event, t: Topic) {
    match e
    case Did(c) => c.topic != t && Forgotten(before, t)
    case Forget => t in Held(before)
  }

  lemma ForgottenBefore(log: Log, i: int, t: Topic)
    requires 0 <= i < |log| - 1 && log[i].Forget? && t in Held(log[..i]) && Untouched(log, i, t)
    ensures Forgotten(log[..|log| - 1], t) && t in Held(log[..|log| - 1])
  {
    var before := log[..|log| - 1];
    assert before[..i] == log[..i];
    assert before[i].Forget? && Untouched(before, i, t);
    StillHeld(before, i, t);
  }

  lemma ForgottenAfter(log: Log, t: Topic)
    requires log != [] && ForgottenNext(log[..|log| - 1], log[|log| - 1], t)
    ensures Forgotten(log, t)
  {
    var n := |log| - 1;
    var before := log[..n];
    if log[n].Forget? {
      assert Untouched(log, n, t);
    } else {
      var i :| 0 <= i < n && before[i].Forget? && t in Held(before[..i]) && Untouched(before, i, t);
      assert before[..i] == log[..i];
      assert Untouched(log, i, t) by {
        forall j | i < j < |log| && log[j].Did? ensures log[j].command.topic != t {
          if j < n { assert before[j] == log[j]; }
        }
      }
    }
  }

  lemma {:induction false} StillHeld(log: Log, i: int, t: Topic)
    requires 0 <= i < |log| && log[i].Forget? && t in Held(log[..i]) && Untouched(log, i, t)
    ensures t in Held(log)
    decreases |log|
  {
    var n := |log| - 1;
    var before := log[..n];
    if i < n {
      assert before[..i] == log[..i] && before[i] == log[i];
      assert Untouched(before, i, t);
      StillHeld(before, i, t);
    }
  }

  // Main results.

  /**
   In a quiet reachable state the broker session holds every registered topic at
   the highest requested QoS, whatever was lost, rejected, retried or cancelled
   on the way. It holds exactly the registered topics if and only if no command
   was acknowledged on this session before the loop consumed its reconnect token
   and left unrepeated since.
   */
  lemma QuietSessionServesRegistry(s: State)
    requires Reachable(s) && Quiet(s)
    ensures forall t :: t in s.subs ==> t in Held(s.log) && Held(s.log)[t] == Highest(s.subs[t])
    ensures Held(s.log) == Desired(s.subs) <==> forall t :: !Forgotten(s.log, t)
  {
    QuietCacheIsDesired(s);
    HeldAgainst(s.log, Desired(s.subs));
  }

  lemma QuietCacheIsDesired(s: State)
    requires Reachable(s) && Quiet(s)
    ensures Tracked(s.log) == Desired(s.subs)
  {
    var steps :| IsRun(Init(), steps) && Run(Init(), steps) == s;
    RunKeepsInv(Init(), steps);
    assert !Owed(s);
    assert Tracked(s.log) == s.cache;
  }

  /** A session whose tracked topics are `desired` holds those, and nothing else unless it is forgotten. */
  lemma HeldAgainst(log: Log, desired: map<Topic, QoS>)
    requires Tracked(log) == desired
    ensures forall t :: t in desired ==> t in Held(log) && Held(log)[t] == desired[t]
    ensures Held(log) == desired <==> forall t :: !Forgotten(log, t)
  {
    forall t ensures t in Held(log) <==> t in desired || Forgotten(log, t)
             ensures !(t in desired && Forgotten(log, t))
             ensures t in desired ==> Held(log)[t] == desired[t]
    {
      HeldIsTrackedOrForgotten(log, t);
    }
  }

  lemma {:induction false} ReachableStep(steps: seq<Step>, s: State, a: Step)
    requires IsRun(s, steps) && Enabled(Run(s, steps), a)
    ensures IsRun(s, steps + [a]) && Run(s, steps + [a]) == After(Run(s, steps), a)
    decreases |steps|
  {
    if steps == [] {
      assert steps + [a] == [a];
      assert IsRun(After(s, a), [a][1..]);
    } else {
      ReachableStep(steps[1..], After(s, steps[0]), a);
      assert (steps + [a])[1..] == steps[1..] + [a];
    }
  }

  lemma Reach(s: State, a: Step)
    requires Reachable(s) && Enabled(s, a)
    ensures Reachable(After(s, a))
  {
    var steps :| IsRun(Init(), steps) && Run(Init(), steps) == s;
    ReachableStep(steps, Init(), a);
  }

  /** An undisturbed pass over an empty registry with an empty cache changes nothing. */
  lemma EmptyPass(s: State)
    requires Reachable(s) && s.loop.Starting? && s.subs == map[] && s.cache == map[]
    ensures Reachable(s.(loop := Replying(s.loop.w, true), retry := false))
  {
    Reach(s, Control(Snapshot));
    var s1 := After(s, Control(Snapshot));
    assert s1.loop.desired == map[] && s1.loop.todo == {};
    Reach(s1, Pass(FinishSubscribes));
    var s2 := After(s1, Pass(FinishSubscribes));
    assert s2.loop.todo == {};
    Reach(s2, Pass(FinishPass));
  }

  /** The loop starts to serve a Subscribe before it consumes the waiting reconnect token. */
  lemma EarlyPass(item: Item)
    ensures Reachable(State(map[item.topic := {item}], map[], Starting(Operation(0)), false, true, false,
                            map[0 := Awaiting(item)], true, [], {item}))
  {
    assert Reachable(Init()) by { assert IsRun(Init(), []) && Run(Init(), []) == Init(); }
    Reach(Init(), ConnectionUp);
    var s1 := State(map[], map[], Idle, false, true, false, map[], true, [], {});
    assert After(Init(), ConnectionUp) == s1;
    Reach(s1, Caller(0, Register(item)));
    var s2 := State(map[item.topic := {item}], map[], Idle, false, true, false, map[0 := Submitting(item)], true,
                    [], {item});
    assert Registered(map[], item.topic) + {item} == {item};
    assert After(s1, Caller(0, Register(item))).subs == map[item.topic := {item}];
    Reach(s2, Control(TakeOperation(0)));
  }

  /** The broker grants the subscription on the new session. */
  lemma EarlyAck(item: Item)
    ensures Reachable(State(map[item.topic := {item}], map[item.topic := item.qos],
                            Subscribing(Operation(0), map[item.topic := item.qos], {}), false, true, false,
                            map[0 := Awaiting(item)], true, [Did(Subscribe(item.topic, item.qos))], {item}))
  {
    EarlyPass(item);
    var s := State(map[item.topic := {item}], map[], Starting(Operation(0)), false, true, false,
                   map[0 := Awaiting(item)], true, [], {item});
    Reach(s, Control(Snapshot));
    var s1 := After(s, Control(Snapshot));
    HighestUnique({item}, item.qos);
    assert s1.loop.desired == map[item.topic := item.qos] && s1.loop.todo == {item.topic};
    var grant := Pass(SendSubscribe(item.topic, Ack([item.qos])));
    Reach(s1, grant);
    var s2 := After(s1, grant);
    assert s2.loop.todo == {};
    Reach(s2, Pass(RecordGrant));
  }

  lemma EarlyGrant(item: Item)
    ensures Reachable(State(map[item.topic := {item}], map[item.topic := item.qos], Idle, false, true, false,
                            map[], true, [Did(Subscribe(item.topic, item.qos))], {item}))
  {
    EarlyAck(item);
    var s := State(map[item.topic := {item}], map[item.topic := item.qos],
                   Subscribing(Operation(0), map[item.topic := item.qos], {}), false, true, false,
                   map[0 := Awaiting(item)], true, [Did(Subscribe(item.topic, item.qos))], {item});
    Reach(s, Pass(FinishSubscribes));
    var s1 := After(s, Pass(FinishSubscribes));
    assert s1.loop.todo == {};
    Reach(s1, Pass(FinishPass));
    var s2 := After(s1, Pass(FinishPass));
    Reach(s2, Control(Reply));
    assert After(s2, Control(Reply)).calls == map[];
  }

  /** Its subscriber closes, and only then does the loop clear its cache. */
  lemma LateClear(item: Item)
    ensures Reachable(State(map[], map[], Starting(Token), true, false, false,
                            map[1 := Resubmitting], true, [Did(Subscribe(item.topic, item.qos)), Forget], {item}))
  {
    EarlyGrant(item);
    var s := State(map[item.topic := {item}], map[item.topic := item.qos], Idle, false, true, false,
                   map[], true, [Did(Subscribe(item.topic, item.qos))], {item});
    var a1 := Caller(1, BeginRemove(item, true));
    Reach(s, a1);
    var s1 := After(s, a1);
    Reach(s1, Caller(1, RemoveSection));
    var s2 := After(s1, Caller(1, RemoveSection));
    assert s2.subs == map[];
    Reach(s2, Caller(1, PostReconcile));
    var s3 := After(s2, Caller(1, PostReconcile));
    Reach(s3, Control(TakeReconnect));
    assert After(s3, Control(TakeReconnect)).calls == map[1 := Resubmitting];
  }

  /**
   The session can keep a topic nobody subscribes to: clearing the cache also
   forgets what was granted on the new session before the clearing, so no later
   pass unsubscribes it.
   */
  lemma QuietSessionMayKeepUnwantedTopic(item: Item)
    ensures exists s :: Reachable(s) && Quiet(s) && s.subs == map[] && Held(s.log) == map[item.topic := item.qos]
  {
    var log := [Did(Subscribe(item.topic, item.qos)), Forget];
    LateClear(item);
    var calls := map[1 := Resubmitting];
    var s := State(map[], map[], Starting(Token), true, false, false, calls, true, log, {item});
    EmptyPass(s);
    var s1 := s.(loop := Replying(Token, true));
    Reach(s1, Control(Reply));
    var s2 := After(s1, Control(Reply));
    Reach(s2, Control(TakeReconcile));
    var s3 := After(s2, Control(TakeReconcile));
    EmptyPass(s3);
    var s4 := s3.(loop := Replying(Token, true));
    Reach(s4, Control(Reply));
    var s5 := After(s4, Control(Reply));
    Reach(s5, Control(TakeOperation(1)));
    var s6 := After(s5, Control(TakeOperation(1)));
    EmptyPass(s6);
    var s7 := s6.(loop := Replying(Operation(1), true));
    Reach(s7, Control(Reply));
    var s8 := After(s7, Control(Reply));
    assert s8.calls == map[];
    assert log[..1] == [Did(Subscribe(item.topic, item.qos))];
    assert Held(log) == Held(log[..1]);
    assert log[..1][..0] == [];
    assert Held(log[..1]) == map[item.topic := item.qos];
  }

  // Runs in which the loop consumes each reconnect token before its session grants anything.

  predicate EarlyCommand(s: State, a: Step) {
    && s.reconnect && a.Pass?
    && match a.pass
       case SendSubscribe(_, reply) => ValidSuback(reply)
       case SendUnsubscribe(_, reply) => ValidUnsuback(reply)
       case _ => false
  }

  ghost predicate PromptRun(s: State, steps: seq<Step>)
    requires IsRun(s, steps)
    decreases |steps|
  {
    steps == [] || (!EarlyCommand(s, steps[0]) && PromptRun(After(s, steps[0]), steps[1..]))
  }

  ghost predicate NothingDone(log: Log) {
    forall i :: 0 <= i < |log| ==> log[i].Forget?
  }

  ghost predicate PromptInv(s: State) {
    && (s.reconnect ==> NothingDone(s.log))
    && forall i :: 0 <= i < |s.log| && s.log[i].Forget? ==> NothingDone(s.log[..i])
  }

  /** A pass step leaves the log alone or appends the acknowledged command. */
  lemma PassLogChange(s: State, a: PassStep) returns (e: Event)
    requires PassEnabled(s, a)
    ensures var s' := AfterPass(s, a);
            && s'.reconnect == s.reconnect && e.Did?
            && (s'.log == s.log || (s'.log == s.log + [e] && EarlyCommand(s, Pass(a)) == s.reconnect))
  {
    e := Did(Unsubscribe(if a.SendUnsubscribe? then a.topic else ""));
    if a.SendSubscribe? { e := Did(Subscribe(a.topic, s.loop.desired[a.topic])); }
  }

  ghost predicate LogStep(s: State, s': State, e: Event) {
    || (s'.log == s.log && s'.reconnect == s.reconnect)
    || s'.log == []
    || (s'.log == s.log + [e] && !s'.reconnect && (e.Forget? <==> s.reconnect))
  }

  lemma CallerLogChange(s: State, id: nat, c: CallerStep)
    requires CallerEnabled(s, id, c)
    ensures LogStep(s, AfterCaller(s, id, c), Forget)
  {
  }

  lemma ControlLogChange(s: State, c: ControlStep)
    requires ControlEnabled(s, c)
    ensures LogStep(s, AfterControl(s, c), Forget)
  {
  }

  /** A step leaves the log alone, starts a new one, or appends one event. */
  lemma LogChange(s: State, a: Step) returns (e: Event)
    requires Enabled(s, a) && !EarlyCommand(s, a)
    ensures LogStep(s, After(s, a), e)
  {
    e := Forget;
    match a
    case Caller(id, c) => CallerLogChange(s, id, c);
    case Control(c) => ControlLogChange(s, c);
    case Pass(p) => e := PassLogChange(s, p);
    case _ =>
  }

  lemma PromptStep(s: State, a: Step)
    requires Enabled(s, a) && PromptInv(s) && !EarlyCommand(s, a)
    ensures PromptInv(After(s, a))
  {
    var e := LogChange(s, a);
    var log, log' := s.log, After(s, a).log;
    if log' != log && log' != [] {
      assert log'[..|log|] == log;
      forall i | 0 <= i < |log'| && log'[i].Forget? ensures NothingDone(log'[..i]) {
        if i < |log| { assert log'[..i] == log[..i]; }
      }
    }
  }

  lemma {:induction false} PromptRunKeepsInv(s: State, steps: seq<Step>)
    requires IsRun(s, steps) && PromptRun(s, steps) && PromptInv(s)
    ensures PromptInv(Run(s, steps))
    decreases |steps|
  {
    if steps != [] {
      PromptStep(s, steps[0]);
      PromptRunKeepsInv(After(s, steps[0]), steps[1..]);
    }
  }

  lemma {:induction false} NothingDoneHoldsNothing(log: Log)
    requires NothingDone(log)
    ensures Held(log) == map[]
    decreases |log|
  {
    if log != [] { NothingDoneHoldsNothing(log[..|log| - 1]); }
  }

  /** After a prompt run, a quiet session holds exactly the registered topics. */
  lemma PromptRunsAreExact(steps: seq<Step>)
    requires IsRun(Init(), steps) && PromptRun(Init(), steps) && Quiet(Run(Init(), steps))
    ensures Held(Run(Init(), steps).log) == Desired(Run(Init(), steps).subs)
  {
    var s := Run(Init(), steps);
    PromptRunKeepsInv(Init(), steps);
    assert Reachable(s);
    forall t ensures !Forgotten(s.log, t) {
      if Forgotten(s.log, t) {
        var i :| 0 <= i < |s.log| && s.log[i].Forget? && t in Held(s.log[..i]) && Untouched(s.log, i, t);
        NothingDoneHoldsNothing(s.log[..i]);
      }
    }
    QuietSessionServesRegistry(s);
  }
}

/**
 Message delivery to local subscriptions: one router goroutine snapshots the
 registered subscribers of a topic and offers them the message without
 blocking, while receivers drain their buffers and any goroutine may register,
 close or fail a subscription between any two of the router's actions.
 */
module Delivery {
  import opened Registry
  import opened Wrappers

  const BUFFER := 16

  datatype Message = Message(topic: Topic, payload: seq<bv8>)

  datatype Failure = Closed | TooLarge | SlowConsumer | BrokerFailure

  type Id = nat

  /**
   `returned` is what Receive returned and `routed` what the router took up for
   it; `since` and `until` count the messages published when it entered and
   when it left the registry.
   */
  datatype Sub = Sub(item: Item, buffer: seq<Message>, error: Option<Failure>, returned: seq<Message>,
                     routed: seq<Message>, since: nat, until: Option<nat>)

  function Opened(item: Item, now: nat): Sub {
    Sub(item, [], None, [], [], now, None)
  }

  /** fail: only the first error is recorded. */
  function Ended(s: Sub, f: Failure): Sub {
    if s.error.None? then s.(error := Some(f)) else s
  }

  function Gone(s: Sub, now: nat): Sub {
    if s.until.None? then s.(until := Some(now)) else s
  }

  function Took(s: Sub): Sub
    requires s.buffer != []
  {
    s.(returned := s.returned + [s.buffer[0]], buffer := s.buffer[1..])
  }

  function Queued(s: Sub, m: Message): Sub {
    s.(buffer := s.buffer + [m])
  }

  function Taken(s: Sub, m: Message): Sub {
    s.(routed := s.routed + [m])
  }

  function Got(s: Sub): seq<Message> {
    s.returned + s.buffer
  }

  /** What route does with one subscriber, up to its first blocking-free select. */
  datatype Verdict = Refuse | Skip | Try

  function FirstLook(s: Sub, m: Message): Verdict {
    if |m.payload| > s.item.maximum then Refuse
    else if s.error.Some? then Skip
    else Try
  }

  /** The second select of deliver may take any ready case, and its default only if none is. */
  datatype Choice = Enqueue | Drop | Overflow

  predicate Ready(s: Sub, choice: Choice) {
    match choice
    case Enqueue => |s.buffer| < BUFFER
    case Drop => s.error.Some?
    case Overflow => |s.buffer| >= BUFFER && s.error.None?
  }

  /** The router between its atomic actions; `todo` is the rest of its snapshot. */
  datatype Router =
    | Waiting
    | Routing(message: Message, todo: set<Id>)
    | Offering(message: Message, todo: set<Id>, id: Id)                      // deliver, between its selects
    | Ending(message: Message, todo: set<Id>, id: Id, failure: Failure)      // before item.fail
    | Removing(message: Message, todo: set<Id>, id: Id)                      // before remove

  /** A call that took subscriptions out of the registry and has still to fail those in `todo`. */
  datatype Failing = Failing(todo: set<Id>, failure: Failure)

  datatype State = State(
    registry: Subscriptions,
    subs: map<Id, Sub>,
    router: Router,
    published: seq<Message>,
    failing: map<nat, Failing>,
    closing: set<Id>)              // Close, between its fail and its remove

  function Init(): State {
    State(map[], map[], Waiting, [], map[], {})
  }

  /** Steps on the registry and on single subscriptions, by any goroutine but the router. */
  datatype CallerStep =
    | Open(item: Item)
    | BeginUndo(call: nat, id: Id)                          // a Subscribe that failed: remove, then fail
    | TakeTopic(call: nat, topic: Topic)                    // failTopic
    | TakeAll(call: nat)                                    // failAll
    | FailOne(call: nat, id: Id)
    | BeginClose(id: Id)
    | Leave(id: Id)
    | Receive(id: Id)

  datatype RouterStep =
    | BeginRoute(message: Message)
    | Visit(id: Id)
    | Offer(choice: Choice)
    | EndSubscription
    | RemoveRouted
    | EndRoute

  datatype Step = Caller(c: CallerStep) | Route(r: RouterStep)

  function Ids(items: set<Item>): set<Id> { set i | i in items :: i.id }

  function AllIds(registry: Subscriptions): set<Id> {
    set t, i | t in registry && i in registry[t] :: i.id
  }

  function GoneAll(subs: map<Id, Sub>, ids: set<Id>, now: nat): map<Id, Sub> {
    map id | id in subs :: if id in ids then Gone(subs[id], now) else subs[id]
  }

  predicate CallerEnabled(s: State, c: CallerStep) {
    match c
    case Open(item) => item.id !in s.subs
    case BeginUndo(call, id) => call !in s.failing && id in s.subs
    case TakeTopic(call, _) => call !in s.failing
    case TakeAll(call) => call !in s.failing
    case FailOne(call, id) => call in s.failing && id in s.failing[call].todo && id in s.subs
    case BeginClose(id) => id in s.subs
    case Leave(id) => id in s.closing && id in s.subs
    case Receive(id) => id in s.subs && s.subs[id].buffer != []
  }

  /** remove's lock section. */
  function Without(s: State, id: Id): State
    requires id in s.subs
  {
    s.(registry := Remove(s.registry, s.subs[id].item), subs := s.subs[id := Gone(s.subs[id], |s.published|)])
  }

  function AfterCaller(s: State, c: CallerStep): State
    requires CallerEnabled(s, c)
  {
    match c
    case Open(item) => s.(registry := Add(s.registry, item), subs := s.subs[item.id := Opened(item, |s.published|)])
    case BeginUndo(call, id) => Without(s, id).(failing := s.failing[call := Failing({id}, BrokerFailure)])
    case TakeTopic(call, t) =>
      var ids := Ids(Registered(s.registry, t));
      s.(registry := s.registry - {t}, subs := GoneAll(s.subs, ids, |s.published|),
         failing := s.failing[call := Failing(ids, BrokerFailure)])
    case TakeAll(call) =>
      var ids := AllIds(s.registry);
      s.(registry := map[], subs := GoneAll(s.subs, ids, |s.published|),
         failing := s.failing[call := Failing(ids, Closed)])
    case FailOne(call, id) =>
      s.(subs := s.subs[id := Ended(s.subs[id], s.failing[call].failure)],
         failing := s.failing[call := s.failing[call].(todo := s.failing[call].todo - {id})])
    case BeginClose(id) => s.(subs := s.subs[id := Ended(s.subs[id], Closed)], closing := s.closing + {id})
    case Leave(id) => Without(s, id).(closing := s.closing - {id})
    case Receive(id) => s.(subs := s.subs[id := Took(s.subs[id])])
  }

  predicate RouterEnabled(s: State, r: RouterStep) {
    match r
    case BeginRoute(_) => s.router.Waiting?
    case Visit(id) => s.router.Routing? && id in s.router.todo && id in s.subs
    case Offer(choice) => s.router.Offering? && s.router.id in s.subs && Ready(s.subs[s.router.id], choice)
    case EndSubscription => s.router.Ending? && s.router.id in s.subs
    case RemoveRouted => s.router.Removing? && s.router.id in s.subs
    case EndRoute => s.router.Routing? && s.router.todo == {}
  }

  function AfterRouter(s: State, r: RouterStep): State
    requires RouterEnabled(s, r)
  {
    match r
    case BeginRoute(m) =>
      s.(router := Routing(m, Ids(Registered(s.registry, m.topic))), published := s.published + [m])
    case Visit(id) =>
      var m, todo := s.router.message, s.router.todo - {id};
      s.(subs := s.subs[id := Taken(s.subs[id], m)],
         router := match FirstLook(s.subs[id], m)
                   case Refuse => Ending(m, todo, id, TooLarge)
                   case Skip => Routing(m, todo)
                   case Try => Offering(m, todo, id))
    case Offer(choice) =>
      var m, todo, id := s.router.message, s.router.todo, s.router.id;
      (match choice
       case Enqueue => s.(subs := s.subs[id := Queued(s.subs[id], m)], router := Routing(m, todo))
       case Drop => s.(router := Routing(m, todo))
       case Overflow => s.(router := Ending(m, todo, id, SlowConsumer)))
    case EndSubscription =>
      s.(subs := s.subs[s.router.id := Ended(s.subs[s.router.id], s.router.failure)],
         router := Removing(s.router.message, s.router.todo, s.router.id))
    case RemoveRouted => Without(s, s.router.id).(router := Routing(s.router.message, s.router.todo))
    case EndRoute => s.(router := Waiting)
  }

  predicate Enabled(s: State, a: Step) {
    match a
    case Caller(c) => CallerEnabled(s, c)
    case Route(r) => RouterEnabled(s, r)
  }

  function After(s: State, a: Step): State
    requires Enabled(s, a)
  {
    match a
    case Caller(c) => AfterCaller(s, c)
    case Route(r) => AfterRouter(s, r)
  }

  ghost predicate IsRun(s: State, steps: seq<Step>)
    decreases |steps|
  {
    steps == [] || (Enabled(s, steps[0]) && IsRun(After(s, steps[0]), steps[1..]))
  }

  function Run(s: State, steps: seq<Step>): State
    requires IsRun(s, steps)
    decreases |steps|
  {
    if steps == [] then s else Run(After(s, steps[0]), steps[1..])
  }

  // The invariant.

  predicate Current(subs: map<Id, Sub>, t: Topic, i: Item) {
    i.topic == t && i.id in subs && subs[i.id].item == i && subs[i.id].until.None?
  }

  predicate Listed(registry: Subscriptions, sub: Sub, id: Id) {
    sub.item.id == id && (sub.until.None? ==> sub.item in Registered(registry, sub.item.topic))
  }

  /** The registry holds exactly the subscriptions that have not left. */
  ghost predicate RegistryInv(registry: Subscriptions, subs: map<Id, Sub>) {
    && WellFormed(registry)
    && (forall t, i :: i in Registered(registry, t) ==> Current(subs, t, i))
    && (forall id :: id in subs ==> Listed(registry, subs[id], id))
  }

  predicate Held(r: Router, id: Id) { !r.Waiting? && !r.Routing? && r.id == id }

  /** The message the router took up for `id` and has not yet queued, dropped or refused. */
  predicate InHand(r: Router, id: Id) { (r.Offering? || r.Ending?) && r.id == id }

  predicate Ahead(r: Router, id: Id) { !r.Waiting? && id in r.todo }

  ghost predicate SubInv(s: Sub, r: Router, id: Id) {
    && |s.buffer| <= BUFFER
    && (forall m :: m in s.buffer ==> |m.payload| <= s.item.maximum)
    && Got(s) <= s.routed
    && (s.error.None? ==> s.routed == if InHand(r, id) then Got(s) + [r.message] else Got(s))
    && (r.Offering? && r.id == id ==> |r.message.payload| <= s.item.maximum && s.routed == Got(s) + [r.message])
  }

  /** The messages of one topic, in order. */
  function OnTopic(messages: seq<Message>, t: Topic): seq<Message> {
    if messages == [] then []
    else
      var n := |messages| - 1;
      OnTopic(messages[..n], t) + if messages[n].topic == t then [messages[n]] else []
  }

  /** What was published on a subscription's topic while it was registered. */
  function Due(s: Sub, published: seq<Message>): seq<Message>
    requires s.since <= (if s.until.Some? then s.until.value else |published|) <= |published|
  {
    OnTopic(published[s.since..if s.until.Some? then s.until.value else |published|], s.item.topic)
  }

  /** Everything due was taken up, or is the message on the way to it. */
  ghost predicate DueInv(s: Sub, r: Router, id: Id, published: seq<Message>) {
    && s.since <= (if s.until.Some? then s.until.value else |published|) <= |published|
    && Due(s, published) == s.routed + if Ahead(r, id) then [r.message] else []
  }

  ghost predicate BeingFailed(failing: map<nat, Failing>, id: Id) {
    exists call :: call in failing && id in failing[call].todo
  }

  /** A subscription that left the registry has a recorded error, or a call is about to record one. */
  ghost predicate ErrorInv(s: State) {
    && (forall id :: id in s.subs && s.subs[id].until.Some? ==> s.subs[id].error.Some? || BeingFailed(s.failing, id))
    && (forall id :: id in s.closing ==> id in s.subs && s.subs[id].error.Some?)
    && (s.router.Removing? && s.router.id in s.subs ==> s.subs[s.router.id].error.Some?)
  }

  ghost predicate RouterInv(r: Router, subs: map<Id, Sub>) {
    !r.Waiting? ==>
      && (forall id :: id in r.todo ==> id in subs)
      && (!r.Routing? ==> r.id in subs && r.id !in r.todo)
  }

  ghost predicate Inv(s: State) {
    && RegistryInv(s.registry, s.subs)
    && RouterInv(s.router, s.subs)
    && (forall id :: id in s.subs ==> SubInv(s.subs[id], s.router, id))
    && (forall id :: id in s.subs ==> DueInv(s.subs[id], s.router, id, s.published))
    && ErrorInv(s)
  }

  // Registry.

  lemma AddMembers(registry: Subscriptions, item: Item, t: Topic)
    ensures Registered(Add(registry, item), t) == if t == item.topic then Registered(registry, t) + {item}
                                                  else Registered(registry, t)
  {
  }

  lemma RemoveMembers(registry: Subscriptions, item: Item, t: Topic)
    requires WellFormed(registry)
    ensures Registered(Remove(registry, item), t) == Registered(registry, t) - {item}
  {
    if t != item.topic && t in registry {
      assert item !in registry[t];
    }
  }

  lemma OpenKeepsRegistry(s: State, item: Item)
    requires RegistryInv(s.registry, s.subs) && item.id !in s.subs
    ensures RegistryInv(Add(s.registry, item), s.subs[item.id := Opened(item, |s.published|)])
  {
    var registry, subs := Add(s.registry, item), s.subs[item.id := Opened(item, |s.published|)];
    EditsKeepWellFormed(s.registry, item);
    forall t, i | i in Registered(registry, t) ensures Current(subs, t, i) {
      AddMembers(s.registry, item, t);
      assert i != item ==> Current(s.subs, t, i);
    }
    forall id | id in subs ensures Listed(registry, subs[id], id) {
      AddMembers(s.registry, item, subs[id].item.topic);
      assert id != item.id ==> Listed(s.registry, s.subs[id], id);
    }
  }

  lemma WithoutKeepsRegistry(s: State, id: Id)
    requires RegistryInv(s.registry, s.subs) && id in s.subs
    ensures RegistryInv(Without(s, id).registry, Without(s, id).subs)
  {
    var item := s.subs[id].item;
    var registry, subs := Without(s, id).registry, Without(s, id).subs;
    EditsKeepWellFormed(s.registry, item);
    forall t, i | i in Registered(registry, t) ensures Current(subs, t, i) {
      RemoveMembers(s.registry, item, t);
      assert Current(s.subs, t, i);
    }
    forall j | j in subs ensures Listed(registry, subs[j], j) {
      RemoveMembers(s.registry, item, subs[j].item.topic);
      assert Listed(s.registry, s.subs[j], j);
    }
  }

  /** The snapshot holds exactly the registered subscribers of the topic. */
  lemma SnapshotIsExact(s: State, t: Topic, id: Id)
    requires RegistryInv(s.registry, s.subs) && id in s.subs
    ensures id in Ids(Registered(s.registry, t)) <==> s.subs[id].until.None? && s.subs[id].item.topic == t
  {
    assert Listed(s.registry, s.subs[id], id);
    if id in Ids(Registered(s.registry, t)) {
      var i :| i in Registered(s.registry, t) && i.id == id;
      assert Current(s.subs, t, i);
    }
  }

  lemma TakeTopicKeepsRegistry(s: State, t: Topic)
    requires RegistryInv(s.registry, s.subs)
    ensures RegistryInv(s.registry - {t}, GoneAll(s.subs, Ids(Registered(s.registry, t)), |s.published|))
  {
    var subs := GoneAll(s.subs, Ids(Registered(s.registry, t)), |s.published|);
    forall u, i | i in Registered(s.registry - {t}, u) ensures Current(subs, u, i) {
      assert i in Registered(s.registry, u);
      assert Current(s.subs, u, i);
      SnapshotIsExact(s, t, i.id);
    }
    forall id | id in subs ensures Listed(s.registry - {t}, subs[id], id) {
      SnapshotIsExact(s, t, id);
      assert Listed(s.registry, s.subs[id], id);
    }
  }

  lemma TakeAllKeepsRegistry(s: State)
    requires RegistryInv(s.registry, s.subs)
    ensures RegistryInv(map[], GoneAll(s.subs, AllIds(s.registry), |s.published|))
  {
    forall id | id in s.subs && s.subs[id].until.None? ensures id in AllIds(s.registry) {
      assert Listed(s.registry, s.subs[id], id);
    }
  }

  /** Changing a subscription without moving it in or out of the registry. */
  lemma UpdateKeepsRegistry(registry: Subscriptions, subs: map<Id, Sub>, id: Id, sub: Sub)
    requires RegistryInv(registry, subs) && id in subs && sub.item == subs[id].item && sub.until == subs[id].until
    ensures RegistryInv(registry, subs[id := sub])
  {
    forall t, i | i in Registered(registry, t) ensures Current(subs[id := sub], t, i) {
      assert Current(subs, t, i);
    }
    forall j | j in subs ensures Listed(registry, subs[id := sub][j], j) {
      assert Listed(registry, subs[j], j);
    }
  }

  lemma CallerKeepsRegistry(s: State, c: CallerStep)
    requires RegistryInv(s.registry, s.subs) && CallerEnabled(s, c)
    ensures RegistryInv(AfterCaller(s, c).registry, AfterCaller(s, c).subs)
  {
    match c
    case Open(item) => OpenKeepsRegistry(s, item);
    case BeginUndo(_, id) => WithoutKeepsRegistry(s, id);
    case TakeTopic(_, t) => TakeTopicKeepsRegistry(s, t);
    case TakeAll(_) => TakeAllKeepsRegistry(s);
    case FailOne(call, id) => UpdateKeepsRegistry(s.registry, s.subs, id, AfterCaller(s, c).subs[id]);
    case BeginClose(id) => UpdateKeepsRegistry(s.registry, s.subs, id, AfterCaller(s, c).subs[id]);
    case Leave(id) => WithoutKeepsRegistry(s, id);
    case Receive(id) => UpdateKeepsRegistry(s.registry, s.subs, id, AfterCaller(s, c).subs[id]);
  }

  lemma RouterKeepsRegistry(s: State, r: RouterStep)
    requires RegistryInv(s.registry, s.subs) && RouterEnabled(s, r)
    ensures RegistryInv(AfterRouter(s, r).registry, AfterRouter(s, r).subs)
  {
    match r
    case Visit(id) => UpdateKeepsRegistry(s.registry, s.subs, id, AfterRouter(s, r).subs[id]);
    case Offer(Enqueue) =>
      UpdateKeepsRegistry(s.registry, s.subs, s.router.id, AfterRouter(s, r).subs[s.router.id]);
    case EndSubscription =>
      UpdateKeepsRegistry(s.registry, s.subs, s.router.id, AfterRouter(s, r).subs[s.router.id]);
    case RemoveRouted => WithoutKeepsRegistry(s, s.router.id);
    case _ =>
  }

  // Buffers.

  lemma ReceiveKeepsSub(s: Sub, r: Router, id: Id)
    requires SubInv(s, r, id) && s.buffer != []
    ensures SubInv(Took(s), r, id)
  {
    assert [s.buffer[0]] + s.buffer[1..] == s.buffer;
    assert Got(Took(s)) == Got(s);
  }

  lemma CallerKeepsSubs(s: State, c: CallerStep, id: Id)
    requires CallerEnabled(s, c) && id in AfterCaller(s, c).subs
    requires id in s.subs ==> SubInv(s.subs[id], s.router, id)
    requires RouterInv(s.router, s.subs)
    ensures SubInv(AfterCaller(s, c).subs[id], s.router, id)
  {
    if c.Receive? && c.id == id { ReceiveKeepsSub(s.subs[id], s.router, id); }
  }

  lemma EnqueueKeepsSub(s: Sub, r: Router, id: Id)
    requires SubInv(s, r, id) && r.Offering? && r.id == id && |s.buffer| < BUFFER
    ensures SubInv(Queued(s, r.message), Routing(r.message, r.todo), id)
  {
    assert Got(Queued(s, r.message)) == Got(s) + [r.message];
  }

  lemma RouterKeepsSubs(s: State, r: RouterStep, id: Id)
    requires RouterEnabled(s, r) && id in AfterRouter(s, r).subs
    requires SubInv(s.subs[id], s.router, id)
    ensures SubInv(AfterRouter(s, r).subs[id], AfterRouter(s, r).router, id)
  {
    if r == Offer(Enqueue) && s.router.id == id { EnqueueKeepsSub(s.subs[id], s.router, id); }
  }

  // What is due.

  lemma OnTopicGrows(messages: seq<Message>, m: Message, t: Topic)
    ensures OnTopic(messages + [m], t) == OnTopic(messages, t) + if m.topic == t then [m] else []
  {
    assert (messages + [m])[..|messages|] == messages;
  }

  lemma PublishExtendsDue(s: Sub, published: seq<Message>, m: Message)
    requires s.since <= (if s.until.Some? then s.until.value else |published|) <= |published|
    ensures Due(s, published + [m])
         == Due(s, published) + if s.until.None? && m.topic == s.item.topic then [m] else []
  {
    var all := published + [m];
    if s.until.None? {
      var before, after := published[s.since..|published|], all[s.since..|all|];
      assert after == before + [m];
      assert after[..|after| - 1] == before;
      OnTopicGrows(before, m, s.item.topic);
    } else {
      assert all[s.since..s.until.value] == published[s.since..s.until.value];
      assert Due(s, published) + [] == Due(s, published);
    }
  }

  lemma CallerKeepsDue(s: State, c: CallerStep, id: Id)
    requires CallerEnabled(s, c) && id in AfterCaller(s, c).subs
    requires id in s.subs ==> DueInv(s.subs[id], s.router, id, s.published)
    requires RouterInv(s.router, s.subs)
    ensures DueInv(AfterCaller(s, c).subs[id], s.router, id, s.published)
  {
    if id !in s.subs {
      assert s.published[|s.published|..|s.published|] == [];
      assert [] + [] == OnTopic([], c.item.topic);
    }
  }

  lemma BeginRouteKeepsDue(s: State, m: Message, id: Id)
    requires Inv(s) && s.router.Waiting? && id in s.subs
    ensures var s' := AfterRouter(s, BeginRoute(m)); DueInv(s'.subs[id], s'.router, id, s'.published)
  {
    SnapshotIsExact(s, m.topic, id);
    PublishExtendsDue(s.subs[id], s.published, m);
    assert s.subs[id].routed + [] == s.subs[id].routed;
  }

  lemma GoneKeepsDue(s: Sub, r: Router, id: Id, published: seq<Message>)
    requires DueInv(s, r, id, published)
    ensures DueInv(Gone(s, |published|), r, id, published)
  {
  }

  lemma VisitKeepsDue(s: State, v: Id, id: Id)
    requires RouterEnabled(s, Visit(v)) && id in s.subs && DueInv(s.subs[id], s.router, id, s.published)
    ensures var s' := AfterRouter(s, Visit(v)); DueInv(s'.subs[id], s'.router, id, s'.published)
  {
    if v == id {
      var taken := Taken(s.subs[id], s.router.message);
      assert taken.routed + [] == taken.routed;
    }
  }

  lemma OfferKeepsDue(s: State, r: RouterStep, id: Id)
    requires RouterEnabled(s, r) && (r.Offer? || r.EndSubscription? || r.EndRoute?)
    requires id in s.subs && DueInv(s.subs[id], s.router, id, s.published)
    ensures var s' := AfterRouter(s, r); DueInv(s'.subs[id], s'.router, id, s'.published)
  {
    var s' := AfterRouter(s, r);
    assert Due(s'.subs[id], s'.published) == Due(s.subs[id], s.published);
  }

  lemma RouterKeepsDue(s: State, r: RouterStep, id: Id)
    requires Inv(s) && RouterEnabled(s, r) && id in s.subs
    ensures var s' := AfterRouter(s, r); DueInv(s'.subs[id], s'.router, id, s'.published)
  {
    match r
    case BeginRoute(m) => BeginRouteKeepsDue(s, m, id);
    case Visit(v) => VisitKeepsDue(s, v, id);
    case RemoveRouted => GoneKeepsDue(s.subs[id], s.router, id, s.published);
    case _ => OfferKeepsDue(s, r, id);
  }

  // Errors.

  lemma StillBeingFailed(failing: map<nat, Failing>, call: nat, f: Failing, id: Id)
    requires BeingFailed(failing, id) && (call in failing && id in failing[call].todo ==> id in f.todo)
    ensures BeingFailed(failing[call := f], id)
  {
    var c :| c in failing && id in failing[c].todo;
    assert id in failing[call := f][c].todo;
  }

  /** A new call that holds every subscription which leaves without an error. */
  lemma TakingKeepsErrors(s: State, subs: map<Id, Sub>, call: nat, f: Failing)
    requires ErrorInv(s) && call !in s.failing && subs.Keys == s.subs.Keys
    requires forall id :: id in subs ==> subs[id].error == s.subs[id].error
    requires forall id :: id in subs && subs[id].until != s.subs[id].until ==> id in f.todo
    ensures ErrorInv(s.(subs := subs, failing := s.failing[call := f]))
  {
    var failing := s.failing[call := f];
    forall id | id in subs && subs[id].until.Some? ensures subs[id].error.Some? || BeingFailed(failing, id) {
      if subs[id].until != s.subs[id].until {
        assert id in failing[call].todo;
      } else if s.subs[id].error.None? {
        StillBeingFailed(s.failing, call, f, id);
      }
    }
  }

  lemma FailOneKeepsErrors(s: State, call: nat, id: Id)
    requires ErrorInv(s) && CallerEnabled(s, FailOne(call, id))
    ensures ErrorInv(AfterCaller(s, FailOne(call, id)))
  {
    var s' := AfterCaller(s, FailOne(call, id));
    forall j | j in s'.subs && s'.subs[j].until.Some? ensures s'.subs[j].error.Some? || BeingFailed(s'.failing, j) {
      if j != id && s.subs[j].error.None? {
        StillBeingFailed(s.failing, call, s'.failing[call], j);
      }
    }
  }

  lemma CallerKeepsErrors(s: State, c: CallerStep)
    requires RouterInv(s.router, s.subs) && ErrorInv(s) && CallerEnabled(s, c)
    ensures ErrorInv(AfterCaller(s, c))
  {
    var s' := AfterCaller(s, c);
    match c
    case BeginUndo(call, id) => TakingKeepsErrors(s, s'.subs, call, s'.failing[call]);
    case TakeTopic(call, _) => TakingKeepsErrors(s, s'.subs, call, s'.failing[call]);
    case TakeAll(call) => TakingKeepsErrors(s, s'.subs, call, s'.failing[call]);
    case FailOne(call, id) => FailOneKeepsErrors(s, call, id);
    case _ =>
  }

  lemma RouterKeepsErrors(s: State, r: RouterStep)
    requires ErrorInv(s) && RouterEnabled(s, r)
    ensures ErrorInv(AfterRouter(s, r))
  {
  }

  lemma StepKeepsInv(s: State, a: Step)
    requires Inv(s) && Enabled(s, a)
    ensures Inv(After(s, a))
  {
    var s' := After(s, a);
    match a
    case Caller(c) =>
      CallerKeepsRegistry(s, c);
      CallerKeepsErrors(s, c);
      forall id | id in s'.subs
        ensures SubInv(s'.subs[id], s'.router, id) && DueInv(s'.subs[id], s'.router, id, s'.published)
      {
        CallerKeepsSubs(s, c, id);
        CallerKeepsDue(s, c, id);
      }
    case Route(r) =>
      RouterKeepsRegistry(s, r);
      RouterKeepsErrors(s, r);
      RouterKeepsRouter(s, r);
      forall id | id in s'.subs
        ensures SubInv(s'.subs[id], s'.router, id) && DueInv(s'.subs[id], s'.router, id, s'.published)
      {
        RouterKeepsSubs(s, r, id);
        RouterKeepsDue(s, r, id);
      }
  }

  lemma RouterKeepsRouter(s: State, r: RouterStep)
    requires RegistryInv(s.registry, s.subs) && RouterInv(s.router, s.subs) && RouterEnabled(s, r)
    ensures RouterInv(AfterRouter(s, r).router, AfterRouter(s, r).subs)
  {
  }

  lemma {:induction false} RunKeepsInv(s: State, steps: seq<Step>)
    requires Inv(s) && IsRun(s, steps)
    ensures Inv(Run(s, steps))
    decreases |steps|
  {
    if steps != [] {
      StepKeepsInv(s, steps[0]);
      RunKeepsInv(After(s, steps[0]), steps[1..]);
    }
  }

  function Bytes(messages: seq<Message>): nat {
    if messages == [] then 0 else |messages[0].payload| + Bytes(messages[1..])
  }

  lemma {:induction false} BytesBounded(messages: seq<Message>, maximum: nat)
    requires forall m :: m in messages ==> |m.payload| <= maximum
    ensures Bytes(messages) <= |messages| * maximum
  {
    if messages != [] { BytesBounded(messages[1..], maximum); }
  }

  // Main results.

  /**
   What the router took up for a subscription, with the message on its way to
   it, is exactly what was published on its topic while it was registered, in
   order. What Receive returned followed by what is buffered is a gap-free
   prefix of that. A subscription leaves the registry, or misses a message it
   was due, only with a terminal error recorded or about to be recorded by the
   call that took it out; and its retained payload is bounded.
   */
  lemma NoSilentLoss(steps: seq<Step>, id: Id)
    requires IsRun(Init(), steps) && id in Run(Init(), steps).subs
    ensures var s := Run(Init(), steps);
            var sub := s.subs[id];
            && DueInv(sub, s.router, id, s.published)
            && Got(sub) <= sub.routed
            && (Got(sub) == sub.routed || InHand(s.router, id) || sub.error.Some?)
            && (sub.until.None? <==> sub.item in Registered(s.registry, sub.item.topic))
            && (sub.until.Some? ==> sub.error.Some? || BeingFailed(s.failing, id))
            && |sub.buffer| <= BUFFER && Bytes(sub.buffer) <= BUFFER * sub.item.maximum
  {
    RunKeepsInv(Init(), steps);
    var s := Run(Init(), steps);
    var sub := s.subs[id];
    assert SubInv(sub, s.router, id);
    BytesBounded(sub.buffer, sub.item.maximum);
    Monotone(|sub.buffer|, BUFFER, sub.item.maximum);
  }

  /** A subscription with no error that nobody is failing has got everything published since it registered. */
  lemma HealthyHasEverything(steps: seq<Step>, id: Id)
    requires IsRun(Init(), steps) && id in Run(Init(), steps).subs
    requires var s := Run(Init(), steps);
             s.subs[id].error.None? && !BeingFailed(s.failing, id) && s.router.Waiting?
    ensures var s := Run(Init(), steps);
            && s.subs[id].since <= |s.published|
            && Got(s.subs[id]) == OnTopic(s.published[s.subs[id].since..], s.subs[id].item.topic)
  {
    RunKeepsInv(Init(), steps);
    var s := Run(Init(), steps);
    var sub := s.subs[id];
    NothingOnTheWay(sub, s.router, id, s.published);
  }

  lemma NothingOnTheWay(sub: Sub, r: Router, id: Id, published: seq<Message>)
    requires SubInv(sub, r, id) && DueInv(sub, r, id, published) && r.Waiting? && sub.error.None? && sub.until.None?
    ensures Got(sub) == OnTopic(published[sub.since..], sub.item.topic)
  {
    assert sub.routed + [] == sub.routed;
    assert published[sub.since..] == published[sub.since..|published|];
  }

  lemma Monotone(a: nat, b: nat, c: nat)
    requires a <= b
    ensures a * c <= b * c
  {
  }

  /** `a` acts on subscription `id`, or takes it out of the registry. */
  predicate Concerns(s: State, a: Step, id: Id)
    requires id in s.subs
  {
    match a
    case Caller(Open(item)) => item.id == id
    case Caller(BeginUndo(_, i)) => i == id
    case Caller(TakeTopic(_, t)) => t == s.subs[id].item.topic
    case Caller(TakeAll(_)) => true
    case Caller(FailOne(_, i)) => i == id
    case Caller(BeginClose(i)) => i == id
    case Caller(Leave(i)) => i == id
    case Caller(Receive(i)) => i == id
    case Route(BeginRoute(_)) => false
    case Route(Visit(i)) => i == id
    case Route(EndRoute) => false
    case _ => Held(s.router, id)
  }

  ghost predicate NothingConcerns(s: State, steps: seq<Step>, id: Id)
    requires IsRun(s, steps) && id in s.subs
    decreases |steps|
  {
    steps == [] ||
    (!Concerns(s, steps[0], id) && id in After(s, steps[0]).subs && NothingConcerns(After(s, steps[0]), steps[1..], id))
  }

  lemma OtherCallerStep(s: State, c: CallerStep, id: Id)
    requires RegistryInv(s.registry, s.subs) && CallerEnabled(s, c) && id in s.subs && !Concerns(s, Caller(c), id)
    ensures id in AfterCaller(s, c).subs && AfterCaller(s, c).subs[id] == s.subs[id]
  {
    if c.TakeTopic? {
      SnapshotIsExact(s, c.topic, id);
    }
  }

  lemma OtherStep(s: State, a: Step, id: Id)
    requires RegistryInv(s.registry, s.subs) && Enabled(s, a) && id in s.subs && !Concerns(s, a, id)
    ensures id in After(s, a).subs && After(s, a).subs[id] == s.subs[id]
    ensures Ahead(s.router, id) ==> Ahead(After(s, a).router, id) && After(s, a).router.message == s.router.message
  {
    if a.Caller? {
      OtherCallerStep(s, a.c, id);
    }
  }

  /**
   Whatever happens to other subscribers, however often they fail, overflow,
   leave or are delivered to: this one keeps its messages and its place in the
   registry, and a message on its way to it stays on its way until its visit.
   */
  lemma {:induction false} OthersDoNotInterfere(s: State, steps: seq<Step>, id: Id)
    requires Inv(s) && IsRun(s, steps) && id in s.subs && NothingConcerns(s, steps, id)
    ensures id in Run(s, steps).subs && Run(s, steps).subs[id] == s.subs[id]
    ensures Ahead(s.router, id) ==>
              Ahead(Run(s, steps).router, id) && Run(s, steps).router.message == s.router.message
    decreases |steps|
  {
    if steps != [] {
      OtherStep(s, steps[0], id);
      StepKeepsInv(s, steps[0]);
      OthersDoNotInterfere(After(s, steps[0]), steps[1..], id);
    }
  }

  /** How many router steps a message still needs. */
  function Remaining(r: Router): nat {
    match r
    case Waiting => 0
    case Routing(_, todo) => 1 + 4 * |todo|
    case Offering(_, todo, _) => 4 + 4 * |todo|
    case Ending(_, todo, _, _) => 3 + 4 * |todo|
    case Removing(_, todo, _) => 2 + 4 * |todo|
  }

  /**
   The router is never blocked by a subscriber: while it has a message, it can
   step, and each step brings it closer.
   */
  lemma RouterNeverBlocks(steps: seq<Step>)
    requires IsRun(Init(), steps) && !Run(Init(), steps).router.Waiting?
    ensures var s := Run(Init(), steps);
            exists r :: RouterEnabled(s, r) && Remaining(AfterRouter(s, r).router) < Remaining(s.router)
  {
    RunKeepsInv(Init(), steps);
    var s := Run(Init(), steps);
    var r := NextRouterStep(s);
  }

  lemma NextRouterStep(s: State) returns (r: RouterStep)
    requires RouterInv(s.router, s.subs) && !s.router.Waiting?
    ensures RouterEnabled(s, r) && Remaining(AfterRouter(s, r).router) < Remaining(s.router)
  {
    match s.router
    case Routing(_, todo) =>
      if todo == {} {
        r := EndRoute;
      } else {
        var id :| id in todo;
        r := Visit(id);
        assert |todo - {id}| == |todo| - 1;
      }
    case Offering(_, _, id) =>
      r := Offer(if |s.subs[id].buffer| < BUFFER then Enqueue else if s.subs[id].error.Some? then Drop else Overflow);
    case Ending(_, _, _, _) => r := EndSubscription;
    case Removing(_, _, _) => r := RemoveRouted;
  }

  // The subscription object.

  /** What other goroutines do to a subscription between two selects. */
  datatype Meanwhile = Fails(failure: Failure) | Receives | Queues(message: Message)

  function AfterMeanwhile(s: Sub, a: Meanwhile): Sub {
    match a
    case Fails(f) => Ended(s, f)
    case Receives => if s.buffer == [] then s else Took(s)
    case Queues(m) => if |s.buffer| < BUFFER then Queued(s, m) else s
  }

  function AfterAll(s: Sub, acts: seq<Meanwhile>): Sub {
    if acts == [] then s else AfterMeanwhile(AfterAll(s, acts[..|acts| - 1]), acts[|acts| - 1])
  }

  /** The case that Receive's second select prefers among the ready ones. */
  datatype Wake = Arrival | Done | ContextEnded

  datatype Received = Arrived(message: Message) | Terminal(failure: Failure) | Cancelled | Blocked

  class Subscription {
    const item: Item
    var messages: seq<Message>
    var error: Option<Failure>
    ghost var returned: seq<Message>
    ghost var routed: seq<Message>
    ghost var since: nat
    ghost var until: Option<nat>

    ghost function View(): Sub reads this { Sub(item, messages, error, returned, routed, since, until) }

    constructor (item: Item, ghost now: nat)
      ensures View() == Opened(item, now)
    {
      this.item := item;
      messages, error := [], None;
      returned, routed, since, until := [], [], now, None;
    }

    method Fail(f: Failure)
      modifies this`error
      ensures View() == Ended(old(View()), f)
      ensures error == (if old(error).None? then Some(f) else old(error)) && messages == old(messages)
    {
      if error.None? { error := Some(f); }
    }

    /** The other goroutines' turn. */
    method Interleave(acts: seq<Meanwhile>)
      modifies this`messages, this`error, this`returned
      ensures View() == AfterAll(old(View()), acts)
    {
      var i := 0;
      while i < |acts|
        invariant 0 <= i <= |acts|
        invariant View() == AfterAll(old(View()), acts[..i])
      {
        assert acts[..i + 1][..i] == acts[..i];
        match acts[i] {
          case Fails(f) => Fail(f);
          case Receives =>
            if messages != [] {
              returned := returned + [messages[0]];
              messages := messages[1..];
            }
          case Queues(m) => if |messages| < BUFFER { messages := messages + [m]; }
        }
        i := i + 1;
      }
      assert acts[..i] == acts;
    }

    /** Two selects; between them anything may happen, and the second may take any ready case. */
    method Receive(acts: seq<Meanwhile>, wake: Wake, cancelled: bool) returns (r: Received)
      modifies this`messages, this`error, this`returned
      ensures old(error).Some? ==> r == Terminal(old(error).value) && View() == old(View())
      ensures old(error).None? ==>
                var s := AfterAll(old(View()), acts);
                && (r.Arrived? ==> s.buffer != [] && r.message == s.buffer[0] && View() == Took(s))
                && (!r.Arrived? ==> View() == s)
                && (r.Terminal? ==> s.error == Some(r.failure))
                && (r.Cancelled? ==> cancelled)
                && (r.Blocked? ==> s.buffer == [] && s.error.None? && !cancelled)
    {
      if error.Some? {
        return Terminal(error.value);
      }
      Interleave(acts);
      if messages != [] && (wake.Arrival? || (error.None? && !cancelled)) {
        r := Arrived(messages[0]);
        returned := returned + [messages[0]];
        messages := messages[1..];
      } else if error.Some? && (wake.Done? || !cancelled) {
        r := Terminal(error.value);
      } else if cancelled {
        r := Cancelled;
      } else {
        r := Blocked;
      }
    }

    /** deliver; false asks the router to fail the subscription as a slow consumer. */
    method Deliver(m: Message, acts: seq<Meanwhile>, preferRoom: bool) returns (ok: bool, ghost choice: Choice)
      modifies this`messages, this`error, this`returned
      ensures old(error).Some? ==> ok && View() == old(View())
      ensures old(error).None? ==>
                var s := AfterAll(old(View()), acts);
                && Ready(s, choice) && ok == !choice.Overflow?
                && View() == if choice.Enqueue? then Queued(s, m) else s
    {
      ok, choice := true, Drop;
      if error.Some? {
        return;
      }
      Interleave(acts);
      if |messages| < BUFFER && (preferRoom || error.None?) {
        messages, choice := messages + [m], Enqueue;
      } else if error.None? {
        ok, choice := false, Overflow;
      }
    }

    /** One round of route's loop for this subscriber, up to its removal; `None` keeps it registered. */
    method TakeUp(m: Message, acts: seq<Meanwhile>, preferRoom: bool)
      returns (failure: Option<Failure>, ghost choice: Choice)
      modifies this`messages, this`error, this`returned, this`routed
      ensures var seen := Taken(old(View()), m);
              match FirstLook(old(View()), m)
              case Refuse => failure == Some(TooLarge) && View() == Ended(seen, TooLarge)
              case Skip => failure.None? && View() == seen
              case Try =>
                var s := AfterAll(seen, acts);
                && Ready(s, choice) && failure == (if choice.Overflow? then Some(SlowConsumer) else None)
                && View() == match choice
                             case Enqueue => Queued(s, m)
                             case Drop => s
                             case Overflow => Ended(s, SlowConsumer)
      ensures |m.payload| > item.maximum ==> failure == Some(TooLarge) && messages == old(messages)
                                             && error == (if old(error).None? then Some(TooLarge) else old(error))
      ensures |m.payload| <= item.maximum && old(error).Some? ==>
                failure.None? && messages == old(messages) && error == old(error)
      ensures |m.payload| <= item.maximum && old(error).None? && acts == [] ==>
                if |old(messages)| < 16 then
                  failure.None? && messages == old(messages) + [m] && error.None?
                else failure == Some(SlowConsumer) && messages == old(messages) && error == Some(SlowConsumer)
    {
      routed := routed + [m];
      failure, choice := None, Drop;
      if |m.payload| > item.maximum {
        Fail(TooLarge);
        return Some(TooLarge), Drop;
      }
      var ok;
      ok, choice := Deliver(m, acts, preferRoom);
      if !ok {
        Fail(SlowConsumer);
        failure := Some(SlowConsumer);
      }
    }
  }
}

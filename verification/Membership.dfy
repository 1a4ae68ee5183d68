/**
 Which subscriptions belong to the registry: exactly those that were created and
 that nothing has dropped since. A Subscribe that fails or is given up leaves
 nothing behind.
 */
module Membership {
  import opened Registry
  import opened Reconciler

  predicate In(subs: Subscriptions, item: Item) { item in Registered(subs, item.topic) }

  /** What takes a subscription out for good. */
  predicate Drops(s: State, a: Step, item: Item) {
    match a
    case Caller(_, BeginRemove(i, _)) => i == item
    case Caller(id, GiveUp) => id in s.calls && s.calls[id] in {Submitting(item), Awaiting(item)}
    case Control(FailTopicSection) => s.loop.Failing? && s.loop.topic == item.topic && item in s.created
    case Control(Reply) => exists id: nat :: id in s.calls && Refuses(s, id, item)
    case _ => false
  }

  /** The loop is about to tell the Subscribe of `item` that it failed. */
  predicate Refuses(s: State, id: nat, item: Item) {
    s.loop == Replying(Operation(id), false) && id in s.calls && s.calls[id] == Awaiting(item)
  }

  ghost predicate Dropped(s: State, steps: seq<Step>, item: Item)
    requires IsRun(s, steps)
    decreases |steps|
  {
    steps != [] && (Drops(s, steps[0], item) || Dropped(After(s, steps[0]), steps[1..], item))
  }

  ghost predicate BeingRemoved(calls: map<nat, Call>, item: Item) {
    exists id :: id in calls && calls[id].Removing? && calls[id].item == item
  }

  ghost predicate Unknown(calls: map<nat, Call>, item: Item) {
    forall id :: id in calls ==> calls[id] != Submitting(item) && calls[id] != Awaiting(item)
  }

  /** What is known of an item, given whether something has dropped it. */
  ghost predicate Belongs(s: State, item: Item, dropped: bool) {
    if item !in s.created then
      !dropped && !In(s.subs, item) && !BeingRemoved(s.calls, item) && Unknown(s.calls, item)
    else if dropped then In(s.subs, item) ==> BeingRemoved(s.calls, item)
    else In(s.subs, item) && !BeingRemoved(s.calls, item)
  }

  // Every step keeps it.

  lemma RegisterKeepsBelongs(s: State, id: nat, i: Item, item: Item, dropped: bool)
    requires Belongs(s, item, dropped) && CallerEnabled(s, id, Register(i))
    ensures Belongs(AfterCaller(s, id, Register(i)), item, dropped)
  {
    CallMoves(s.calls, id, Submitting(i), item);
  }

  /** Whether an item is being removed after one call has moved on. */
  lemma CallMoves(calls: map<nat, Call>, id: nat, c: Call, item: Item)
    ensures BeingRemoved(calls[id := c], item) <==> (c.Removing? && c.item == item) || BeingRemoved(calls - {id}, item)
    ensures BeingRemoved(calls, item) <==>
              (id in calls && calls[id].Removing? && calls[id].item == item) || BeingRemoved(calls - {id}, item)
    ensures Unknown(calls, item) && c != Submitting(item) && c != Awaiting(item) ==> Unknown(calls[id := c], item)
    ensures Unknown(calls, item) ==> Unknown(calls - {id}, item)
  {
    if BeingRemoved(calls - {id}, item) {
      var j :| j in calls - {id} && calls[j].Removing? && calls[j].item == item;
      assert j in calls[id := c] && calls[id := c][j] == calls[j];
    }
    if c.Removing? && c.item == item {
      assert calls[id := c][id] == c;
    }
    if BeingRemoved(calls[id := c], item) {
      var j :| j in calls[id := c] && calls[id := c][j].Removing? && calls[id := c][j].item == item;
      assert j != id ==> j in calls - {id};
    }
    if BeingRemoved(calls, item) {
      var j :| j in calls && calls[j].Removing? && calls[j].item == item;
      assert j != id ==> j in calls - {id};
    }
  }

  lemma RemoveOther(subs: Subscriptions, i: Item, item: Item)
    ensures In(Remove(subs, i), item) <==> In(subs, item) && i != item
  {
  }

  lemma GiveUpKeepsBelongs(s: State, id: nat, item: Item, dropped: bool)
    requires Belongs(s, item, dropped) && CallerEnabled(s, id, GiveUp)
    ensures Belongs(AfterCaller(s, id, GiveUp), item, dropped || Drops(s, Caller(id, GiveUp), item))
  {
    var c := s.calls[id];
    CallMoves(s.calls, id, if c.Submitting? || c.Awaiting? then Removing(c.item, false) else c, item);
  }

  lemma RemoveKeepsBelongs(s: State, id: nat, item: Item, dropped: bool)
    requires Belongs(s, item, dropped) && CallerEnabled(s, id, RemoveSection)
    ensures Belongs(AfterCaller(s, id, RemoveSection), item, dropped)
  {
    CallMoves(s.calls, id, Posting(s.calls[id].close), item);
    RemoveOther(s.subs, s.calls[id].item, item);
  }

  lemma BeginRemoveKeepsBelongs(s: State, id: nat, i: Item, close: bool, item: Item, dropped: bool)
    requires Belongs(s, item, dropped) && CallerEnabled(s, id, BeginRemove(i, close))
    ensures Belongs(AfterCaller(s, id, BeginRemove(i, close)), item, dropped || i == item)
  {
    CallMoves(s.calls, id, Removing(i, close), item);
  }

  lemma PostKeepsBelongs(s: State, id: nat, item: Item, dropped: bool)
    requires Belongs(s, item, dropped) && CallerEnabled(s, id, PostReconcile)
    ensures Belongs(AfterCaller(s, id, PostReconcile), item, dropped)
  {
    CallMoves(s.calls, id, Resubmitting, item);
  }

  lemma CallerKeepsBelongs(s: State, id: nat, c: CallerStep, item: Item, dropped: bool)
    requires Belongs(s, item, dropped) && CallerEnabled(s, id, c)
    ensures Belongs(AfterCaller(s, id, c), item, dropped || Drops(s, Caller(id, c), item))
  {
    match c
    case Register(i) => RegisterKeepsBelongs(s, id, i, item, dropped);
    case BeginRemove(i, close) => BeginRemoveKeepsBelongs(s, id, i, close, item, dropped);
    case GiveUp => GiveUpKeepsBelongs(s, id, item, dropped);
    case RemoveSection => RemoveKeepsBelongs(s, id, item, dropped);
    case PostReconcile => PostKeepsBelongs(s, id, item, dropped);
  }

  lemma AnswerStep(s: State)
    requires ControlEnabled(s, Reply)
    ensures var s' := AfterControl(s, Reply);
            && s'.subs == s.subs && s'.created == s.created
            && s'.calls == if s.loop.w.Token? then s.calls else Answered(s.calls, s.loop.w.id, s.loop.ok)
  {
  }

  /** Answering moves the one call that waits for the answer; a failed Subscribe goes on to remove its item. */
  lemma AnswerMoves(calls: map<nat, Call>, id: nat, ok: bool, item: Item)
    ensures var answered := Answered(calls, id, ok);
            && (Unknown(calls, item) ==> Unknown(answered, item))
            && (BeingRemoved(answered, item) <==>
                  BeingRemoved(calls, item) || (id in calls && calls[id] == Awaiting(item) && !ok))
  {
    if id in calls && calls[id].Awaiting? {
      CallMoves(calls, id, Removing(calls[id].item, false), item);
    } else {
      CallMoves(calls, id, Resyncing, item);
    }
  }

  lemma AnswerKeepsBelongs(s: State, item: Item, dropped: bool)
    requires Belongs(s, item, dropped) && ControlEnabled(s, Reply)
    ensures Belongs(AfterControl(s, Reply), item, dropped || Drops(s, Control(Reply), item))
  {
    AnswerStep(s);
    if s.loop.w.Operation? {
      AnswerMoves(s.calls, s.loop.w.id, s.loop.ok, item);
      assert Refuses(s, s.loop.w.id, item) ==> Drops(s, Control(Reply), item);
    }
  }

  lemma TakeKeepsBelongs(s: State, id: nat, item: Item, dropped: bool)
    requires Belongs(s, item, dropped) && ControlEnabled(s, TakeOperation(id))
    ensures Belongs(AfterControl(s, TakeOperation(id)), item, dropped)
  {
    var c := s.calls[id];
    CallMoves(s.calls, id, if c.Submitting? then Awaiting(c.item) else Resyncing, item);
  }

  lemma FailKeepsBelongs(s: State, item: Item, dropped: bool)
    requires Belongs(s, item, dropped) && ControlEnabled(s, FailTopicSection)
    ensures Belongs(AfterControl(s, FailTopicSection), item, dropped || Drops(s, Control(FailTopicSection), item))
  {
    var s' := AfterControl(s, FailTopicSection);
    assert s'.subs == s.subs - {s.loop.topic} && s'.calls == s.calls && s'.created == s.created;
  }

  ghost predicate SameMembers(s: State, s': State) {
    s'.subs == s.subs && s'.calls == s.calls && s'.created == s.created
  }

  lemma OtherControlKeepsMembers(s: State, c: ControlStep)
    requires ControlEnabled(s, c) && !c.Reply? && !c.TakeOperation? && !c.FailTopicSection?
    ensures SameMembers(s, AfterControl(s, c))
  {
  }

  lemma ControlKeepsBelongs(s: State, c: ControlStep, item: Item, dropped: bool)
    requires Belongs(s, item, dropped) && ControlEnabled(s, c)
    ensures Belongs(AfterControl(s, c), item, dropped || Drops(s, Control(c), item))
  {
    match c
    case Reply => AnswerKeepsBelongs(s, item, dropped);
    case TakeOperation(id) => TakeKeepsBelongs(s, id, item, dropped);
    case FailTopicSection => FailKeepsBelongs(s, item, dropped);
    case _ => OtherControlKeepsMembers(s, c);
  }

  lemma PassKeepsMembers(s: State, p: PassStep)
    requires PassEnabled(s, p)
    ensures SameMembers(s, AfterPass(s, p))
  {
    PassKeepsRegistry(s, p);
    match p
    case SendSubscribe(t, reply) => SubscribeKeepsMembers(s, t, reply);
    case SendUnsubscribe(t, reply) => UnsubscribeKeepsMembers(s, t, reply);
    case _ => LocalKeepsCalls(s, p);
  }

  lemma SubscribeKeepsMembers(s: State, t: Topic, reply: Registry.Reply)
    requires PassEnabled(s, SendSubscribe(t, reply))
    ensures SameMembers(s, AfterSubscribe(s, t, reply))
  {
  }

  lemma UnsubscribeKeepsMembers(s: State, t: Topic, reply: Registry.Reply)
    requires PassEnabled(s, SendUnsubscribe(t, reply))
    ensures SameMembers(s, AfterUnsubscribe(s, t, reply))
  {
  }

  lemma LocalKeepsCalls(s: State, p: PassStep)
    requires PassEnabled(s, p) && !IsSend(p)
    ensures AfterPass(s, p).calls == s.calls && AfterPass(s, p).created == s.created
  {
  }

  lemma StepKeepsBelongs(s: State, a: Step, item: Item, dropped: bool)
    requires Belongs(s, item, dropped) && Enabled(s, a)
    ensures Belongs(After(s, a), item, dropped || Drops(s, a, item))
  {
    match a
    case Caller(id, c) => CallerKeepsBelongs(s, id, c, item, dropped);
    case Control(c) => ControlKeepsBelongs(s, c, item, dropped);
    case Pass(p) => PassKeepsMembers(s, p);
    case _ => assert SameMembers(s, After(s, a));
  }

  lemma {:induction false} RunKeepsBelongs(s: State, steps: seq<Step>, item: Item, dropped: bool)
    requires Belongs(s, item, dropped) && IsRun(s, steps)
    ensures Belongs(Run(s, steps), item, dropped || Dropped(s, steps, item))
    decreases |steps|
  {
    if steps != [] {
      StepKeepsBelongs(s, steps[0], item, dropped);
      RunKeepsBelongs(After(s, steps[0]), steps[1..], item, dropped || Drops(s, steps[0], item));
    }
  }

  // Main results.

  /**
   Whenever no call is outstanding, the registry holds exactly the subscriptions
   that were created and that no failed Subscribe, ended context, failed topic
   or removal has dropped.
   */
  lemma RegistryIsExact(steps: seq<Step>, item: Item)
    requires IsRun(Init(), steps) && Run(Init(), steps).calls == map[]
    ensures var s := Run(Init(), steps);
            item in Registered(s.subs, item.topic) <==> item in s.created && !Dropped(Init(), steps, item)
  {
    assert Belongs(Init(), item, false);
    RunKeepsBelongs(Init(), steps, item, false);
  }

  /** A reachable state knows of every item whether something has dropped it. */
  lemma ReachableBelongs(s: State, item: Item) returns (dropped: bool)
    requires Reachable(s)
    ensures Belongs(s, item, dropped)
  {
    var steps :| IsRun(Init(), steps) && Run(Init(), steps) == s;
    assert Belongs(Init(), item, false);
    RunKeepsBelongs(Init(), steps, item, false);
    dropped := Dropped(Init(), steps, item);
  }

  /** Whatever the step that drops it, a subscription is gone once no call is outstanding. */
  lemma DroppedIsGone(s: State, steps: seq<Step>, item: Item)
    requires Reachable(s) && IsRun(s, steps) && Dropped(s, steps, item) && Run(s, steps).calls == map[]
    ensures item !in Registered(Run(s, steps).subs, item.topic)
  {
    var dropped := ReachableBelongs(s, item);
    RunKeepsBelongs(s, steps, item, dropped);
  }

  /** A Subscribe whose context ends leaves nothing in the registry. */
  lemma AbandonedSubscribeLeavesNothing(s: State, id: nat, item: Item, steps: seq<Step>)
    requires Reachable(s) && id in s.calls && s.calls[id] in {Submitting(item), Awaiting(item)}
    requires IsRun(s, [Caller(id, GiveUp)] + steps) && Run(s, [Caller(id, GiveUp)] + steps).calls == map[]
    ensures item !in Registered(Run(s, [Caller(id, GiveUp)] + steps).subs, item.topic)
  {
    DroppedIsGone(s, [Caller(id, GiveUp)] + steps, item);
  }

  /** Until its result is delivered or its context ends, a refused Subscribe stays refused. */
  lemma RefusalWaits(s: State, a: Step, id: nat, item: Item)
    requires Refuses(s, id, item) && Enabled(s, a) && !Drops(s, a, item)
    ensures Refuses(After(s, a), id, item)
  {
    if a.Caller? { CallerKeepsRefusal(s, a.id, a.caller, id, item); }
  }

  lemma CallerKeepsRefusal(s: State, j: nat, c: CallerStep, id: nat, item: Item)
    requires Refuses(s, id, item) && CallerEnabled(s, j, c) && (j == id ==> !c.GiveUp?)
    ensures Refuses(AfterCaller(s, j, c), id, item)
  {
  }

  lemma {:induction false} RefusedIsDropped(s: State, id: nat, item: Item, steps: seq<Step>)
    requires Refuses(s, id, item) && IsRun(s, steps) && Run(s, steps).calls == map[]
    ensures Dropped(s, steps, item)
    decreases |steps|
  {
    if steps != [] && !Drops(s, steps[0], item) {
      RefusalWaits(s, steps[0], id, item);
      RefusedIsDropped(After(s, steps[0]), id, item, steps[1..]);
    }
  }

  /** A Subscribe that the loop answers with an error leaves nothing in the registry. */
  lemma FailedSubscribeLeavesNothing(s: State, id: nat, item: Item, steps: seq<Step>)
    requires Reachable(s) && id in s.calls && s.calls[id] == Awaiting(item)
    requires s.loop == Replying(Operation(id), false)
    requires IsRun(s, steps) && Run(s, steps).calls == map[]
    ensures item !in Registered(Run(s, steps).subs, item.topic)
  {
    RefusedIsDropped(s, id, item, steps);
    DroppedIsGone(s, steps, item);
  }
}

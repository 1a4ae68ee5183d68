/**
 Convergence of the reconciler: once callers start nothing new, the connection
 stays up and the broker refuses no unsubscribe, every schedule of the remaining
 steps ends in a quiet state, whose session serves the registry. Contexts of
 waiting callers may end and subscribes may be refused all along.
 */
module Settling {
  import opened Registry
  import opened Reconciler
  import opened Totals

  /** What a call may still cost in wake-ups and lock sections. */
  function CallWork(c: Call): nat {
    match c
    case Submitting(_) => 5
    case Awaiting(_) => 4
    case Removing(_, close) => if close then 5 else 3
    case Posting(close) => if close then 4 else 2
    case Resubmitting => 2
    case Resyncing => 1
  }

  function CallWorks(calls: map<nat, Call>): map<nat, nat> {
    map id | id in calls :: CallWork(calls[id])
  }

  function One(b: bool): nat { if b then 1 else 0 }

  /** The topics that the loop is still to visit or about to fail. */
  function Asked(l: Loop): set<Topic> {
    match l
    case Subscribing(_, _, todo) => todo
    case Granted(_, _, todo, _) => todo
    case Failing(_, t) => {t}
    case _ => {}
  }

  /** The topics that can still be refused. */
  function Topics(s: State): set<Topic> { s.subs.Keys + Asked(s.loop) }

  /** Wake-ups that are waiting or may still be caused; a failed topic will post one. */
  ghost function Work(s: State): nat {
    Total(CallWorks(s.calls)) + One(s.reconcile) + One(s.reconnect) + One(s.retry)
    + One(s.loop.Waking?)
  }

  function Stage(l: Loop): nat {
    match l
    case Idle => 0
    case Replying(_, _) => 1
    case Waking(_) => 2
    case Failing(_, _) => 3
    case Unsubscribing(_, _, _) => 4
    case Revoked(_, _, _, _) => 4
    case Subscribing(_, _, _) => 5
    case Granted(_, _, _, _) => 5
    case Starting(_) => 6
  }

  /** Topics still to be visited in the current stage, two steps each. */
  function Visits(l: Loop): nat {
    match l
    case Unsubscribing(_, _, todo) => 2 * |todo|
    case Revoked(_, _, todo, _) => 2 * |todo| + 1
    case Subscribing(_, _, todo) => 2 * |todo|
    case Granted(_, _, todo, _) => 2 * |todo| + 1
    case _ => 0
  }

  /** The last three parts of the measure. */
  ghost predicate LessWork(s': State, s: State) {
    || Work(s') < Work(s)
    || (Work(s') == Work(s) && Stage(s'.loop) < Stage(s.loop))
    || (Work(s') == Work(s) && Stage(s'.loop) == Stage(s.loop) && Visits(s'.loop) < Visits(s.loop))
  }

  /** The measure, compared lexicographically: a refused subscribe costs its topic. */
  ghost predicate Falls(s': State, s: State) {
    |Topics(s')| < |Topics(s)| || (|Topics(s')| == |Topics(s)| && LessWork(s', s))
  }

  lemma TopicsShrink(s': State, s: State)
    requires Topics(s') <= Topics(s) && LessWork(s', s)
    ensures Falls(s', s)
  {
    Smaller(Topics(s'), Topics(s));
  }

  lemma Smaller(a: set<Topic>, b: set<Topic>)
    requires a <= b
    ensures |a| <= |b| && (a != b ==> |a| < |b|)
  {
    assert b == a + (b - a);
    if a != b {
      var t :| t in b - a;
    }
  }

  /** Unsubscribes are acknowledged; a subscribe may get any answer of a connected broker. */
  predicate NotRefused(p: PassStep) {
    p.SendUnsubscribe? ==> ValidUnsuback(p.reply)
  }

  /** Steps of the loop, and steps of calls that finish what they began or give up on it. */
  predicate Settles(s: State, a: Step) {
    && s.up && Enabled(s, a)
    && match a
       case Caller(_, c) => c.RemoveSection? || c.PostReconcile? || c.GiveUp?
       case Control(_) => true
       case Pass(p) => NotRefused(p)
       case _ => false
  }

  // The measure falls.

  lemma CallMoves(calls: map<nat, Call>, id: nat, c: Call)
    requires id in calls
    ensures Total(CallWorks(calls[id := c])) + CallWork(calls[id]) == Total(CallWorks(calls)) + CallWork(c)
  {
    TotalUpdate(CallWorks(calls), id, CallWork(c));
    assert CallWorks(calls[id := c]) == CallWorks(calls)[id := CallWork(c)];
  }

  lemma CallEnds(calls: map<nat, Call>, id: nat)
    requires id in calls
    ensures Total(CallWorks(calls - {id})) + CallWork(calls[id]) == Total(CallWorks(calls))
  {
    TotalUpdate(CallWorks(calls), id, 0);
    assert CallWorks(calls - {id}) == CallWorks(calls) - {id};
  }

  lemma RemoveSectionFalls(s: State, id: nat)
    requires CallerEnabled(s, id, RemoveSection)
    ensures Work(AfterCaller(s, id, RemoveSection)) < Work(s)
  {
    CallMoves(s.calls, id, Posting(s.calls[id].close));
  }

  lemma PostReconcileFalls(s: State, id: nat)
    requires CallerEnabled(s, id, PostReconcile)
    ensures Work(AfterCaller(s, id, PostReconcile)) < Work(s)
  {
    if s.calls[id].close {
      CallMoves(s.calls, id, Resubmitting);
    } else {
      CallEnds(s.calls, id);
    }
  }

  lemma GiveUpFalls(s: State, id: nat)
    requires CallerEnabled(s, id, GiveUp)
    ensures Work(AfterCaller(s, id, GiveUp)) < Work(s)
  {
    if s.calls[id].Submitting? || s.calls[id].Awaiting? {
      CallMoves(s.calls, id, Removing(s.calls[id].item, false));
    } else {
      CallEnds(s.calls, id);
    }
  }

  lemma CallerShrinksTopics(s: State, id: nat, c: CallerStep)
    requires CallerEnabled(s, id, c) && (c.RemoveSection? || c.PostReconcile? || c.GiveUp?)
    ensures Topics(AfterCaller(s, id, c)) <= Topics(s) && AfterCaller(s, id, c).up == s.up
  {
  }

  lemma CallerStepFalls(s: State, id: nat, c: CallerStep)
    requires CallerEnabled(s, id, c) && (c.RemoveSection? || c.PostReconcile? || c.GiveUp?)
    ensures Falls(AfterCaller(s, id, c), s)
  {
    match c {
      case RemoveSection => RemoveSectionFalls(s, id);
      case PostReconcile => PostReconcileFalls(s, id);
      case GiveUp => GiveUpFalls(s, id);
    }
    CallerShrinksTopics(s, id, c);
    TopicsShrink(AfterCaller(s, id, c), s);
  }

  lemma AnsweredFalls(calls: map<nat, Call>, id: nat, ok: bool)
    ensures Total(CallWorks(Answered(calls, id, ok))) <= Total(CallWorks(calls))
  {
    if id in calls {
      CallEnds(calls, id);
      if calls[id].Awaiting? {
        CallMoves(calls, id, Removing(calls[id].item, false));
      }
    }
  }

  lemma TakeOperationFalls(s: State, id: nat)
    requires ControlEnabled(s, TakeOperation(id))
    ensures Work(AfterControl(s, TakeOperation(id))) < Work(s)
  {
    CallMoves(s.calls, id, AfterControl(s, TakeOperation(id)).calls[id]);
  }

  lemma ReplyFalls(s: State)
    requires ControlEnabled(s, Reply)
    ensures LessWork(AfterControl(s, Reply), s)
  {
    if s.loop.w.Operation? { AnsweredFalls(s.calls, s.loop.w.id, s.loop.ok); }
  }

  lemma WakeFalls(s: State, c: ControlStep)
    requires ControlEnabled(s, c) && !c.TakeOperation? && !c.Reply? && !c.FailTopicSection?
    ensures LessWork(AfterControl(s, c), s)
  {
    assert AfterControl(s, c).calls == s.calls;
  }

  lemma OneTopicLess(subs: Subscriptions, t: Topic)
    ensures |(subs - {t}).Keys + {}| < |subs.Keys + {t}|
  {
    var rest, all := (subs - {t}).Keys + {}, subs.Keys + {t};
    Smaller(rest, all);
    assert t in all && t !in rest;
  }

  lemma FailTopicStep(s: State)
    requires ControlEnabled(s, FailTopicSection)
    ensures AfterControl(s, FailTopicSection).subs == s.subs - {s.loop.topic}
    ensures AfterControl(s, FailTopicSection).loop == Waking(s.loop.w)
  {
  }

  lemma FailTopicFalls(s: State)
    requires ControlEnabled(s, FailTopicSection)
    ensures |Topics(AfterControl(s, FailTopicSection))| < |Topics(s)|
  {
    FailTopicStep(s);
    OneTopicLess(s.subs, s.loop.topic);
  }

  lemma ControlShrinksTopics(s: State, c: ControlStep)
    requires ControlEnabled(s, c)
    ensures Topics(AfterControl(s, c)) <= Topics(s) && AfterControl(s, c).up == s.up
  {
  }

  lemma ControlStepFalls(s: State, c: ControlStep)
    requires ControlEnabled(s, c)
    ensures Falls(AfterControl(s, c), s)
  {
    if c.FailTopicSection? {
      FailTopicFalls(s);
    } else {
      match c {
        case TakeOperation(id) => TakeOperationFalls(s, id);
        case Reply => ReplyFalls(s);
        case _ => WakeFalls(s, c);
      }
      ControlShrinksTopics(s, c);
      TopicsShrink(AfterControl(s, c), s);
    }
  }

  lemma SmallerTodo(todo: set<Topic>, t: Topic)
    requires t in todo
    ensures |todo - {t}| == |todo| - 1
  {
    assert todo == (todo - {t}) + {t};
  }

  lemma SubscribeShrinksTopics(s: State, t: Topic, reply: Registry.Reply)
    requires PassEnabled(s, SendSubscribe(t, reply))
    ensures Asked(AfterSubscribe(s, t, reply).loop) <= Asked(s.loop)
  {
  }

  lemma SubscribeFalls(s: State, t: Topic, reply: Registry.Reply)
    requires s.up && PassEnabled(s, SendSubscribe(t, reply))
    ensures LessWork(AfterSubscribe(s, t, reply), s)
  {
    SmallerTodo(s.loop.todo, t);
  }

  lemma UnsubscribeFalls(s: State, t: Topic, reply: Registry.Reply)
    requires PassEnabled(s, SendUnsubscribe(t, reply)) && ValidUnsuback(reply)
    ensures LessWork(AfterUnsubscribe(s, t, reply), s) && Asked(AfterUnsubscribe(s, t, reply).loop) == {}
  {
    SmallerTodo(s.loop.todo, t);
  }

  lemma SkipFalls(s: State, t: Topic)
    requires PassEnabled(s, Skip(t))
    ensures LessWork(AfterPass(s, Skip(t)), s)
  {
    SmallerTodo(s.loop.todo, t);
  }

  lemma LocalKeepsWork(s: State, p: PassStep)
    requires PassEnabled(s, p) && !IsSend(p)
    ensures AfterPass(s, p).calls == s.calls && AfterPass(s, p).up == s.up
  {
  }

  lemma LocalFalls(s: State, p: PassStep)
    requires PassEnabled(s, p) && !IsSend(p)
    ensures LessWork(AfterPass(s, p), s) && AfterPass(s, p).up == s.up
  {
    LocalKeepsWork(s, p);
    if p.Skip? { SkipFalls(s, p.topic); }
  }

  lemma LocalShrinksTopics(s: State, p: PassStep)
    requires PassEnabled(s, p) && !IsSend(p)
    ensures Topics(AfterPass(s, p)) <= Topics(s)
  {
  }

  lemma PassStepFalls(s: State, p: PassStep)
    requires s.up && PassEnabled(s, p) && NotRefused(p)
    ensures Falls(AfterPass(s, p), s) && AfterPass(s, p).up == s.up
  {
    match p {
      case SendSubscribe(t, reply) =>
        SubscribeFalls(s, t, reply);
        SubscribeShrinksTopics(s, t, reply);
      case SendUnsubscribe(t, reply) => UnsubscribeFalls(s, t, reply);
      case _ =>
        LocalFalls(s, p);
        LocalShrinksTopics(s, p);
    }
    TopicsShrink(AfterPass(s, p), s);
  }

  lemma SettlingStepFalls(s: State, a: Step)
    requires Settles(s, a)
    ensures Falls(After(s, a), s) && After(s, a).up
  {
    match a
    case Caller(id, c) =>
      CallerStepFalls(s, id, c);
      CallerShrinksTopics(s, id, c);
    case Control(c) =>
      ControlStepFalls(s, c);
      ControlShrinksTopics(s, c);
    case Pass(p) => PassStepFalls(s, p);
  }

  // Something can always step.

  /** A call awaits a result only while the loop works on its operation. */
  ghost predicate Matched(s: State) {
    forall id :: id in s.calls && (s.calls[id].Awaiting? || s.calls[id].Resyncing?) ==>
      !s.loop.Idle? && s.loop.w == Operation(id)
  }

  ghost predicate SameWaker(s: State, s': State) {
    !s.loop.Idle? && !s'.loop.Idle? && s'.loop.w == s.loop.w && s'.calls == s.calls
  }

  lemma SubscribeKeepsWaker(s: State, t: Topic, reply: Registry.Reply)
    requires PassEnabled(s, SendSubscribe(t, reply))
    ensures SameWaker(s, AfterSubscribe(s, t, reply))
  {
  }

  lemma UnsubscribeKeepsWaker(s: State, t: Topic, reply: Registry.Reply)
    requires PassEnabled(s, SendUnsubscribe(t, reply))
    ensures SameWaker(s, AfterUnsubscribe(s, t, reply))
  {
  }

  lemma LocalKeepsWaker(s: State, p: PassStep)
    requires PassEnabled(s, p) && !IsSend(p)
    ensures SameWaker(s, AfterPass(s, p))
  {
  }

  lemma PassKeepsMatched(s: State, p: PassStep)
    requires Matched(s) && PassEnabled(s, p)
    ensures Matched(AfterPass(s, p))
  {
    match p
    case SendSubscribe(t, reply) => SubscribeKeepsWaker(s, t, reply);
    case SendUnsubscribe(t, reply) => UnsubscribeKeepsWaker(s, t, reply);
    case _ => LocalKeepsWaker(s, p);
  }

  lemma CallerKeepsMatched(s: State, id: nat, c: CallerStep)
    requires Matched(s) && CallerEnabled(s, id, c)
    ensures Matched(AfterCaller(s, id, c))
  {
  }

  lemma ControlKeepsMatched(s: State, c: ControlStep)
    requires Matched(s) && ControlEnabled(s, c)
    ensures Matched(AfterControl(s, c))
  {
  }

  lemma StepKeepsMatched(s: State, a: Step)
    requires Matched(s) && Enabled(s, a)
    ensures Matched(After(s, a))
  {
    match a
    case Caller(id, c) => CallerKeepsMatched(s, id, c);
    case Control(c) => ControlKeepsMatched(s, c);
    case Pass(p) => PassKeepsMatched(s, p);
    case _ =>
  }

  lemma {:induction false} RunKeepsMatched(s: State, steps: seq<Step>)
    requires Matched(s) && IsRun(s, steps)
    ensures Matched(Run(s, steps))
    decreases |steps|
  {
    if steps != [] {
      StepKeepsMatched(s, steps[0]);
      RunKeepsMatched(After(s, steps[0]), steps[1..]);
    }
  }

  lemma LoopCanStep(s: State) returns (a: Step)
    requires PassProgress(s) && s.up && !s.loop.Idle?
    ensures Settles(s, a)
  {
    match s.loop
    case Starting(_) => a := Control(Snapshot);
    case Subscribing(_, desired, todo) =>
      if todo == {} {
        a := Pass(FinishSubscribes);
      } else {
        var t :| t in todo;
        a := Pass(if UpToDate(s, t) then Skip(t) else SendSubscribe(t, Ack([0])));
      }
    case Granted(_, _, _, _) => a := Pass(RecordGrant);
    case Unsubscribing(_, _, todo) =>
      if todo == {} {
        a := Pass(FinishPass);
      } else {
        var t :| t in todo;
        a := Pass(SendUnsubscribe(t, Ack([0])));
      }
    case Revoked(_, _, _, _) => a := Pass(RecordRevoke);
    case Failing(_, _) => a := Control(FailTopicSection);
    case Waking(_) => a := Control(FailTopicPost);
    case Replying(_, _) => a := Control(Reply);
  }

  lemma CallCanStep(s: State, id: nat) returns (a: Step)
    requires Matched(s) && s.up && s.loop.Idle? && id in s.calls
    ensures Settles(s, a)
  {
    match s.calls[id]
    case Submitting(_) => a := Control(TakeOperation(id));
    case Resubmitting => a := Control(TakeOperation(id));
    case Removing(_, _) => a := Caller(id, RemoveSection);
    case Posting(_) => a := Caller(id, PostReconcile);
  }

  /** Nothing is stuck: with the connection up, a state that is not quiet has a settling step. */
  lemma CanSettle(s: State) returns (a: Step)
    requires Reachable(s) && s.up && !Quiet(s)
    ensures Settles(s, a)
  {
    var steps :| IsRun(Init(), steps) && Run(Init(), steps) == s;
    RunKeepsInv(Init(), steps);
    RunKeepsMatched(Init(), steps);
    if !s.loop.Idle? {
      a := LoopCanStep(s);
    } else if s.reconcile {
      a := Control(TakeReconcile);
    } else if s.reconnect {
      a := Control(TakeReconnect);
    } else if s.retry {
      a := Control(RetryFires);
    } else {
      var id :| id in s.calls;
      a := CallCanStep(s, id);
    }
  }

  /** A schedule that takes a settling step whenever the state is not quiet. */
  ghost predicate KeepsSettling(choose: State -> Step) {
    forall s: State :: Reachable(s) && s.up && !Quiet(s) ==> Settles(s, choose(s))
  }

  /**
   From every reachable state with the connection up, every such schedule ends
   in a quiet state whose session holds every registered topic at the highest
   requested QoS.
   */
  lemma {:induction false} EveryScheduleSettles(s: State, choose: State -> Step) returns (steps: seq<Step>)
    requires Reachable(s) && s.up && KeepsSettling(choose)
    ensures IsRun(s, steps)
    ensures var e := Run(s, steps);
            Quiet(e) && forall t :: t in e.subs ==> t in Held(e.log) && Held(e.log)[t] == Highest(e.subs[t])
    decreases |Topics(s)|, Work(s), Stage(s.loop), Visits(s.loop)
  {
    if Quiet(s) {
      steps := [];
      QuietSessionServesRegistry(s);
    } else {
      var a := choose(s);
      SettlingStepFalls(s, a);
      Reach(s, a);
      var rest := EveryScheduleSettles(After(s, a), choose);
      steps := [a] + rest;
      assert steps[1..] == rest;
    }
  }
}

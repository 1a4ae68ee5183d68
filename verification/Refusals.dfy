/**
 Why a subscription ends: every recorded error has a step of the run that
 justifies it, the first error stays, and a message within the limit that finds
 room is delivered.
 */
module Refusals {
  import opened Registry
  import opened Delivery
  import opened Wrappers

  predicate Registers(s: State, id: Id) {
    id in s.subs && s.subs[id].item in Registered(s.registry, s.subs[id].item.topic)
  }

  /** The step that gives subscription `id` a reason to end with `f`. */
  predicate Justifies(s: State, a: Step, id: Id, f: Failure) {
    match a
    case Caller(BeginClose(i)) => i == id && f == Closed
    case Caller(BeginUndo(_, i)) => i == id && f == BrokerFailure
    case Caller(TakeTopic(_, t)) => Registers(s, id) && s.subs[id].item.topic == t && f == BrokerFailure
    case Caller(TakeAll(_)) => Registers(s, id) && f == Closed
    case Route(Visit(i)) =>
      i == id && id in s.subs && !s.router.Waiting? && |s.router.message.payload| > s.subs[id].item.maximum
      && f == TooLarge
    case Route(Offer(Overflow)) =>
      s.router.Offering? && s.router.id == id && id in s.subs && |s.subs[id].buffer| == 16 && f == SlowConsumer
    case _ => false
  }

  ghost predicate Justified(s: State, steps: seq<Step>, id: Id, f: Failure)
    requires IsRun(s, steps)
    decreases |steps|
  {
    steps != [] && (Justifies(s, steps[0], id, f) || Justified(After(s, steps[0]), steps[1..], id, f))
  }

  /** Whatever records or is about to record an error has a reason in `reasons`. */
  ghost predicate HasReasons(s: State, id: Id, reasons: set<Failure>) {
    && (id in s.subs && s.subs[id].error.Some? ==> s.subs[id].error.value in reasons)
    && (s.router.Ending? && s.router.id == id ==> s.router.failure in reasons)
    && (forall call :: call in s.failing && id in s.failing[call].todo ==> s.failing[call].failure in reasons)
  }

  function Reasons(s: State, a: Step, id: Id): set<Failure> {
    set f | f in {Closed, TooLarge, SlowConsumer, BrokerFailure} && Justifies(s, a, id, f)
  }

  lemma TakenIsRegistered(s: State, t: Topic, id: Id)
    requires RegistryInv(s.registry, s.subs) && id in Ids(Registered(s.registry, t))
    ensures Registers(s, id) && s.subs[id].item.topic == t
  {
    var i :| i in Registered(s.registry, t) && i.id == id;
    assert Current(s.subs, t, i);
  }

  lemma AllTakenAreRegistered(s: State, id: Id)
    requires RegistryInv(s.registry, s.subs) && id in AllIds(s.registry)
    ensures Registers(s, id)
  {
    var t, i :| t in s.registry && i in s.registry[t] && i.id == id;
    assert i in Registered(s.registry, t);
    assert Current(s.subs, t, i);
  }

  lemma CallerKeepsReasons(s: State, c: CallerStep, id: Id, reasons: set<Failure>)
    requires RegistryInv(s.registry, s.subs) && HasReasons(s, id, reasons) && CallerEnabled(s, c)
    ensures HasReasons(AfterCaller(s, c), id, reasons + Reasons(s, Caller(c), id))
  {
    match c
    case TakeTopic(_, t) => if id in Ids(Registered(s.registry, t)) { TakenIsRegistered(s, t, id); }
    case TakeAll(_) => if id in AllIds(s.registry) { AllTakenAreRegistered(s, id); }
    case _ =>
  }

  lemma RouterKeepsReasons(s: State, r: RouterStep, id: Id, reasons: set<Failure>)
    requires id in s.subs ==> |s.subs[id].buffer| <= 16
    requires HasReasons(s, id, reasons) && RouterEnabled(s, r)
    ensures HasReasons(AfterRouter(s, r), id, reasons + Reasons(s, Route(r), id))
  {
  }

  ghost function AllReasons(s: State, steps: seq<Step>, id: Id): set<Failure>
    requires IsRun(s, steps)
    decreases |steps|
  {
    if steps == [] then {} else Reasons(s, steps[0], id) + AllReasons(After(s, steps[0]), steps[1..], id)
  }

  lemma {:induction false} RunKeepsReasons(s: State, steps: seq<Step>, id: Id, reasons: set<Failure>)
    requires Inv(s) && IsRun(s, steps) && HasReasons(s, id, reasons)
    ensures HasReasons(Run(s, steps), id, reasons + AllReasons(s, steps, id))
    decreases |steps|
  {
    if steps != [] {
      match steps[0] {
        case Caller(c) => CallerKeepsReasons(s, c, id, reasons);
        case Route(r) => RouterKeepsReasons(s, r, id, reasons);
      }
      StepKeepsInv(s, steps[0]);
      var first := Reasons(s, steps[0], id);
      RunKeepsReasons(After(s, steps[0]), steps[1..], id, reasons + first);
      assert reasons + first + AllReasons(After(s, steps[0]), steps[1..], id) == reasons + AllReasons(s, steps, id);
    } else {
      assert reasons + {} == reasons;
    }
  }

  lemma {:induction false} ReasonsAreJustified(s: State, steps: seq<Step>, id: Id, f: Failure)
    requires IsRun(s, steps) && f in AllReasons(s, steps, id)
    ensures Justified(s, steps, id, f)
    decreases |steps|
  {
    if f !in Reasons(s, steps[0], id) { ReasonsAreJustified(After(s, steps[0]), steps[1..], id, f); }
  }

  // Main results.

  /**
   No subscription ends without cause: in every run a recorded error has a step
   that justifies it. Too large: a routed message above the limit. Slow
   consumer: a message that found 16 buffered. Closed: Close, of it or of the
   transport. Otherwise its topic or its Subscribe failed.
   */
  lemma ErrorsAreJustified(steps: seq<Step>, id: Id)
    requires IsRun(Init(), steps) && id in Run(Init(), steps).subs && Run(Init(), steps).subs[id].error.Some?
    ensures Justified(Init(), steps, id, Run(Init(), steps).subs[id].error.value)
  {
    RunKeepsReasons(Init(), steps, id, {});
    ReasonsAreJustified(Init(), steps, id, Run(Init(), steps).subs[id].error.value);
  }

  lemma CallerKeepsError(s: State, c: CallerStep, id: Id)
    requires CallerEnabled(s, c) && id in s.subs && s.subs[id].error.Some?
    ensures id in AfterCaller(s, c).subs && AfterCaller(s, c).subs[id].error == s.subs[id].error
  {
  }

  lemma RouterKeepsError(s: State, r: RouterStep, id: Id)
    requires RouterEnabled(s, r) && id in s.subs && s.subs[id].error.Some?
    ensures id in AfterRouter(s, r).subs && AfterRouter(s, r).subs[id].error == s.subs[id].error
  {
  }

  /** The first error of a subscription is its last. */
  lemma {:induction false} FirstErrorStays(s: State, steps: seq<Step>, id: Id)
    requires IsRun(s, steps) && id in s.subs && s.subs[id].error.Some?
    ensures id in Run(s, steps).subs && Run(s, steps).subs[id].error == s.subs[id].error
    decreases |steps|
  {
    if steps != [] {
      match steps[0] {
        case Caller(c) => CallerKeepsError(s, c, id);
        case Route(r) => RouterKeepsError(s, r, id);
      }
      FirstErrorStays(After(s, steps[0]), steps[1..], id);
    }
  }

  /** A message within the limit is offered to a subscription without an error. */
  lemma FittingIsOffered(s: State, id: Id)
    requires RouterEnabled(s, Visit(id)) && s.subs[id].error.None?
    requires |s.router.message.payload| <= s.subs[id].item.maximum
    ensures var s' := AfterRouter(s, Visit(id));
            s'.router == Offering(s.router.message, s.router.todo - {id}, id) && s'.subs[id].buffer == s.subs[id].buffer
  {
  }

  /** If it finds room, the router's only step is to deliver it. */
  lemma RoomMeansDelivered(s: State, r: RouterStep)
    requires s.router.Offering? && RouterEnabled(s, r)
    requires s.subs[s.router.id].error.None? && |s.subs[s.router.id].buffer| < 16
    ensures var sub, sub' := s.subs[s.router.id], AfterRouter(s, r).subs[s.router.id];
            sub'.buffer == sub.buffer + [s.router.message] && sub'.error.None? && sub'.item == sub.item
    ensures AfterRouter(s, r).router == Routing(s.router.message, s.router.todo)
  {
  }

  // An ended subscription leaves the registry.

  predicate Leaving(s: State, id: Id) {
    id in s.closing || (s.router.Removing? && s.router.id == id)
  }

  /** An error is recorded for a subscription that has left the registry or that somebody is taking out of it. */
  predicate LeavesWithError(s: State, id: Id) {
    id in s.subs && s.subs[id].error.Some? && s.subs[id].until.None? ==> Leaving(s, id)
  }

  /** A call that takes subscriptions out of the registry does so before it fails them. */
  ghost predicate TakenOut(s: State) {
    forall call, id :: call in s.failing && id in s.failing[call].todo && id in s.subs ==> s.subs[id].until.Some?
  }

  lemma CallerKeepsTakenOut(s: State, c: CallerStep)
    requires TakenOut(s) && CallerEnabled(s, c)
    requires forall call :: call in s.failing ==> forall id :: id in s.failing[call].todo ==> id in s.subs
    ensures TakenOut(AfterCaller(s, c))
  {
  }

  lemma CallerKeepsLeaves(s: State, c: CallerStep, id: Id)
    requires TakenOut(s) && LeavesWithError(s, id) && CallerEnabled(s, c)
    ensures LeavesWithError(AfterCaller(s, c), id)
  {
  }

  lemma RouterKeepsLeaves(s: State, r: RouterStep, id: Id)
    requires TakenOut(s) && LeavesWithError(s, id) && RouterEnabled(s, r)
    ensures LeavesWithError(AfterRouter(s, r), id) && TakenOut(AfterRouter(s, r))
  {
  }

  /** The calls in progress concern subscriptions that exist. */
  ghost predicate CallsKnown(s: State) {
    && (forall call :: call in s.failing ==> forall id :: id in s.failing[call].todo ==> id in s.subs)
    && (forall id :: id in s.closing ==> id in s.subs)
  }

  lemma CallerKeepsKnown(s: State, c: CallerStep)
    requires RegistryInv(s.registry, s.subs) && CallsKnown(s) && CallerEnabled(s, c)
    ensures CallsKnown(AfterCaller(s, c))
  {
    match c
    case TakeTopic(_, t) =>
      forall id | id in Ids(Registered(s.registry, t)) ensures id in s.subs { TakenIsRegistered(s, t, id); }
    case TakeAll(_) =>
      forall id | id in AllIds(s.registry) ensures id in s.subs { AllTakenAreRegistered(s, id); }
    case _ =>
  }

  lemma RouterKeepsKnown(s: State, r: RouterStep)
    requires CallsKnown(s) && RouterEnabled(s, r)
    ensures CallsKnown(AfterRouter(s, r))
  {
  }

  lemma {:induction false} RunKeepsLeaves(s: State, steps: seq<Step>, id: Id)
    requires Inv(s) && IsRun(s, steps) && CallsKnown(s) && TakenOut(s) && LeavesWithError(s, id)
    ensures CallsKnown(Run(s, steps)) && LeavesWithError(Run(s, steps), id)
    decreases |steps|
  {
    if steps != [] {
      match steps[0] {
        case Caller(c) =>
          CallerKeepsTakenOut(s, c);
          CallerKeepsLeaves(s, c, id);
          CallerKeepsKnown(s, c);
        case Route(r) =>
          RouterKeepsLeaves(s, r, id);
          RouterKeepsKnown(s, r);
      }
      StepKeepsInv(s, steps[0]);
      RunKeepsLeaves(After(s, steps[0]), steps[1..], id);
    }
  }

  /**
   In every run a subscription with an error is out of the registry, or its Close
   or the router is about to take it out.
   */
  lemma EndedSubscriptionLeaves(steps: seq<Step>, id: Id)
    requires IsRun(Init(), steps) && id in Run(Init(), steps).subs && Run(Init(), steps).subs[id].error.Some?
    ensures var s := Run(Init(), steps);
            s.subs[id].item !in Registered(s.registry, s.subs[id].item.topic)
            || id in s.closing || (s.router.Removing? && s.router.id == id)
  {
    RunKeepsInv(Init(), steps);
    RunKeepsLeaves(Init(), steps, id);
    var s := Run(Init(), steps);
    if s.subs[id].item in Registered(s.registry, s.subs[id].item.topic) {
      assert Current(s.subs, s.subs[id].item.topic, s.subs[id].item);
      assert Listed(s.registry, s.subs[id], id);
    }
  }

  /** What is left to do of the calls that close, fail and remove subscriptions is always possible, and is done once. */
  lemma CallsFinish(steps: seq<Step>, id: Id, call: nat)
    requires IsRun(Init(), steps)
    ensures var s := Run(Init(), steps);
            && (id in s.subs ==> CallerEnabled(s, BeginClose(id)) && id in AfterCaller(s, BeginClose(id)).closing)
            && (id in s.closing ==> CallerEnabled(s, Leave(id)) && id !in AfterCaller(s, Leave(id)).closing)
            && (call in s.failing && id in s.failing[call].todo ==>
                  && CallerEnabled(s, FailOne(call, id))
                  && AfterCaller(s, FailOne(call, id)).failing[call].todo == s.failing[call].todo - {id})
  {
    RunKeepsLeaves(Init(), steps, id);
  }
}

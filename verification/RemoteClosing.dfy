/**
 Closing the request multiplexer makes progress: after the closing section
 every step but an unclaimed delivery uses up work, some step is always
 possible, and so Close returns under every schedule.
 */
module RemoteClosing {
  import opened RemoteHttp
  import opened Totals
  import opened Wrappers

  function Rank(p: Phase): nat {
    match p
    case Begun => 6
    case Subscribed(_) => 5
    case Registered(_) => 4
    case Published(_) => 3
    case Unregistering(_) => 2
    case Leaving => 1
  }

  function Ranks(requests: map<Request, Phase>): map<Request, nat> {
    map r | r in requests :: Rank(requests[r])
  }

  function CloserRank(c: CloserPhase): nat {
    match c
    case Open => 3
    case Notifying => 2
    case Waiting => 1
    case Returned => 0
  }

  /** Steps left: of the round trips, the claims still to be sent, the receivers and Close itself. */
  ghost function Left(s: State): nat {
    Total(Ranks(s.requests)) + |s.claims| + |s.receiving| + CloserRank(s.closer)
  }

  ghost predicate Closing(s: State) { Inv(s) && s.core.closed }

  predicate IsDelivery(a: Step) { a.Other? && a.o.Deliver? }

  lemma RankFalls(requests: map<Request, Phase>, r: Request, p: Phase)
    requires r in requests && Rank(p) < Rank(requests[r])
    ensures Total(Ranks(requests[r := p])) < Total(Ranks(requests))
  {
    TotalUpdate(Ranks(requests), r, Rank(p));
    assert Ranks(requests[r := p]) == Ranks(requests)[r := Rank(p)];
  }

  lemma RequestLeaves(requests: map<Request, Phase>, r: Request)
    requires r in requests
    ensures Total(Ranks(requests - {r})) < Total(Ranks(requests))
  {
    TotalUpdate(Ranks(requests), r, 0);
    assert Ranks(requests - {r}) == Ranks(requests) - {r};
  }

  lemma RequestStepFalls(s: State, r: Request, a: RequestStep)
    requires s.core.closed && RequestEnabled(s, r, a)
    ensures Left(AfterRequest(s, r, a)) < Left(s)
  {
    if a.Leave? {
      RequestLeaves(s.requests, r);
    } else {
      RequestMoves(s, r, a);
      RankFalls(s.requests, r, AfterRequest(s, r, a).requests[r]);
    }
  }

  /** After closing, a step of a round trip moves it on and touches no claim and no receiver. */
  lemma RequestMoves(s: State, r: Request, a: RequestStep)
    requires s.core.closed && RequestEnabled(s, r, a) && !a.Leave?
    ensures var s' := AfterRequest(s, r, a);
            && s'.claims == s.claims && s'.receiving == s.receiving && s'.closer == s.closer
            && r in s.requests && r in s'.requests && Rank(s'.requests[r]) < Rank(s.requests[r])
            && s'.requests == s.requests[r := s'.requests[r]]
  {
  }

  lemma ClaimLeaves(claims: Claims, r: Request)
    requires r in claims
    ensures |claims - {r}| < |claims|
  {
    assert claims == (claims - {r})[r := claims[r]];
  }

  lemma ReceiverLeaves(receiving: set<SubId>, sub: SubId)
    requires sub in receiving
    ensures |receiving - {sub}| < |receiving|
  {
    assert receiving == (receiving - {sub}) + {sub};
  }

  lemma SubFailsFalls(s: State, sub: SubId)
    requires Closing(s) && OtherEnabled(s, SubFails(sub))
    ensures Left(AfterOther(s, SubFails(sub))) < Left(s)
  {
    assert FailSubscription(s.core, sub) == (s.core, map[]);
    ClaimNone(s.claims, Receiver(sub));
    ReceiverLeaves(s.receiving, sub);
  }

  lemma OtherStepFalls(s: State, o: OtherStep)
    requires Closing(s) && OtherEnabled(s, o) && !o.Deliver?
    ensures Left(AfterOther(s, o)) < Left(s)
  {
    match o
    case SubFails(sub) => SubFailsFalls(s, sub);
    case Send(r) => ClaimLeaves(s.claims, r);
    case _ =>
  }

  /** Every step uses up work, except a delivery, which finds nothing pending and changes nothing. */
  lemma ClosingStepFalls(s: State, a: Step)
    requires Closing(s) && Enabled(s, a)
    ensures if IsDelivery(a) then After(s, a) == s else Left(After(s, a)) < Left(s)
  {
    match a
    case Of(r, b) => RequestStepFalls(s, r, b);
    case Other(o) => if !o.Deliver? { OtherStepFalls(s, o); }
  }

  lemma ClosingStepKeeps(s: State, a: Step)
    requires Closing(s) && Enabled(s, a)
    ensures Closing(After(s, a))
  {
    match a
    case Of(r, b) => RequestKeepsInv(s, r, b);
    case Other(o) => OtherKeepsInv(s, o);
    ClosedStep(s, a);
  }

  /** The next step of a round trip that has not returned; it needs no cancellation and no answer. */
  lemma RequestCanStep(s: State, r: Request) returns (a: RequestStep)
    requires Closing(s) && s.claims == map[] && r in s.requests
    ensures RequestEnabled(s, r, a) && !a.Cancel?
  {
    match s.requests[r]
    case Begun => a := Ensure(None);
    case Subscribed(_) => a := Abort;
    case Registered(_) => a := Publish(false);
    case Published(_) => a := TakeResult;
    case Unregistering(_) => a := Withdraw;
    case Leaving => a := Leave;
  }

  /** Nothing is stuck: until Close returns, some step is enabled. */
  lemma ClosingCanStep(s: State) returns (a: Step)
    requires Closing(s) && !s.closer.Returned?
    ensures Enabled(s, a) && !IsDelivery(a)
  {
    if s.claims != map[] {
      var r :| r in s.claims;
      a := Other(Send(r));
    } else if s.requests != map[] {
      var r :| r in s.requests;
      var b := RequestCanStep(s, r);
      a := Of(r, b);
    } else {
      a := Other(if s.closer.Notifying? then Notified else CloseReturns);
    }
  }

  /** A schedule that never idles while Close has not returned. */
  ghost predicate Fair(choose: State -> Step) {
    forall s: State :: Closing(s) && !s.closer.Returned? ==> Enabled(s, choose(s)) && !IsDelivery(choose(s))
  }

  /** Under every such schedule Close returns, with every started round trip returned before it. */
  lemma {:induction false} EveryScheduleCloses(s: State, choose: State -> Step) returns (steps: seq<Step>)
    requires Closing(s) && Fair(choose)
    ensures IsRun(s, steps) && Run(s, steps).closer.Returned? && Run(s, steps).requests == map[]
    ensures |steps| <= Left(s)
    decreases Left(s)
  {
    if s.closer.Returned? {
      steps := [];
    } else {
      var a := choose(s);
      ClosingStepFalls(s, a);
      ClosingStepKeeps(s, a);
      var rest := EveryScheduleCloses(After(s, a), choose);
      steps := [a] + rest;
      assert steps[1..] == rest;
    }
  }
}

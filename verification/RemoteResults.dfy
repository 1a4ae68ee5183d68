/**
 What a round trip gets from the request multiplexer: the result of whatever took
 it out of pending, and nothing else.
 */
module RemoteResults {
  import opened RemoteHttp
  import opened Wrappers

  predicate Pends(s: State, r: Request) { r in s.core.pending.Values }

  /** The step that decides the result of `r`: a delivery of its correlation, a failed subscription or close. */
  predicate Decides(s: State, a: Step, r: Request, o: Outcome) {
    match a
    case Other(Deliver(_, corr, tooLarge)) =>
      && corr in s.core.pending && s.core.pending[corr] == r
      && if tooLarge then o == TooLarge else o == Response(corr)
    case Other(SubFails(sub)) => s.core.current == Some(sub) && Pends(s, r) && o == Failed
    case Other(BeginClose) => Pends(s, r) && o == Failed
    case _ => false
  }

  /** Some step of the run decides the result of `r` as `o`. */
  ghost predicate Decided(s: State, steps: seq<Step>, r: Request, o: Outcome)
    requires IsRun(s, steps)
    decreases |steps|
  {
    steps != [] && (Decides(s, steps[0], r, o) || Decided(After(s, steps[0]), steps[1..], r, o))
  }

  /** `o` is the result of `r`: claimed, in its channel, taken by it, or left there by a caller that gave up. */
  predicate Settled(s: State, r: Request, o: Outcome) {
    && r in s.channels && !Pends(s, r)
    && (r in s.claims ==> s.claims[r].outcome == o && r !in s.received)
    && (r !in s.claims ==> s.channels[r].sends > 0)
    && (s.channels[r].content.Some? ==> s.channels[r].content.value == o)
    && (r in s.received ==> s.received[r] == o)
  }

  /** Nothing has been decided for `r`. */
  predicate Open(s: State, r: Request) {
    && r !in s.claims && r !in s.received
    && (r in s.channels ==> s.channels[r].content.None? && s.channels[r].sends == 0)
  }

  // A decided result stays.

  /** Only a registration makes a round trip pending, and it happens before its channel exists. */
  lemma RequestPends(s: State, q: Request, a: RequestStep, r: Request)
    requires RequestEnabled(s, q, a) && Pends(AfterRequest(s, q, a), r) && !Pends(s, r)
    ensures q == r && a.Enroll?
  {
    var c :| c in AfterRequest(s, q, a).core.pending && AfterRequest(s, q, a).core.pending[c] == r;
    assert c in s.core.pending ==> s.core.pending[c] != r;
  }

  lemma OtherPends(s: State, o: OtherStep, r: Request)
    requires OtherEnabled(s, o) && Pends(AfterOther(s, o), r)
    ensures Pends(s, r)
  {
    var c :| c in AfterOther(s, o).core.pending && AfterOther(s, o).core.pending[c] == r;
    assert c in s.core.pending && s.core.pending[c] == r;
  }

  lemma RequestKeepsSettled(s: State, q: Request, a: RequestStep, r: Request, o: Outcome)
    requires OwnerInv(s.requests, s.channels, s.started) && ChannelInv(s.channels, s.claims)
    requires RequestEnabled(s, q, a) && Settled(s, r, o)
    ensures Settled(AfterRequest(s, q, a), r, o)
  {
    if Pends(AfterRequest(s, q, a), r) { RequestPends(s, q, a, r); }
  }

  lemma OtherKeepsSettled(s: State, p: OtherStep, r: Request, o: Outcome)
    requires OtherEnabled(s, p) && Settled(s, r, o)
    ensures Settled(AfterOther(s, p), r, o)
  {
    if Pends(AfterOther(s, p), r) { OtherPends(s, p, r); }
  }

  lemma StepKeepsSettled(s: State, a: Step, r: Request, o: Outcome)
    requires Inv(s) && Enabled(s, a) && Settled(s, r, o)
    ensures Settled(After(s, a), r, o)
  {
    match a
    case Of(q, b) => RequestKeepsSettled(s, q, b, r, o);
    case Other(p) => OtherKeepsSettled(s, p, r, o);
  }

  lemma StepKeepsInv(s: State, a: Step)
    requires Inv(s) && Enabled(s, a)
    ensures Inv(After(s, a))
  {
    match a
    case Of(q, b) => RequestKeepsInv(s, q, b);
    case Other(p) => OtherKeepsInv(s, p);
  }

  // Until something decides, nothing is there.

  lemma RequestKeepsOpen(s: State, q: Request, a: RequestStep, r: Request)
    requires OwnerInv(s.requests, s.channels, s.started) && RequestEnabled(s, q, a) && Open(s, r)
    ensures Open(AfterRequest(s, q, a), r)
  {
  }

  lemma OtherKeepsOpen(s: State, p: OtherStep, r: Request)
    requires OtherEnabled(s, p) && Open(s, r) && forall o :: !Decides(s, Other(p), r, o)
    ensures Open(AfterOther(s, p), r)
  {
    assert !Decides(s, Other(p), r, Failed) && !Decides(s, Other(p), r, TooLarge);
    assert p.Deliver? ==> !Decides(s, Other(p), r, Response(p.corr));
  }

  lemma DecisionSettles(s: State, p: OtherStep, r: Request, o: Outcome)
    requires UnsentInv(s.core.pending, s.channels, s.claims) && PendingInv(s.core.pending, s.requests)
    requires OtherEnabled(s, p) && Open(s, r) && Decides(s, Other(p), r, o)
    ensures Settled(AfterOther(s, p), r, o)
  {
  }

  ghost predicate Known(s: State, r: Request, decided: Option<Outcome>) {
    if decided.Some? then Settled(s, r, decided.value) else Open(s, r)
  }

  /** A decision is made once, and every step keeps what is known. */
  lemma StepKeepsKnown(s: State, a: Step, r: Request, decided: Option<Outcome>) returns (next: Option<Outcome>)
    requires Inv(s) && Enabled(s, a) && Known(s, r, decided)
    ensures Known(After(s, a), r, next)
    ensures decided.Some? ==> next == decided && forall o :: !Decides(s, a, r, o)
    ensures decided.None? ==> forall o :: Decides(s, a, r, o) <==> next == Some(o)
  {
    next := decided;
    if decided.Some? {
      StepKeepsSettled(s, a, r, decided.value);
      assert !Pends(s, r);
    } else if a.Of? {
      RequestKeepsOpen(s, a.r, a.a, r);
    } else if o :| Decides(s, a, r, o) {
      DecisionSettles(s, a.o, r, o);
      next := Some(o);
    } else {
      OtherKeepsOpen(s, a.o, r);
    }
  }

  lemma {:induction false} RunKeepsKnown(s: State, steps: seq<Step>, r: Request, decided: Option<Outcome>)
    returns (end: Option<Outcome>)
    requires Inv(s) && IsRun(s, steps) && Known(s, r, decided)
    ensures Known(Run(s, steps), r, end)
    ensures decided.Some? ==> end == decided
    ensures decided.None? ==> forall o :: Decided(s, steps, r, o) <==> end == Some(o)
    decreases |steps|
  {
    if steps == [] {
      end := decided;
    } else {
      var next := StepKeepsKnown(s, steps[0], r, decided);
      StepKeepsInv(s, steps[0]);
      end := RunKeepsKnown(After(s, steps[0]), steps[1..], r, next);
      if next.Some? { SettledDecidesNothing(After(s, steps[0]), steps[1..], r, next.value); }
    }
  }

  lemma {:induction false} SettledDecidesNothing(s: State, steps: seq<Step>, r: Request, o: Outcome)
    requires Inv(s) && IsRun(s, steps) && Settled(s, r, o)
    ensures forall p :: !Decided(s, steps, r, p)
    decreases |steps|
  {
    if steps != [] {
      var next := StepKeepsKnown(s, steps[0], r, Some(o));
      StepKeepsInv(s, steps[0]);
      SettledDecidesNothing(After(s, steps[0]), steps[1..], r, o);
    }
  }

  // Main results.

  /**
   What a round trip received is what some step of the run decided for it: a
   response or a size error by a delivery of its own correlation, a failure by
   the failing of its subscription or by close; and at most one step decided.
   */
  lemma ReceivedIsDecided(steps: seq<Step>, r: Request)
    requires IsRun(Init(), steps)
    ensures var s := Run(Init(), steps);
            && (r in s.received ==> Decided(Init(), steps, r, s.received[r]))
            && (forall o, p :: Decided(Init(), steps, r, o) && Decided(Init(), steps, r, p) ==> o == p)
  {
    var end := RunKeepsKnown(Init(), steps, r, None);
  }

  /** What `r` received, if anything, is `o`; while it waits, `o` is claimed for it or in its channel. */
  predicate Reaches(s: State, r: Request, o: Outcome) {
    && (r in s.received ==> s.received[r] == o)
    && (r in s.requests && (s.requests[r].Registered? || s.requests[r].Published?) ==>
          || (r in s.claims && s.claims[r].outcome == o)
          || (r in s.channels && s.channels[r].content == Some(o)))
  }

  lemma SettledReaches(s: State, r: Request, o: Outcome)
    requires ServedInv(s.requests, s.core.pending, s.channels, s.claims) && Settled(s, r, o)
    ensures Reaches(s, r, o)
  {
    assert forall c :: c in s.core.pending ==> s.core.pending[c] != r;
  }

  /** Whatever happens afterwards, what has been decided is what the round trip gets, if it waits for it. */
  lemma DecisionReaches(s: State, a: Step, r: Request, o: Outcome, steps: seq<Step>)
    requires Reachable(s) && Enabled(s, a) && Decides(s, a, r, o) && IsRun(After(s, a), steps)
    ensures Reaches(Run(After(s, a), steps), r, o)
  {
    ReachableInv(s);
    var end := ReachableKnown(s, r);
    var next := StepKeepsKnown(s, a, r, end);
    StepKeepsInv(s, a);
    end := RunKeepsKnown(After(s, a), steps, r, next);
    RunKeepsInv(After(s, a), steps);
    SettledReaches(Run(After(s, a), steps), r, o);
  }

  lemma ReachableKnown(s: State, r: Request) returns (decided: Option<Outcome>)
    requires Reachable(s)
    ensures Known(s, r, decided)
  {
    var steps :| IsRun(Init(), steps) && Run(Init(), steps) == s;
    decided := RunKeepsKnown(Init(), steps, r, None);
  }

  /** A response within the limit reaches the round trip that waits for its correlation. */
  lemma ResponseReachesCaller(s: State, sub: SubId, corr: Correlation, r: Request, steps: seq<Step>)
    requires Reachable(s) && Enabled(s, Other(Deliver(sub, corr, false)))
    requires corr in s.core.pending && s.core.pending[corr] == r
    requires IsRun(After(s, Other(Deliver(sub, corr, false))), steps)
    ensures Reaches(Run(After(s, Other(Deliver(sub, corr, false))), steps), r, Response(corr))
  {
    DecisionReaches(s, Other(Deliver(sub, corr, false)), r, Response(corr), steps);
  }

  // Who still has to send.

  /** The result of `r` is with a receive goroutine that is still in its loop. */
  predicate Holds(s: State, r: Request)
    requires r in s.claims
  {
    s.claims[r].owner.Receiver? && s.claims[r].owner.sub in s.receiving
  }

  /** A receive goroutine in its loop sends each result before it takes the next, and close sends all of its own. */
  ghost predicate SendersInv(s: State) {
    && (forall q, r :: q in s.claims && r in s.claims && Holds(s, q) && s.claims[q].owner == s.claims[r].owner ==>
          q == r)
    && (forall r :: r in s.claims && s.claims[r].owner.Closer? ==> s.closer.Notifying?)
    && (forall r :: r in s.claims && s.claims[r].owner.Receiver? ==> s.claims[r].owner.sub in s.subscribed)
    && s.receiving <= s.subscribed
  }

  lemma RequestKeepsSenders(s: State, r: Request, a: RequestStep)
    requires SendersInv(s) && RequestEnabled(s, r, a)
    ensures SendersInv(AfterRequest(s, r, a))
  {
    var started := RequestStartsReceiver(s, r, a);
    forall q | q in s.claims && s.claims[q].owner.Receiver? ensures s.claims[q].owner.sub in s.subscribed {}
  }

  /** A round trip claims nothing, and starts a receiver only for a new subscription. */
  lemma RequestStartsReceiver(s: State, r: Request, a: RequestStep) returns (started: set<SubId>)
    requires RequestEnabled(s, r, a)
    ensures var s' := AfterRequest(s, r, a);
            && s'.claims == s.claims && s'.closer == s.closer && started !! s.subscribed
            && s'.receiving == s.receiving + started && s'.subscribed == s.subscribed + started
  {
    started := AfterRequest(s, r, a).subscribed - s.subscribed;
  }

  lemma FailureKeepsSenders(s: State, sub: SubId)
    requires SendersInv(s) && OtherEnabled(s, SubFails(sub))
    ensures SendersInv(AfterOther(s, SubFails(sub)))
  {
  }

  lemma OtherKeepsSenders(s: State, p: OtherStep)
    requires SendersInv(s) && OtherEnabled(s, p)
    ensures SendersInv(AfterOther(s, p))
  {
    if p.SubFails? { FailureKeepsSenders(s, p.sub); }
  }

  lemma {:induction false} RunKeepsSenders(s: State, steps: seq<Step>)
    requires SendersInv(s) && IsRun(s, steps)
    ensures SendersInv(Run(s, steps))
    decreases |steps|
  {
    if steps != [] {
      match steps[0] {
        case Of(r, a) => RequestKeepsSenders(s, r, a);
        case Other(p) => OtherKeepsSenders(s, p);
      }
      RunKeepsSenders(After(s, steps[0]), steps[1..]);
    }
  }

  /** In every run Close begins to wait only when it has sent every failure, and a receiver holds one result at most. */
  lemma NothingWithheld(s: State)
    requires Reachable(s)
    ensures s.closer.Waiting? || s.closer.Returned? ==> forall r :: r in s.claims ==> !s.claims[r].owner.Closer?
    ensures forall q, r :: q in s.claims && r in s.claims && Holds(s, q) && s.claims[q].owner == s.claims[r].owner ==>
              q == r
  {
    var steps :| IsRun(Init(), steps) && Run(Init(), steps) == s;
    RunKeepsSenders(Init(), steps);
  }

  // An undisturbed round trip.

  lemma Then(s: State, a: Step, steps: seq<Step>)
    requires Enabled(s, a) && IsRun(After(s, a), steps)
    ensures IsRun(s, [a] + steps) && Run(s, [a] + steps) == Run(After(s, a), steps)
  {
    assert ([a] + steps)[1..] == steps;
  }

  /** From the registration on: published, answered, received. */
  lemma AnsweredRoundTrip(s: State, r: Request, sub: SubId, corr: Correlation) returns (steps: seq<Step>)
    requires Inv(s) && !s.core.closed && s.core.current == Some(sub) && s.claims == map[]
    requires r in s.requests && s.requests[r] == Subscribed(sub) && corr !in s.corrs
    ensures IsRun(s, steps) && r !in Run(s, steps).requests
    ensures r in Run(s, steps).received && Run(s, steps).received[r] == Response(corr)
    ensures Run(s, steps).published == s.published + [r]
  {
    var s1 := After(s, Of(r, Enroll(corr)));
    EnrollKeepsInv(s, r, corr);
    assert s1.requests[r] == Registered(corr) && s1.claims == map[] && s1.core.pending[corr] == r;
    var s2 := After(s1, Of(r, Publish(true)));
    PublishKeepsInv(s1, r, true);
    steps := AnswerArrives(s2, r, sub, corr);
    Then(s1, Of(r, Publish(true)), steps);
    Then(s, Of(r, Enroll(corr)), [Of(r, Publish(true))] + steps);
    steps := [Of(r, Enroll(corr))] + ([Of(r, Publish(true))] + steps);
  }

  lemma AnswerArrives(s: State, r: Request, sub: SubId, corr: Correlation) returns (steps: seq<Step>)
    requires Inv(s) && s.core.current == Some(sub) && s.claims == map[] && r in s.requests
    requires s.requests[r] == Published(corr) && corr in s.core.pending && s.core.pending[corr] == r
    ensures IsRun(s, steps) && r !in Run(s, steps).requests && Run(s, steps).published == s.published
    ensures r in Run(s, steps).received && Run(s, steps).received[r] == Response(corr)
  {
    var deliver := Other(Deliver(sub, corr, false));
    var s1 := After(s, deliver);
    DeliverKeepsInv(s, sub, corr, false);
    assert s1.claims[r] == Claimed(Receiver(sub), Response(corr)) && r in s1.channels;
    var s2 := After(s1, Other(Send(r)));
    SendKeepsInv(s1, r);
    var s3 := After(s2, Of(r, TakeResult));
    TakeResultKeepsInv(s2, r);
    var s4 := After(s3, Of(r, Leave));
    assert IsRun(s4, []) && Run(s4, []) == s4;
    Then(s3, Of(r, Leave), []);
    steps := [Of(r, Leave)] + [];
    Then(s2, Of(r, TakeResult), steps);
    steps := [Of(r, TakeResult)] + steps;
    Then(s1, Other(Send(r)), steps);
    steps := [Other(Send(r))] + steps;
    Then(s, deliver, steps);
    steps := [deliver] + steps;
  }

  /**
   An open multiplexer serves: from every reachable state with nothing on its way,
   a new round trip can begin, share the current subscription or install the one
   that the transport answers with, publish once, and receive its response.
   */
  lemma OpenServes(s: State, r: Request, answer: SubId, corr: Correlation) returns (steps: seq<Step>)
    requires Reachable(s) && !s.core.closed && s.claims == map[]
    requires r !in s.started && corr !in s.corrs && answer !in s.subscribed
    ensures IsRun(s, steps) && r !in Run(s, steps).requests
    ensures r in Run(s, steps).received && Run(s, steps).received[r] == Response(corr)
    ensures Run(s, steps).published == s.published + [r]
  {
    ReachableInv(s);
    var s1 := After(s, Of(r, Begin));
    BeginKeepsInv(s, r);
    var sub := if s.core.current.Some? then s.core.current.value else answer;
    var s2 := After(s1, Of(r, Ensure(Some(answer))));
    EnsureKeepsInv(s1, r, Some(answer));
    assert s2.requests[r] == Subscribed(sub) && s2.core.current == Some(sub);
    steps := AnsweredRoundTrip(s2, r, sub, corr);
    Then(s1, Of(r, Ensure(Some(answer))), steps);
    Then(s, Of(r, Begin), [Of(r, Ensure(Some(answer)))] + steps);
    steps := [Of(r, Begin)] + ([Of(r, Ensure(Some(answer)))] + steps);
  }
}

/**
 The HTTP-over-MQTT request multiplexer. Its lock sections are functions on the
 locked fields; the class runs them in place, and the step system interleaves
 them with channel sends, deliveries, cancellation, failure and close.
 */
module RemoteHttp {
  import opened Wrappers

  type Correlation = nat
  type Request = nat        // a started round trip, and the identity of its result channel
  type SubId = nat

  /** The fields guarded by the mutex, and the wait group. */
  datatype Core = Core(closed: bool, current: Option<SubId>, pending: map<Correlation, Request>, inflight: nat)

  /** A round trip is admitted, and counted, unless the tripper is closed. */
  function BeginSection(c: Core): (Core, bool) {
    if c.closed then (c, false) else (c.(inflight := c.inflight + 1), true)
  }

  /** The subscription a round trip uses: the current one, or the new one that the transport answers with. */
  function EnsureSection(c: Core, answer: Option<SubId>): (Core, Option<SubId>) {
    if c.closed then (c, None)
    else if c.current.Some? then (c, c.current)
    else (c.(current := answer), answer)
  }

  function Register(c: Core, corr: Correlation, sub: SubId, r: Request): (Core, bool) {
    if c.closed || c.current != Some(sub) then (c, false)
    else (c.(pending := c.pending[corr := r]), true)
  }

  function Unregister(c: Core, corr: Correlation, r: Request): Core {
    if corr in c.pending && c.pending[corr] == r then c.(pending := c.pending - {corr}) else c
  }

  /** The receiver claims the request waiting for a correlation, if any. */
  function Claim(c: Core, corr: Correlation): (Core, Option<Request>) {
    if corr in c.pending then (c.(pending := c.pending - {corr}), Some(c.pending[corr])) else (c, None)
  }

  /** A failed current subscription hands over every pending request; a stale one none. */
  function FailSubscription(c: Core, sub: SubId): (Core, map<Correlation, Request>) {
    if c.current == Some(sub) then (c.(current := None, pending := map[]), c.pending) else (c, map[])
  }

  function CloseSection(c: Core): (Core, map<Correlation, Request>) {
    (c.(closed := true, current := None, pending := map[]), c.pending)
  }

  class RoundTripper {
    var closed: bool
    var current: Option<SubId>
    var pending: map<Correlation, Request>
    var inflight: nat

    ghost function View(): Core reads this { Core(closed, current, pending, inflight) }

    constructor ()
      ensures View() == Core(false, None, map[], 0)
    {
      closed, current, pending, inflight := false, None, map[], 0;
    }

    method BeginRoundTrip() returns (ok: bool)
      modifies this`inflight
      ensures (View(), ok) == BeginSection(old(View()))
    {
      ok := !closed;
      if ok { inflight := inflight + 1; }
    }

    /** `answer` is what the transport's Subscribe returns; nil and errors are `None`. */
    method EnsureSubscription(answer: Option<SubId>) returns (r: Option<SubId>, isNew: bool)
      modifies this`current
      ensures (View(), r) == EnsureSection(old(View()), answer)
      ensures isNew == (!closed && old(current).None? && answer.Some?)
    {
      if closed { return None, false; }
      if current.Some? { return current, false; }
      current, isNew := answer, answer.Some?;
      r := current;
    }

    method RegisterRequest(corr: Correlation, sub: SubId, r: Request) returns (ok: bool)
      modifies this`pending
      ensures (View(), ok) == Register(old(View()), corr, sub, r)
    {
      if closed || current != Some(sub) { return false; }
      pending := pending[corr := r];
      ok := true;
    }

    method UnregisterRequest(corr: Correlation, r: Request)
      modifies this`pending
      ensures View() == Unregister(old(View()), corr, r)
    {
      if corr in pending && pending[corr] == r { pending := pending - {corr}; }
    }

    method ClaimRequest(corr: Correlation) returns (r: Option<Request>)
      modifies this`pending
      ensures (View(), r) == Claim(old(View()), corr)
    {
      r := None;
      if corr in pending {
        r := Some(pending[corr]);
        pending := pending - {corr};
      }
    }

    method SubscriptionFailed(sub: SubId) returns (claimed: map<Correlation, Request>)
      modifies this`current, this`pending
      ensures (View(), claimed) == FailSubscription(old(View()), sub)
    {
      if current != Some(sub) { return map[]; }
      current, claimed, pending := None, pending, map[];
    }

    method BeginClose() returns (claimed: map<Correlation, Request>)
      modifies this`closed, this`current, this`pending
      ensures (View(), claimed) == CloseSection(old(View()))
    {
      closed, current := true, None;
      claimed, pending := pending, map[];
    }
  }

  // The step system.

  datatype Outcome = Response(corr: Correlation) | TooLarge | Failed

  datatype Owner = Receiver(sub: SubId) | Closer

  /** Where a started round trip is. */
  datatype Phase =
    | Begun
    | Subscribed(sub: SubId)
    | Registered(corr: Correlation)
    | Published(corr: Correlation)
    | Unregistering(corr: Correlation)
    | Leaving

  datatype Claimed = Claimed(owner: Owner, outcome: Outcome)

  /** A result channel of capacity one; `sends` counts every send to it. */
  datatype Channel = Channel(content: Option<Outcome>, sends: nat)

  datatype CloserPhase = Open | Notifying | Waiting | Returned

  datatype State = State(
    core: Core,
    requests: map<Request, Phase>,          // round trips that have not returned
    corrs: map<Correlation, Request>,       // every correlation id ever generated, and its request
    started: set<Request>,
    channels: map<Request, Channel>,
    claims: map<Request, Claimed>,          // taken from pending, not yet sent
    receiving: set<SubId>,                  // receive goroutines still in their loop
    subscribed: set<SubId>,
    published: seq<Request>,
    received: map<Request, Outcome>,        // what a waiting round trip took from its channel
    closer: CloserPhase)

  function Init(): State {
    State(Core(false, None, map[], 0), map[], map[], {}, map[], map[], {}, {}, [], map[], Open)
  }

  datatype RequestStep =
    | Begin
    | Ensure(answer: Option<SubId>)
    | Enroll(corr: Correlation)
    | Abort                    // request id or encoding failure
    | Publish(ok: bool)
    | TakeResult
    | Cancel
    | Withdraw                 // the deferred unregister
    | Leave

  datatype OtherStep =
    | Deliver(sub: SubId, corr: Correlation, tooLarge: bool)
    | SubFails(sub: SubId)
    | Send(r: Request)
    | BeginClose
    | Notified
    | CloseReturns

  datatype Step = Of(r: Request, a: RequestStep) | Other(o: OtherStep)

  ghost predicate HasClaims(s: State, owner: Owner) {
    exists r :: r in s.claims && s.claims[r].owner == owner
  }

  ghost predicate RequestEnabled(s: State, r: Request, a: RequestStep) {
    match a
    case Begin => r !in s.started && BeginSection(s.core).1
    case Ensure(answer) => r in s.requests && s.requests[r].Begun? && (answer.Some? ==> answer.value !in s.subscribed)
    case Enroll(corr) => r in s.requests && s.requests[r].Subscribed? && corr !in s.corrs
    case Abort => r in s.requests && (s.requests[r].Subscribed? || s.requests[r].Registered?)
    case Publish(_) => r in s.requests && s.requests[r].Registered?
    case TakeResult => r in s.requests && s.requests[r].Published? && r in s.channels && s.channels[r].content.Some?
    case Cancel => r in s.requests && s.requests[r].Published?
    case Withdraw => r in s.requests && s.requests[r].Unregistering?
    case Leave => r in s.requests && s.requests[r].Leaving? && s.core.inflight > 0
  }

  function AfterRequest(s: State, r: Request, a: RequestStep): State
    requires RequestEnabled(s, r, a)
  {
    match a
    case Begin =>
      s.(core := BeginSection(s.core).0, requests := s.requests[r := Begun], started := s.started + {r})
    case Ensure(answer) =>
      var (core, sub) := EnsureSection(s.core, answer);
      if sub.None? then s.(requests := s.requests[r := Leaving])
      else if s.core.current.Some? then s.(requests := s.requests[r := Subscribed(sub.value)])
      else
        s.(core := core, requests := s.requests[r := Subscribed(sub.value)],
           receiving := s.receiving + {sub.value}, subscribed := s.subscribed + {sub.value})
    case Enroll(corr) =>
      var (core, ok) := Register(s.core, corr, s.requests[r].sub, r);
      if ok then
        s.(core := core, requests := s.requests[r := Registered(corr)], corrs := s.corrs[corr := r],
           channels := s.channels[r := Channel(None, 0)])
      else s.(requests := s.requests[r := Leaving], corrs := s.corrs[corr := r])
    case Abort =>
      s.(requests := s.requests[r := if s.requests[r].Registered? then Unregistering(s.requests[r].corr) else Leaving])
    case Publish(ok) =>
      var corr := s.requests[r].corr;
      if s.core.closed || !ok then s.(requests := s.requests[r := Unregistering(corr)])
      else s.(requests := s.requests[r := Published(corr)], published := s.published + [r])
    case TakeResult =>
      s.(requests := s.requests[r := Leaving], received := s.received[r := s.channels[r].content.value],
         channels := s.channels[r := s.channels[r].(content := None)])
    case Cancel => s.(requests := s.requests[r := Unregistering(s.requests[r].corr)])
    case Withdraw => s.(core := Unregister(s.core, s.requests[r].corr, r), requests := s.requests[r := Leaving])
    case Leave => s.(core := s.core.(inflight := s.core.inflight - 1), requests := s.requests - {r})
  }

  /** Every handed-over request gets the same failure from the same goroutine. */
  function ClaimAll(claims: map<Request, Claimed>, taken: map<Correlation, Request>, owner: Owner)
    : map<Request, Claimed>
  {
    claims + map r | r in taken.Values :: Claimed(owner, Failed)
  }

  ghost predicate OtherEnabled(s: State, o: OtherStep) {
    match o
    case Deliver(sub, _, _) => sub in s.receiving && !HasClaims(s, Receiver(sub))
    case SubFails(sub) => sub in s.receiving && !HasClaims(s, Receiver(sub))
    case Send(r) => r in s.claims && r in s.channels
    case BeginClose => s.closer.Open?
    case Notified => s.closer.Notifying? && !HasClaims(s, Closer)
    case CloseReturns => s.closer.Waiting? && s.core.inflight == 0
  }

  function AfterOther(s: State, o: OtherStep): State
    requires OtherEnabled(s, o)
  {
    match o
    case Deliver(sub, corr, tooLarge) =>
      var (core, r) := Claim(s.core, corr);
      if r.None? then s
      else s.(core := core,
              claims := s.claims[r.value := Claimed(Receiver(sub), if tooLarge then TooLarge else Response(corr))])
    case SubFails(sub) =>
      var (core, taken) := FailSubscription(s.core, sub);
      s.(core := core, claims := ClaimAll(s.claims, taken, Receiver(sub)), receiving := s.receiving - {sub})
    case Send(r) =>
      s.(channels := s.channels[r := Channel(Some(s.claims[r].outcome), s.channels[r].sends + 1)],
         claims := s.claims - {r})
    case BeginClose =>
      var (core, taken) := CloseSection(s.core);
      s.(core := core, claims := ClaimAll(s.claims, taken, Closer), closer := Notifying)
    case Notified => s.(closer := Waiting)
    case CloseReturns => s.(closer := Returned)
  }

  ghost predicate Enabled(s: State, a: Step) {
    match a
    case Of(r, q) => RequestEnabled(s, r, q)
    case Other(o) => OtherEnabled(s, o)
  }

  function After(s: State, a: Step): State
    requires Enabled(s, a)
  {
    match a
    case Of(r, q) => AfterRequest(s, r, q)
    case Other(o) => AfterOther(s, o)
  }

  ghost predicate IsRun(s: State, steps: seq<Step>)
    decreases |steps|
  {
    steps == [] || (Enabled(s, steps[0]) && IsRun(After(s, steps[0]), steps[1..]))
  }

  ghost function Run(s: State, steps: seq<Step>): State
    requires IsRun(s, steps)
    decreases |steps|
  {
    if steps == [] then s else Run(After(s, steps[0]), steps[1..])
  }

  // The invariant.

  type Requests = map<Request, Phase>
  type Correlations = map<Correlation, Request>
  type Channels = map<Request, Channel>
  type Claims = map<Request, Claimed>

  /** Pending requests exist only with a current subscription whose receiver is live. */
  ghost predicate ReceiverInv(core: Core, receiving: set<SubId>, subscribed: set<SubId>) {
    && (core.closed ==> core.current.None?)
    && (core.current.None? ==> core.pending == map[])
    && (core.current.Some? ==> core.current.value in receiving)
    && receiving <= subscribed
  }

  predicate HasCorr(p: Phase) { p.Registered? || p.Published? || p.Unregistering? }

  /** Every pending entry is a request that registered with that id and has not returned. */
  ghost predicate PendingInv(pending: Correlations, requests: Requests) {
    forall c :: c in pending ==>
      pending[c] in requests && HasCorr(requests[pending[c]]) && requests[pending[c]].corr == c
  }

  ghost predicate PhaseInv(requests: Requests, corrs: Correlations) {
    forall r :: r in requests && HasCorr(requests[r]) ==> requests[r].corr in corrs && corrs[requests[r].corr] == r
  }

  /** A round trip owns a channel exactly from its registration on. */
  ghost predicate OwnerInv(requests: Requests, channels: Channels, started: set<Request>) {
    && requests.Keys <= started && channels.Keys <= started
    && (forall r :: r in requests && HasCorr(requests[r]) ==> r in channels)
    && (forall r :: r in requests && (requests[r].Begun? || requests[r].Subscribed?) ==> r !in channels)
  }

  /** At most one send per channel: whoever may still send finds it empty and unused. */
  ghost predicate ChannelInv(channels: Channels, claims: Claims) {
    && claims.Keys <= channels.Keys
    && (forall r :: r in channels ==> channels[r].sends <= 1)
    && (forall r :: r in channels && channels[r].sends == 0 ==> channels[r].content.None?)
    && (forall r :: r in claims && r in channels ==> channels[r].sends == 0)
  }

  ghost predicate UnsentInv(pending: Correlations, channels: Channels, claims: Claims) {
    forall c :: c in pending ==>
      pending[c] in channels && channels[pending[c]].sends == 0 && pending[c] !in claims
  }

  /** A request waiting for its result is pending, or its result is on the way. */
  ghost predicate ServedInv(requests: Requests, pending: Correlations, channels: Channels, claims: Claims) {
    forall r :: r in requests && (requests[r].Registered? || requests[r].Published?) ==>
      || (requests[r].corr in pending && pending[requests[r].corr] == r)
      || r in claims
      || (r in channels && channels[r].content.Some?)
  }

  ghost predicate OwnOutcome(corrs: Correlations, r: Request, o: Outcome) {
    o.Response? ==> o.corr in corrs && corrs[o.corr] == r
  }

  /** Responses travel only to the request that generated their correlation id. */
  ghost predicate OutcomeInv(corrs: Correlations, claims: Claims, channels: Channels, received: map<Request, Outcome>) {
    && (forall r :: r in claims ==> OwnOutcome(corrs, r, claims[r].outcome))
    && (forall r :: r in channels && channels[r].content.Some? ==> OwnOutcome(corrs, r, channels[r].content.value))
    && (forall r :: r in received ==> OwnOutcome(corrs, r, received[r]))
  }

  ghost predicate CountInv(core: Core, requests: Requests, closer: CloserPhase) {
    && core.inflight == |requests|
    && (core.closed <==> !closer.Open?)
    && (closer.Returned? ==> requests == map[])
  }

  ghost predicate Inv(s: State) {
    && ReceiverInv(s.core, s.receiving, s.subscribed)
    && PendingInv(s.core.pending, s.requests)
    && PhaseInv(s.requests, s.corrs)
    && OwnerInv(s.requests, s.channels, s.started)
    && ChannelInv(s.channels, s.claims)
    && UnsentInv(s.core.pending, s.channels, s.claims)
    && ServedInv(s.requests, s.core.pending, s.channels, s.claims)
    && OutcomeInv(s.corrs, s.claims, s.channels, s.received)
    && CountInv(s.core, s.requests, s.closer)
  }

  lemma BeginKeepsInv(s: State, r: Request)
    requires Inv(s) && RequestEnabled(s, r, Begin)
    ensures Inv(AfterRequest(s, r, Begin))
  {
  }

  // Moving one round trip to another phase, invariant by invariant.

  lemma MoveKeepsPending(pending: Correlations, requests: Requests, r: Request, p: Phase)
    requires PendingInv(pending, requests)
    requires forall c :: c in pending && pending[c] == r ==> HasCorr(p) && p.corr == c
    ensures PendingInv(pending, requests[r := p])
  {
  }

  lemma MoveKeepsPhase(requests: Requests, corrs: Correlations, r: Request, p: Phase)
    requires PhaseInv(requests, corrs) && (HasCorr(p) ==> p.corr in corrs && corrs[p.corr] == r)
    ensures PhaseInv(requests[r := p], corrs)
  {
  }

  lemma MoveKeepsOwner(requests: Requests, channels: Channels, started: set<Request>, r: Request, p: Phase)
    requires OwnerInv(requests, channels, started) && r in requests
    requires (HasCorr(p) ==> r in channels) && (p.Begun? || p.Subscribed? ==> r !in channels)
    ensures OwnerInv(requests[r := p], channels, started)
  {
    assert requests[r := p].Keys == requests.Keys;
  }

  lemma MoveKeepsServed(requests: Requests, pending: Correlations, channels: Channels, claims: Claims,
                        r: Request, p: Phase)
    requires ServedInv(requests, pending, channels, claims)
    requires !p.Registered? && (p.Published? ==> r in requests && requests[r] == Registered(p.corr))
    ensures ServedInv(requests[r := p], pending, channels, claims)
  {
  }

  lemma MoveKeepsCount(core: Core, requests: Requests, closer: CloserPhase, r: Request, p: Phase)
    requires CountInv(core, requests, closer) && r in requests
    ensures CountInv(core, requests[r := p], closer)
  {
    assert requests[r := p].Keys == requests.Keys;
    assert |requests[r := p]| == |requests[r := p].Keys| && |requests| == |requests.Keys|;
  }

  /** A move that starts no waiting and keeps its correlation, if the request is pending. */
  lemma MoveKeepsInv(s: State, r: Request, p: Phase)
    requires Inv(s) && r in s.requests
    requires forall c :: c in s.core.pending && s.core.pending[c] == r ==> HasCorr(p) && p.corr == c
    requires HasCorr(p) ==> HasCorr(s.requests[r]) && s.requests[r].corr == p.corr
    requires p.Begun? || p.Subscribed? ==> r !in s.channels
    requires !p.Registered? && (p.Published? ==> s.requests[r].Registered?)
    ensures Inv(s.(requests := s.requests[r := p]))
  {
    MoveKeepsPending(s.core.pending, s.requests, r, p);
    MoveKeepsPhase(s.requests, s.corrs, r, p);
    MoveKeepsOwner(s.requests, s.channels, s.started, r, p);
    MoveKeepsServed(s.requests, s.core.pending, s.channels, s.claims, r, p);
    MoveKeepsCount(s.core, s.requests, s.closer, r, p);
  }

  lemma OpenSubscription(s: State, sub: SubId)
    requires Inv(s) && !s.core.closed && s.core.current.None?
    ensures Inv(s.(core := s.core.(current := Some(sub)), receiving := s.receiving + {sub},
                   subscribed := s.subscribed + {sub}))
  {
  }

  lemma EnsureKeepsInv(s: State, r: Request, answer: Option<SubId>)
    requires Inv(s) && RequestEnabled(s, r, Ensure(answer))
    ensures Inv(AfterRequest(s, r, Ensure(answer)))
  {
    if !s.core.closed && s.core.current.None? && answer.Some? {
      OpenSubscription(s, answer.value);
      var s1 := s.(core := s.core.(current := answer), receiving := s.receiving + {answer.value},
                   subscribed := s.subscribed + {answer.value});
      MoveKeepsInv(s1, r, Subscribed(answer.value));
    } else {
      MoveKeepsInv(s, r, AfterRequest(s, r, Ensure(answer)).requests[r]);
    }
  }

  /** A correlation id that was never generated before cannot displace another request. */
  lemma FreshCorrelation(s: State, r: Request, corr: Correlation)
    requires Inv(s) && corr !in s.corrs && r in s.started
    ensures Inv(s.(corrs := s.corrs[corr := r]))
  {
  }

  lemma EnrollKeepsPending(pending: Correlations, requests: Requests, r: Request, corr: Correlation)
    requires PendingInv(pending, requests) && r in requests && !HasCorr(requests[r])
    ensures PendingInv(pending[corr := r], requests[r := Registered(corr)])
  {
  }

  lemma EnrollKeepsOwner(requests: Requests, channels: Channels, started: set<Request>, r: Request, corr: Correlation)
    requires OwnerInv(requests, channels, started) && r in requests
    ensures OwnerInv(requests[r := Registered(corr)], channels[r := Channel(None, 0)], started)
  {
    assert requests[r := Registered(corr)].Keys == requests.Keys;
  }

  lemma EnrollKeepsChannels(channels: Channels, claims: Claims, r: Request)
    requires ChannelInv(channels, claims) && r !in channels
    ensures ChannelInv(channels[r := Channel(None, 0)], claims)
  {
  }

  lemma EnrollKeepsUnsent(pending: Correlations, channels: Channels, claims: Claims, r: Request, corr: Correlation)
    requires UnsentInv(pending, channels, claims) && ChannelInv(channels, claims) && r !in channels
    ensures UnsentInv(pending[corr := r], channels[r := Channel(None, 0)], claims)
  {
  }

  lemma EnrollKeepsServed(requests: Requests, pending: Correlations, channels: Channels, claims: Claims,
                          r: Request, corr: Correlation)
    requires ServedInv(requests, pending, channels, claims) && r !in channels && corr !in pending
    ensures ServedInv(requests[r := Registered(corr)], pending[corr := r], channels[r := Channel(None, 0)], claims)
  {
    var requests', pending' := requests[r := Registered(corr)], pending[corr := r];
    forall q | q in requests' && (requests'[q].Registered? || requests'[q].Published?)
      ensures (requests'[q].corr in pending' && pending'[requests'[q].corr] == q) || q in claims
              || (q in channels[r := Channel(None, 0)] && channels[r := Channel(None, 0)][q].content.Some?)
    {
      if q != r {
        assert q in requests && requests[q] == requests'[q];
      }
    }
  }

  lemma EnrollKeepsOutcomes(corrs: Correlations, claims: Claims, channels: Channels, received: map<Request, Outcome>,
                            r: Request, corr: Correlation)
    requires OutcomeInv(corrs, claims, channels, received) && corr !in corrs
    ensures OutcomeInv(corrs[corr := r], claims, channels[r := Channel(None, 0)], received)
  {
  }

  lemma EnrollKeepsInv(s: State, r: Request, corr: Correlation)
    requires Inv(s) && RequestEnabled(s, r, Enroll(corr))
    ensures Inv(AfterRequest(s, r, Enroll(corr)))
  {
    assert corr !in s.core.pending;
    FreshCorrelation(s, r, corr);
    if Register(s.core, corr, s.requests[r].sub, r).1 {
      EnrollKeepsPending(s.core.pending, s.requests, r, corr);
      MoveKeepsPhase(s.requests, s.corrs[corr := r], r, Registered(corr));
      EnrollKeepsOwner(s.requests, s.channels, s.started, r, corr);
      EnrollKeepsChannels(s.channels, s.claims, r);
      EnrollKeepsUnsent(s.core.pending, s.channels, s.claims, r, corr);
      EnrollKeepsServed(s.requests, s.core.pending, s.channels, s.claims, r, corr);
      EnrollKeepsOutcomes(s.corrs, s.claims, s.channels, s.received, r, corr);
      MoveKeepsCount(s.core, s.requests, s.closer, r, Registered(corr));
    } else {
      MoveKeepsInv(s.(corrs := s.corrs[corr := r]), r, Leaving);
    }
  }

  lemma AbortKeepsInv(s: State, r: Request)
    requires Inv(s) && RequestEnabled(s, r, Abort)
    ensures Inv(AfterRequest(s, r, Abort))
  {
    MoveKeepsInv(s, r, AfterRequest(s, r, Abort).requests[r]);
  }

  lemma PublishKeepsInv(s: State, r: Request, ok: bool)
    requires Inv(s) && RequestEnabled(s, r, Publish(ok))
    ensures Inv(AfterRequest(s, r, Publish(ok)))
  {
    MoveKeepsInv(s, r, AfterRequest(s, r, Publish(ok)).requests[r]);
  }

  /** Emptying the channel of a round trip that no longer waits. */
  lemma EmptyKeepsChannels(pending: Correlations, channels: Channels, claims: Claims, r: Request)
    requires ChannelInv(channels, claims) && UnsentInv(pending, channels, claims) && r in channels
    ensures ChannelInv(channels[r := channels[r].(content := None)], claims)
    ensures UnsentInv(pending, channels[r := channels[r].(content := None)], claims)
  {
  }

  lemma TakeResultKeepsInv(s: State, r: Request)
    requires Inv(s) && RequestEnabled(s, r, TakeResult)
    ensures Inv(AfterRequest(s, r, TakeResult))
  {
    MoveKeepsInv(s, r, Leaving);
    EmptyKeepsChannels(s.core.pending, s.channels, s.claims, r);
    var s' := AfterRequest(s, r, TakeResult);
    assert s'.channels.Keys == s.channels.Keys;
    EmptyKeepsServed(s.requests[r := Leaving], s.core.pending, s.channels, s.claims, r);
    EmptyKeepsOutcomes(s.corrs, s.claims, s.channels, s.received, r);
  }

  lemma EmptyKeepsServed(requests: Requests, pending: Correlations, channels: Channels, claims: Claims, r: Request)
    requires ServedInv(requests, pending, channels, claims) && r in requests && requests[r].Leaving? && r in channels
    ensures ServedInv(requests, pending, channels[r := channels[r].(content := None)], claims)
  {
  }

  lemma EmptyKeepsOutcomes(corrs: Correlations, claims: Claims, channels: Channels, received: map<Request, Outcome>,
                           r: Request)
    requires OutcomeInv(corrs, claims, channels, received) && r in channels && channels[r].content.Some?
    ensures OutcomeInv(corrs, claims, channels[r := channels[r].(content := None)],
                       received[r := channels[r].content.value])
  {
  }

  lemma CancelKeepsInv(s: State, r: Request)
    requires Inv(s) && RequestEnabled(s, r, Cancel)
    ensures Inv(AfterRequest(s, r, Cancel))
  {
    MoveKeepsInv(s, r, Unregistering(s.requests[r].corr));
  }

  /** Taking a correlation out of pending when its round trip no longer waits. */
  lemma UnpendKeepsInv(s: State, corr: Correlation)
    requires Inv(s) && corr in s.core.pending
    requires s.core.pending[corr] in s.requests ==> s.requests[s.core.pending[corr]].Unregistering?
    ensures Inv(s.(core := s.core.(pending := s.core.pending - {corr})))
  {
    UnpendKeepsServed(s.requests, s.core.pending, s.channels, s.claims, corr);
  }

  lemma UnpendKeepsServed(requests: Requests, pending: Correlations, channels: Channels, claims: Claims,
                          corr: Correlation)
    requires ServedInv(requests, pending, channels, claims) && corr in pending
    requires pending[corr] in requests ==> requests[pending[corr]].Unregistering?
    ensures ServedInv(requests, pending - {corr}, channels, claims)
  {
  }

  lemma WithdrawKeepsInv(s: State, r: Request)
    requires Inv(s) && RequestEnabled(s, r, Withdraw)
    ensures Inv(AfterRequest(s, r, Withdraw))
  {
    var corr := s.requests[r].corr;
    if corr in s.core.pending && s.core.pending[corr] == r {
      UnpendKeepsInv(s, corr);
      MoveKeepsInv(s.(core := s.core.(pending := s.core.pending - {corr})), r, Leaving);
    } else {
      MoveKeepsInv(s, r, Leaving);
    }
  }

  lemma LeaveKeepsInv(s: State, r: Request)
    requires Inv(s) && RequestEnabled(s, r, Leave)
    ensures Inv(AfterRequest(s, r, Leave))
  {
  }

  lemma RequestKeepsInv(s: State, r: Request, a: RequestStep)
    requires Inv(s) && RequestEnabled(s, r, a)
    ensures Inv(AfterRequest(s, r, a))
  {
    match a
    case Begin => BeginKeepsInv(s, r);
    case Ensure(answer) => EnsureKeepsInv(s, r, answer);
    case Enroll(corr) => EnrollKeepsInv(s, r, corr);
    case Abort => AbortKeepsInv(s, r);
    case Publish(ok) => PublishKeepsInv(s, r, ok);
    case TakeResult => TakeResultKeepsInv(s, r);
    case Cancel => CancelKeepsInv(s, r);
    case Withdraw => WithdrawKeepsInv(s, r);
    case Leave => LeaveKeepsInv(s, r);
  }

  /** Failure and close hand over every pending request and leave none behind. */
  function HandOver(s: State, owner: Owner): State {
    s.(core := s.core.(current := None, pending := map[]), claims := ClaimAll(s.claims, s.core.pending, owner))
  }

  lemma HandOverKeepsChannels(pending: Correlations, channels: Channels, claims: Claims, owner: Owner)
    requires ChannelInv(channels, claims) && UnsentInv(pending, channels, claims)
    ensures ChannelInv(channels, ClaimAll(claims, pending, owner))
  {
  }

  lemma HandOverKeepsServed(requests: Requests, pending: Correlations, channels: Channels, claims: Claims, owner: Owner)
    requires ServedInv(requests, pending, channels, claims)
    ensures ServedInv(requests, map[], channels, ClaimAll(claims, pending, owner))
  {
  }

  lemma HandOverKeepsOutcomes(corrs: Correlations, pending: Correlations, claims: Claims, channels: Channels,
                              received: map<Request, Outcome>, owner: Owner)
    requires OutcomeInv(corrs, claims, channels, received)
    ensures OutcomeInv(corrs, ClaimAll(claims, pending, owner), channels, received)
  {
  }

  lemma HandOverKeepsInv(s: State, owner: Owner)
    requires Inv(s)
    ensures Inv(HandOver(s, owner))
  {
    HandOverKeepsChannels(s.core.pending, s.channels, s.claims, owner);
    HandOverKeepsServed(s.requests, s.core.pending, s.channels, s.claims, owner);
    HandOverKeepsOutcomes(s.corrs, s.core.pending, s.claims, s.channels, s.received, owner);
  }

  lemma ClaimNone(claims: Claims, owner: Owner)
    ensures ClaimAll(claims, map[], owner) == claims
  {
  }

  lemma ReceiverEnds(s: State, sub: SubId)
    requires Inv(s) && s.core.current != Some(sub)
    ensures Inv(s.(receiving := s.receiving - {sub}))
  {
  }

  lemma SubFailsKeepsInv(s: State, sub: SubId)
    requires Inv(s) && OtherEnabled(s, SubFails(sub))
    ensures Inv(AfterOther(s, SubFails(sub)))
  {
    if s.core.current == Some(sub) {
      HandOverKeepsInv(s, Receiver(sub));
      ReceiverEnds(HandOver(s, Receiver(sub)), sub);
    } else {
      ClaimNone(s.claims, Receiver(sub));
      ReceiverEnds(s, sub);
    }
  }

  lemma DeliverKeepsInv(s: State, sub: SubId, corr: Correlation, tooLarge: bool)
    requires Inv(s) && OtherEnabled(s, Deliver(sub, corr, tooLarge))
    ensures Inv(AfterOther(s, Deliver(sub, corr, tooLarge)))
  {
  }

  function Sent(channels: Channels, claims: Claims, r: Request): Channels
    requires r in claims && r in channels
  {
    channels[r := Channel(Some(claims[r].outcome), channels[r].sends + 1)]
  }

  /** A claimed result reaches its channel, which is empty and was never sent to. */
  lemma SendKeepsChannels(pending: Correlations, channels: Channels, claims: Claims, r: Request)
    requires ChannelInv(channels, claims) && UnsentInv(pending, channels, claims) && r in claims && r in channels
    ensures ChannelInv(Sent(channels, claims, r), claims - {r})
    ensures UnsentInv(pending, Sent(channels, claims, r), claims - {r})
  {
  }

  lemma SendKeepsServed(requests: Requests, pending: Correlations, channels: Channels, claims: Claims, r: Request)
    requires ServedInv(requests, pending, channels, claims) && r in claims && r in channels
    ensures ServedInv(requests, pending, Sent(channels, claims, r), claims - {r})
  {
  }

  lemma SendKeepsOutcomes(corrs: Correlations, claims: Claims, channels: Channels, received: map<Request, Outcome>,
                          r: Request)
    requires OutcomeInv(corrs, claims, channels, received) && r in claims && r in channels
    ensures OutcomeInv(corrs, claims - {r}, Sent(channels, claims, r), received)
  {
  }

  lemma SendKeepsInv(s: State, r: Request)
    requires Inv(s) && OtherEnabled(s, Send(r))
    ensures Inv(AfterOther(s, Send(r)))
  {
    SendKeepsChannels(s.core.pending, s.channels, s.claims, r);
    SendKeepsServed(s.requests, s.core.pending, s.channels, s.claims, r);
    SendKeepsOutcomes(s.corrs, s.claims, s.channels, s.received, r);
    SendKeepsOwner(s.requests, s.channels, s.claims, s.started, r);
  }

  lemma SendKeepsOwner(requests: Requests, channels: Channels, claims: Claims, started: set<Request>, r: Request)
    requires OwnerInv(requests, channels, started) && r in claims && r in channels
    ensures OwnerInv(requests, Sent(channels, claims, r), started)
  {
    assert Sent(channels, claims, r).Keys == channels.Keys;
  }

  lemma BeginCloseKeepsInv(s: State)
    requires Inv(s) && OtherEnabled(s, BeginClose)
    ensures Inv(AfterOther(s, BeginClose))
  {
    HandOverKeepsInv(s, Closer);
  }

  lemma OtherKeepsInv(s: State, o: OtherStep)
    requires Inv(s) && OtherEnabled(s, o)
    ensures Inv(AfterOther(s, o))
  {
    match o
    case Deliver(sub, corr, tooLarge) => DeliverKeepsInv(s, sub, corr, tooLarge);
    case SubFails(sub) => SubFailsKeepsInv(s, sub);
    case Send(r) => SendKeepsInv(s, r);
    case BeginClose => BeginCloseKeepsInv(s);
    case _ =>
  }

  lemma {:induction false} RunKeepsInv(s: State, steps: seq<Step>)
    requires Inv(s) && IsRun(s, steps)
    ensures Inv(Run(s, steps))
    decreases |steps|
  {
    if steps != [] {
      match steps[0] {
        case Of(r, a) => RequestKeepsInv(s, r, a);
        case Other(o) => OtherKeepsInv(s, o);
      }
      RunKeepsInv(After(s, steps[0]), steps[1..]);
    }
  }

  // Main results.

  ghost predicate Reachable(s: State) {
    exists steps :: IsRun(Init(), steps) && Run(Init(), steps) == s
  }

  lemma ReachableInv(s: State)
    requires Reachable(s)
    ensures Inv(s)
  {
    var steps :| IsRun(Init(), steps) && Run(Init(), steps) == s;
    RunKeepsInv(Init(), steps);
  }

  /**
   No orphan waiters: without a current subscription nothing is pending, every
   pending request belongs to a subscription whose receive loop still runs, and
   a round trip waiting for its result is pending or its result is on the way.
   */
  lemma NoOrphanWaiters(s: State)
    requires Reachable(s)
    ensures s.core.current.None? ==> s.core.pending == map[]
    ensures s.core.pending != map[] ==> s.core.current.Some? && s.core.current.value in s.receiving
    ensures forall r :: r in s.requests && s.requests[r].Published? ==>
              || (s.requests[r].corr in s.core.pending && s.core.pending[s.requests[r].corr] == r)
              || r in s.claims
              || (r in s.channels && s.channels[r].content.Some?)
  {
    ReachableInv(s);
  }

  /**
   Each result channel is sent to at most once, so a sender always finds its
   one slot free, and a response reaches only the request that generated its
   correlation id.
   */
  lemma AtMostOneOwnResult(s: State)
    requires Reachable(s)
    ensures forall r :: r in s.channels ==> s.channels[r].sends <= 1
    ensures forall r :: r in s.claims ==> r in s.channels && s.channels[r].content.None? && s.channels[r].sends == 0
    ensures forall r :: r in s.received && s.received[r].Response? ==>
              s.received[r].corr in s.corrs && s.corrs[s.received[r].corr] == r
  {
    ReachableInv(s);
  }

  /** After the closing section nothing is published, registered or started again. */
  lemma {:induction false} NothingAfterClose(s: State, steps: seq<Step>)
    requires Reachable(s) && s.core.closed && IsRun(s, steps)
    ensures Run(s, steps).published == s.published && Run(s, steps).core.inflight <= s.core.inflight
    ensures Run(s, steps).core.closed && Run(s, steps).core.pending == map[]
    ensures Run(s, steps).started == s.started
    decreases |steps|
  {
    ReachableInv(s);
    if steps != [] {
      ClosedStep(s, steps[0]);
      StillReachable(s, steps[0]);
      NothingAfterClose(After(s, steps[0]), steps[1..]);
    }
  }

  ghost predicate Quieter(s: State, s': State) {
    s'.published == s.published && s'.core.inflight <= s.core.inflight && s'.core.closed && s'.started == s.started
  }

  lemma ClosedRequestStep(s: State, r: Request, a: RequestStep)
    requires s.core.closed && RequestEnabled(s, r, a)
    ensures Quieter(s, AfterRequest(s, r, a))
  {
  }

  lemma ClosedOtherStep(s: State, o: OtherStep)
    requires s.core.closed && OtherEnabled(s, o)
    ensures Quieter(s, AfterOther(s, o))
  {
  }

  lemma ClosedStep(s: State, a: Step)
    requires s.core.closed && Enabled(s, a)
    ensures Quieter(s, After(s, a))
  {
    match a
    case Of(r, q) => ClosedRequestStep(s, r, q);
    case Other(o) => ClosedOtherStep(s, o);
  }

  lemma {:induction false} RunExtends(s: State, steps: seq<Step>, a: Step)
    requires IsRun(s, steps) && Enabled(Run(s, steps), a)
    ensures IsRun(s, steps + [a]) && Run(s, steps + [a]) == After(Run(s, steps), a)
    decreases |steps|
  {
    if steps == [] {
      assert steps + [a] == [a];
      assert IsRun(After(s, a), [a][1..]);
    } else {
      RunExtends(After(s, steps[0]), steps[1..], a);
      assert (steps + [a])[1..] == steps[1..] + [a];
    }
  }

  lemma StillReachable(s: State, a: Step)
    requires Reachable(s) && Enabled(s, a)
    ensures Reachable(After(s, a))
  {
    var steps :| IsRun(Init(), steps) && Run(Init(), steps) == s;
    RunExtends(Init(), steps, a);
  }

  /** Close returns only when every started round trip has returned. */
  lemma CloseWaitsForAll(s: State)
    requires Reachable(s) && s.closer.Returned?
    ensures s.requests == map[] && s.core.inflight == 0
  {
    ReachableInv(s);
  }
}

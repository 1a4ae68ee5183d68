/**
 The retry loop of the HTTP client. Transport errors and one API version
 mismatch share the attempt counter; a mismatch sends a nested version request
 through the same loop.
 */
module Retry {
  import opened Wrappers

  const VERSION_PATH := "/api/version"
  const METHOD_NOT_ALLOWED := 405

  datatype Request = Request(verb: string, path: string, repeatable: bool)

  const VERSION_REQUEST := Request("GET", VERSION_PATH, true)

  /**
   The answer to one attempt. `Failed` covers a body that does not open.
   `readable`: the body was read within its limits; `accepted`: the response
   handler took it; `version`: the API version it decodes to, or "".
   */
  datatype Answer = Failed | Response(status: int, readable: bool, accepted: bool, version: string)

  /** An attempt's answer, and whether the context had ended after it or ended the backoff. */
  datatype Round = Round(answer: Answer, cancelled: bool, sleepCancelled: bool)

  type Network = nat -> Round

  /** The version header that an attempt carried, or "", and what happened to it. */
  datatype Attempt = Attempt(version: string, round: Round)

  /** The refresh made after attempt `at`, with the attempts of its nested request. */
  datatype Refresh = Refresh(at: nat, nested: seq<Attempt>, value: Option<string>)

  datatype Outcome =
    | Delivered
    | Rejected
    | Cancelled(attempts: nat)
    | TransportError(attempts: nat)
    | Unreadable
    | NotRepeatable
    | RefreshFailed
    | APIError(status: int)
    | NegotiationFailed

  predicate IsSafeRetryMethod(verb: string) {
    verb == "GET" || verb == "HEAD" || verb == "OPTIONS"
  }

  /** How many attempts the policy permits when no version mismatch occurs. */
  function Limit(maxAttempts: int, request: Request): nat {
    if maxAttempts <= 0 || !request.repeatable || !IsSafeRetryMethod(request.verb) then 1 else maxAttempts
  }

  predicate ShouldNegotiateVersion(negotiates: bool, request: Request) {
    negotiates && request.path != VERSION_PATH
  }

  predicate IsMismatch(negotiates: bool, request: Request, answer: Answer) {
    answer.Response? && answer.status == METHOD_NOT_ALLOWED && ShouldNegotiateVersion(negotiates, request)
  }

  // Runs of the loop, seen from outside.

  /** Attempt `i` failed in transport and the policy allows another. */
  predicate RetriedInTransport(limit: nat, attempts: seq<Attempt>, i: nat)
    requires i < |attempts|
  {
    var round := attempts[i].round;
    round.answer.Failed? && !round.cancelled && !round.sleepCancelled && i + 1 < limit
  }

  /** An answer that calls for a refresh, when none was made yet. */
  predicate CallsForRefresh(negotiates: bool, request: Request, answer: Answer) {
    request.repeatable && IsMismatch(negotiates, request, answer) && answer.readable
  }

  /** Attempt `i` met a version mismatch, and the refresh after it found a version. */
  predicate RetriedForVersion(negotiates: bool, request: Request,
                              attempts: seq<Attempt>, refresh: Option<Refresh>, i: nat)
    requires i < |attempts|
  {
    && refresh.Some? && refresh.value.at == i && refresh.value.value.Some?
    && CallsForRefresh(negotiates, request, attempts[i].round.answer)
  }

  ghost predicate CarryVersions(attempts: seq<Attempt>, refresh: Option<Refresh>, version: string) {
    forall i: nat :: i < |attempts| ==>
      attempts[i].version ==
      if refresh.Some? && refresh.value.at < i && refresh.value.value.Some? then refresh.value.value.value else version
  }

  ghost predicate RefreshIsDue(negotiates: bool, request: Request, attempts: seq<Attempt>, refresh: Option<Refresh>) {
    refresh.Some? ==>
      && refresh.value.at < |attempts|
      && CallsForRefresh(negotiates, request, attempts[refresh.value.at].round.answer)
  }

  /** Attempt `i` was not the end of the call. */
  predicate Retried(maxAttempts: int, negotiates: bool, request: Request,
                    attempts: seq<Attempt>, refresh: Option<Refresh>, i: nat)
    requires i < |attempts|
  {
    || RetriedInTransport(Limit(maxAttempts, request), attempts, i)
    || RetriedForVersion(negotiates, request, attempts, refresh, i)
  }

  /**
   Every attempt but the last was retried for a reason, at most one refresh was
   made, on a mismatch, and the attempts after it carry its version.
   */
  ghost predicate Continued(maxAttempts: int, negotiates: bool, request: Request, version: string,
                            attempts: seq<Attempt>, refresh: Option<Refresh>) {
    && CarryVersions(attempts, refresh, version)
    && RefreshIsDue(negotiates, request, attempts, refresh)
    && forall i: nat :: i < |attempts| - 1 ==> Retried(maxAttempts, negotiates, request, attempts, refresh, i)
  }

  /** A whole run of the loop: its last attempt was not retried, and called for no refresh that was not made. */
  ghost predicate IsRun(maxAttempts: int, negotiates: bool, request: Request, version: string,
                        attempts: seq<Attempt>, refresh: Option<Refresh>) {
    && attempts != []
    && Continued(maxAttempts, negotiates, request, version, attempts, refresh)
    && !Retried(maxAttempts, negotiates, request, attempts, refresh, |attempts| - 1)
    && (refresh.None? ==> !CallsForRefresh(negotiates, request, attempts[|attempts| - 1].round.answer))
  }

  /** A run that is not over. */
  ghost predicate Midway(maxAttempts: int, negotiates: bool, request: Request, version: string,
                         attempts: seq<Attempt>, refresh: Option<Refresh>) {
    && Continued(maxAttempts, negotiates, request, version, attempts, refresh)
    && (attempts != [] ==> Retried(maxAttempts, negotiates, request, attempts, refresh, |attempts| - 1))
  }

  ghost predicate HappensOn(attempts: seq<Attempt>, network: Network) {
    forall i: nat :: i < |attempts| ==> attempts[i].round == network(i)
  }

  /** How a run ends, decided by its last attempt. */
  function EndOf(maxAttempts: int, negotiates: bool, request: Request,
                 attempts: seq<Attempt>, refresh: Option<Refresh>): Outcome
    requires attempts != []
  {
    var last := attempts[|attempts| - 1].round;
    match last.answer
    case Failed =>
      if last.cancelled || |attempts| < Limit(maxAttempts, request) then Cancelled(|attempts|)
      else TransportError(|attempts|)
    case Response(status, readable, accepted, _) =>
      if status >= 400 && !readable then Unreadable
      else if IsMismatch(negotiates, request, last.answer) && (refresh.None? || refresh.value.at == |attempts| - 1) then
        if request.repeatable then RefreshFailed else NotRepeatable
      else if status >= 400 then APIError(status)
      else if accepted then Delivered
      else Rejected
  }

  /** The version that the nested request found. */
  function Found(outcome: Outcome, attempts: seq<Attempt>): Option<string> {
    if outcome.Delivered? && attempts != [] then
      match attempts[|attempts| - 1].round.answer
      case Failed => None
      case Response(_, _, _, version) => if version == "" then None else Some(version)
    else None
  }

  ghost predicate IsVersionRun(maxAttempts: int, negotiates: bool, attempts: seq<Attempt>, value: Option<string>) {
    && IsRun(maxAttempts, negotiates, VERSION_REQUEST, "", attempts, None)
    && value == Found(EndOf(maxAttempts, negotiates, VERSION_REQUEST, attempts, None), attempts)
  }

  /** The nested request of a refresh is itself a whole run, and a version is never empty. */
  ghost predicate RefreshRan(maxAttempts: int, negotiates: bool, refresh: Option<Refresh>, network: Network) {
    refresh.Some? ==>
      && IsVersionRun(maxAttempts, negotiates, refresh.value.nested, refresh.value.value)
      && HappensOn(refresh.value.nested, network)
      && (refresh.value.value.Some? ==> refresh.value.value.value != "")
  }

  lemma Extend(maxAttempts: int, negotiates: bool, request: Request, version: string,
               attempts: seq<Attempt>, refresh: Option<Refresh>, next: Attempt, network: Network)
    requires Midway(maxAttempts, negotiates, request, version, attempts, refresh)
    requires HappensOn(attempts, network) && next.round == network(|attempts|)
    requires next.version == if refresh.Some? && refresh.value.value.Some? then refresh.value.value.value else version
    ensures Continued(maxAttempts, negotiates, request, version, attempts + [next], refresh)
    ensures HappensOn(attempts + [next], network)
  {
    var longer := attempts + [next];
    forall i: nat | i < |longer| - 1 ensures Retried(maxAttempts, negotiates, request, longer, refresh, i) {
      assert longer[i] == attempts[i];
      assert Retried(maxAttempts, negotiates, request, attempts, refresh, i);
    }
  }

  lemma AddRefresh(maxAttempts: int, negotiates: bool, request: Request, version: string,
                   attempts: seq<Attempt>, r: Refresh)
    requires attempts != [] && r.at == |attempts| - 1
    requires Continued(maxAttempts, negotiates, request, version, attempts, None)
    requires CallsForRefresh(negotiates, request, attempts[r.at].round.answer)
    ensures Continued(maxAttempts, negotiates, request, version, attempts, Some(r))
    ensures Retried(maxAttempts, negotiates, request, attempts, Some(r), r.at) <==> r.value.Some?
  {
    forall i: nat | i < |attempts| - 1 ensures Retried(maxAttempts, negotiates, request, attempts, Some(r), i) {
      assert Retried(maxAttempts, negotiates, request, attempts, None, i);
    }
  }

  // What every run keeps.

  /** The version request meets no mismatch of its own, so it neither negotiates nor refreshes. */
  lemma VersionRequestIsPlain(maxAttempts: int, negotiates: bool, version: string,
                              attempts: seq<Attempt>, refresh: Option<Refresh>)
    requires IsRun(maxAttempts, negotiates, VERSION_REQUEST, version, attempts, refresh)
    ensures !ShouldNegotiateVersion(negotiates, VERSION_REQUEST) && refresh.None?
    ensures forall i: nat :: i < |attempts| ==> attempts[i].version == version
  {}

  /** The attempts of a call are bounded by the policy, and by one more when a version mismatch was repaired. */
  lemma RunIsBounded(maxAttempts: int, negotiates: bool, request: Request, version: string,
                     attempts: seq<Attempt>, refresh: Option<Refresh>)
    requires IsRun(maxAttempts, negotiates, request, version, attempts, refresh)
    ensures |attempts| <= Limit(maxAttempts, request) + if refresh.Some? && refresh.value.value.Some? then 1 else 0
    ensures request.repeatable || |attempts| == 1
  {
    var n := |attempts|;
    if n >= 2 {
      assert Retried(maxAttempts, negotiates, request, attempts, refresh, n - 2);
    }
    if n >= 3 {
      assert Retried(maxAttempts, negotiates, request, attempts, refresh, n - 3);
    }
  }

  /**
   A method that changes the device is sent a second time exactly when the
   device refused the first with a readable 405, the body can be opened again,
   and the refresh found a version, which the second then carries.
   */
  lemma UnsafeMethodIsResentOnlyAfterMismatch(maxAttempts: int, negotiates: bool, request: Request, version: string,
                                              attempts: seq<Attempt>, refresh: Option<Refresh>)
    requires IsRun(maxAttempts, negotiates, request, version, attempts, refresh)
    requires request.verb !in {"GET", "HEAD", "OPTIONS"}
    ensures |attempts| <= 2
    ensures |attempts| == 2 <==>
              && CallsForRefresh(negotiates, request, attempts[0].round.answer)
              && refresh.Some? && refresh.value.value.Some?
    ensures |attempts| == 2 ==> refresh.value.value == Some(attempts[1].version)
  {
    RunIsBounded(maxAttempts, negotiates, request, version, attempts, refresh);
    if |attempts| == 2 {
      assert Retried(maxAttempts, negotiates, request, attempts, refresh, 0);
    }
  }

  /** No answer is thrown away, except the one mismatch that a refresh repaired. */
  lemma AnswersEndTheCall(maxAttempts: int, negotiates: bool, request: Request, version: string,
                          attempts: seq<Attempt>, refresh: Option<Refresh>, i: nat)
    requires IsRun(maxAttempts, negotiates, request, version, attempts, refresh)
    requires i < |attempts| && attempts[i].round.answer.Response?
    ensures || i == |attempts| - 1
            || (refresh.Some? && refresh.value.at == i && attempts[i].round.answer.status == METHOD_NOT_ALLOWED)
  {
    if i < |attempts| - 1 {
      assert Retried(maxAttempts, negotiates, request, attempts, refresh, i);
    }
  }

  /** A transport error is reported only when the permitted attempts are used up. */
  lemma TransportErrorMeansExhausted(maxAttempts: int, negotiates: bool, request: Request, version: string,
                                     attempts: seq<Attempt>, refresh: Option<Refresh>)
    requires IsRun(maxAttempts, negotiates, request, version, attempts, refresh)
    requires EndOf(maxAttempts, negotiates, request, attempts, refresh).TransportError?
    ensures Limit(maxAttempts, request) <= |attempts| <= Limit(maxAttempts, request) + 1
  {
    RunIsBounded(maxAttempts, negotiates, request, version, attempts, refresh);
  }

  const FAILED := Round(Failed, false, false)
  const MISMATCH := Round(Response(METHOD_NOT_ALLOWED, true, false, ""), false, false)
  const VERSION_FOUND := Round(Response(200, true, true, "2.0.0"), false, false)

  /** A refresh after attempt `at`, answered at once. */
  function AnsweredRefresh(at: nat): Refresh {
    Refresh(at, [Attempt("", VERSION_FOUND)], Some("2.0.0"))
  }

  lemma AnsweredRefreshRan(maxAttempts: int, at: nat)
    ensures RefreshRan(maxAttempts, true, Some(AnsweredRefresh(at)), i => VERSION_FOUND)
  {
    assert IsRun(maxAttempts, true, VERSION_REQUEST, "", [Attempt("", VERSION_FOUND)], None);
  }

  /** `failures` transport errors, then a repaired mismatch, then a transport error. */
  function Exhausting(failures: nat, i: nat): Round { if i == failures then MISMATCH else FAILED }

  /** The bound is reached under every policy, on a network whose nested request is answered. */
  lemma BoundIsReached(maxAttempts: int, version: string)
    returns (request: Request, attempts: seq<Attempt>, refresh: Option<Refresh>, network: Network)
    ensures |attempts| == Limit(maxAttempts, request) + 1 == (if maxAttempts <= 0 then 1 else maxAttempts) + 1
    ensures IsRun(maxAttempts, true, request, version, attempts, refresh) && HappensOn(attempts, network)
    ensures RefreshRan(maxAttempts, true, refresh, i => VERSION_FOUND)
  {
    request := Request("GET", "/api/status", true);
    var failures: nat := Limit(maxAttempts, request) - 1;
    refresh, network := Some(AnsweredRefresh(failures)), (i: nat) => Exhausting(failures, i);
    AnsweredRefreshRan(maxAttempts, failures);
    attempts := seq(failures + 2, i requires 0 <= i =>
      Attempt(if i <= failures then version else "2.0.0", Exhausting(failures, i)));
    forall i: nat | i < |attempts| - 1 ensures Retried(maxAttempts, true, request, attempts, refresh, i) {}
  }

  /** A run that the network and the nested version request can bring about. */
  ghost predicate Happens(maxAttempts: int, negotiates: bool, request: Request, version: string,
                          attempts: seq<Attempt>, refresh: Option<Refresh>, network: Network, refreshNetwork: Network)
  {
    && IsRun(maxAttempts, negotiates, request, version, attempts, refresh)
    && HappensOn(attempts, network) && RefreshRan(maxAttempts, negotiates, refresh, refreshNetwork)
  }

  ghost predicate MaySendTwice(maxAttempts: int, negotiates: bool, request: Request, version: string) {
    exists attempts, refresh, network, refreshNetwork ::
      Happens(maxAttempts, negotiates, request, version, attempts, refresh, network, refreshNetwork) && |attempts| == 2
  }

  /** The device answers 405, the refresh finds a version, and the second sending is accepted. */
  lemma UnsafeMethodCanBeResent(maxAttempts: int, request: Request, version: string)
    returns (attempts: seq<Attempt>, refresh: Option<Refresh>, network: Network)
    requires request.verb !in {"GET", "HEAD", "OPTIONS"} && request.repeatable && request.path != "/api/version"
    ensures Happens(maxAttempts, true, request, version, attempts, refresh, network, i => VERSION_FOUND)
    ensures |attempts| == 2 && EndOf(maxAttempts, true, request, attempts, refresh) == Delivered
  {
    var accepted := Round(Response(200, true, true, ""), false, false);
    refresh := Some(AnsweredRefresh(0));
    network := (i: nat) => if i == 0 then MISMATCH else accepted;
    attempts := [Attempt(version, MISMATCH), Attempt("2.0.0", accepted)];
    AnsweredRefreshRan(maxAttempts, 0);
  }

  /**
   What a caller can tell before the call: a request whose method changes the
   device may be sent twice exactly if its body can be opened again and the
   call negotiates versions, under every retry policy.
   */
  lemma UnsafeMethodMaySendTwice(maxAttempts: int, negotiates: bool, request: Request, version: string)
    requires request.verb !in {"GET", "HEAD", "OPTIONS"}
    ensures MaySendTwice(maxAttempts, negotiates, request, version)
       <==> request.repeatable && negotiates && request.path != "/api/version"
  {
    if MaySendTwice(maxAttempts, negotiates, request, version) {
      var attempts, refresh, network, refreshNetwork :|
        Happens(maxAttempts, negotiates, request, version, attempts, refresh, network, refreshNetwork)
        && |attempts| == 2;
      UnsafeMethodIsResentOnlyAfterMismatch(maxAttempts, negotiates, request, version, attempts, refresh);
    }
    if request.repeatable && ShouldNegotiateVersion(negotiates, request) {
      var attempts, refresh, network := UnsafeMethodCanBeResent(maxAttempts, request, version);
      assert Happens(maxAttempts, negotiates, request, version, attempts, refresh, network, i => VERSION_FOUND);
    }
  }

  lemma AnsweredWhereRefreshed(maxAttempts: int, negotiates: bool, request: Request, version: string,
                               a: seq<Attempt>, r: Option<Refresh>)
    requires IsRun(maxAttempts, negotiates, request, version, a, r)
    ensures forall i: nat :: i < |a| - 1 ==> (a[i].round.answer.Response? <==> (r.Some? && r.value.at == i))
    ensures r.Some? && r.value.at < |a| - 1 ==> r.value.value.Some?
  {
    forall i: nat | i < |a| - 1 ensures a[i].round.answer.Response? <==> (r.Some? && r.value.at == i) {
      assert Retried(maxAttempts, negotiates, request, a, r, i);
    }
    if r.Some? && r.value.at < |a| - 1 {
      assert Retried(maxAttempts, negotiates, request, a, r, r.value.at);
    }
  }

  lemma RunsEndTogether(maxAttempts: int, negotiates: bool, request: Request, version: string, network: Network,
                        a: seq<Attempt>, r: Option<Refresh>, b: seq<Attempt>, q: Option<Refresh>, found: Option<string>)
    requires IsRun(maxAttempts, negotiates, request, version, a, r) && HappensOn(a, network)
    requires IsRun(maxAttempts, negotiates, request, version, b, q) && HappensOn(b, network)
    requires (r.Some? ==> r.value.value == found) && (q.Some? ==> q.value.value == found)
    ensures |a| <= |b|
  {
    AnsweredWhereRefreshed(maxAttempts, negotiates, request, version, a, r);
    AnsweredWhereRefreshed(maxAttempts, negotiates, request, version, b, q);
    forall i: nat | i < |a| && i < |b| ensures a[i].round == b[i].round {
      assert a[i].round == network(i);
    }
    assert |b| < |a| ==> Retried(maxAttempts, negotiates, request, a, r, |b| - 1);
  }

  /**
   The network decides the run: two runs of one call that meet the same rounds,
   and whose refresh, if any, finds the same version, make the same attempts.
   */
  lemma NetworkDecidesRun(maxAttempts: int, negotiates: bool, request: Request, version: string, network: Network,
                          a: seq<Attempt>, r: Option<Refresh>, b: seq<Attempt>, q: Option<Refresh>,
                          found: Option<string>)
    requires IsRun(maxAttempts, negotiates, request, version, a, r) && HappensOn(a, network)
    requires IsRun(maxAttempts, negotiates, request, version, b, q) && HappensOn(b, network)
    requires (r.Some? ==> r.value.value == found) && (q.Some? ==> q.value.value == found)
    ensures a == b
    ensures EndOf(maxAttempts, negotiates, request, a, r) == EndOf(maxAttempts, negotiates, request, b, q)
  {
    RunsEndTogether(maxAttempts, negotiates, request, version, network, a, r, b, q, found);
    RunsEndTogether(maxAttempts, negotiates, request, version, network, b, q, a, r, found);
    AnsweredWhereRefreshed(maxAttempts, negotiates, request, version, a, r);
    AnsweredWhereRefreshed(maxAttempts, negotiates, request, version, b, q);
    forall i: nat | i < |a| ensures a[i].round == b[i].round {
      assert a[i].round == network(i);
    }
    assert r.Some? && r.value.at < |a| - 1 ==> q.Some? && q.value.at == r.value.at;
    assert q.Some? && q.value.at < |a| - 1 ==> r.Some? && r.value.at == q.value.at;
    forall i: nat | i < |a| ensures a[i] == b[i] {
      assert a[i].version == b[i].version;
    }
  }

  // What a caller can tell from the request and the network.

  /** The attempts that the policy permits, written out. */
  function Permitted(maxAttempts: int, request: Request): int {
    if request.repeatable && maxAttempts > 0 && request.verb in {"GET", "HEAD", "OPTIONS"} then maxAttempts else 1
  }

  /** On a network that never answers, the policy alone decides how often a request is sent. */
  lemma FailingNetworkExhausts(maxAttempts: int, negotiates: bool, request: Request, version: string,
                               attempts: seq<Attempt>, refresh: Option<Refresh>)
    requires IsRun(maxAttempts, negotiates, request, version, attempts, refresh)
    requires forall i: nat :: i < |attempts| ==> attempts[i].round == Round(Failed, false, false)
    ensures |attempts| == Permitted(maxAttempts, request) && refresh.None?
    ensures EndOf(maxAttempts, negotiates, request, attempts, refresh) == TransportError(|attempts|)
  {
    RunIsBounded(maxAttempts, negotiates, request, version, attempts, refresh);
    assert Limit(maxAttempts, request) == Permitted(maxAttempts, request);
  }

  /** The version request is a GET that may be repeated: it is sent as often as the policy permits. */
  lemma VersionRequestIsRetried(maxAttempts: int, negotiates: bool, attempts: seq<Attempt>, value: Option<string>)
    requires IsVersionRun(maxAttempts, negotiates, attempts, value)
    requires forall i: nat :: i < |attempts| ==> attempts[i].round == Round(Failed, false, false)
    ensures |attempts| == (if maxAttempts > 0 then maxAttempts else 1) && value.None?
  {
    FailingNetworkExhausts(maxAttempts, negotiates, VERSION_REQUEST, "", attempts, None);
  }

  /** Its first readable answer with a version is the version found. */
  lemma VersionRequestFinds(maxAttempts: int, negotiates: bool, attempts: seq<Attempt>, value: Option<string>)
    requires IsVersionRun(maxAttempts, negotiates, attempts, value)
    requires attempts[0].round.answer.Response? && attempts[0].round.answer.status < 400
    ensures |attempts| == 1
    ensures value == if attempts[0].round.answer.accepted && attempts[0].round.answer.version != ""
                     then Some(attempts[0].round.answer.version) else None
  {
    FirstAnswerEnds(maxAttempts, negotiates, VERSION_REQUEST, "", attempts, None);
  }

  /** Any other method is sent once, or twice after a 405 from a negotiating call. */
  lemma OtherMethodsAreSentOnce(maxAttempts: int, negotiates: bool, request: Request, version: string,
                                attempts: seq<Attempt>, refresh: Option<Refresh>)
    requires IsRun(maxAttempts, negotiates, request, version, attempts, refresh)
    requires request.verb !in {"GET", "HEAD", "OPTIONS"}
    ensures |attempts| <= 2
    ensures |attempts| == 2 ==>
              && attempts[0].round.answer.Response? && attempts[0].round.answer.status == 405
              && negotiates && request.path != "/api/version" && request.repeatable
  {
    UnsafeMethodIsResentOnlyAfterMismatch(maxAttempts, negotiates, request, version, attempts, refresh);
  }

  /** What the last answer means to the caller. */
  ghost predicate EndsAsAnswered(negotiates: bool, request: Request, last: Answer, repaired: bool, outcome: Outcome)
    requires last.Response?
  {
    && (last.status >= 400 && !last.readable ==> outcome == Unreadable)
    && (last.status >= 400 && last.readable && last.status != 405 ==> outcome == APIError(last.status))
    && (last.status == 405 && last.readable ==>
          if !negotiates || request.path == "/api/version" || repaired then outcome == APIError(405)
          else outcome == if request.repeatable then RefreshFailed else NotRepeatable)
    && (last.status < 400 ==> outcome == if last.accepted then Delivered else Rejected)
  }

  /** A call that got an answer ends as that answer says, and a second 405 is not repaired again. */
  lemma AnswerDecides(maxAttempts: int, negotiates: bool, request: Request, version: string,
                      attempts: seq<Attempt>, refresh: Option<Refresh>)
    requires IsRun(maxAttempts, negotiates, request, version, attempts, refresh)
    requires attempts[|attempts| - 1].round.answer.Response?
    ensures EndsAsAnswered(negotiates, request, attempts[|attempts| - 1].round.answer,
                           refresh.Some? && refresh.value.at < |attempts| - 1,
                           EndOf(maxAttempts, negotiates, request, attempts, refresh))
  {
  }

  /** Any answer but a 405 ends the call at once. */
  lemma FirstAnswerEnds(maxAttempts: int, negotiates: bool, request: Request, version: string,
                        attempts: seq<Attempt>, refresh: Option<Refresh>)
    requires IsRun(maxAttempts, negotiates, request, version, attempts, refresh)
    requires attempts[0].round.answer.Response? && attempts[0].round.answer.status != 405
    ensures |attempts| == 1 && refresh.None?
  {
    AnswersEndTheCall(maxAttempts, negotiates, request, version, attempts, refresh, 0);
  }

  class Client {
    const negotiates: bool
    const maxAttempts: int
    var apiSemVer: string

    constructor (negotiates: bool, maxAttempts: int)
      ensures this.negotiates == negotiates && this.maxAttempts == maxAttempts && apiSemVer == ""
    {
      this.negotiates, this.maxAttempts, apiSemVer := negotiates, maxAttempts, "";
    }

    method FetchAPISemVer(network: Network) returns (value: Option<string>, attempts: seq<Attempt>)
      modifies this`apiSemVer
      ensures IsVersionRun(maxAttempts, negotiates, attempts, value) && HappensOn(attempts, network)
      ensures value.Some? ==> value.value != ""
      ensures apiSemVer == old(apiSemVer)
      decreases 0, 3
    {
      var outcome, version, negotiation, refresh;
      outcome, version, negotiation, attempts, refresh := Do(VERSION_REQUEST, network, network, network);
      VersionRequestIsPlain(maxAttempts, negotiates, version, attempts, refresh);
      value := Found(outcome, attempts);
    }

    /** A lone caller's view; concurrent first callers share one fetch. */
    method APISemVer(network: Network) returns (value: Option<string>, attempts: seq<Attempt>)
      modifies this`apiSemVer
      ensures old(apiSemVer) != "" ==> value == Some(old(apiSemVer)) && attempts == []
      ensures old(apiSemVer) == "" ==>
                IsVersionRun(maxAttempts, negotiates, attempts, value) && HappensOn(attempts, network)
      ensures value.Some? ==> value.value != ""
      ensures apiSemVer == if value.Some? then value.value else old(apiSemVer)
      decreases 0, 4
    {
      if apiSemVer != "" {
        return Some(apiSemVer), [];
      }
      value, attempts := FetchAPISemVer(network);
      if value.Some? {
        apiSemVer := value.value;
      }
    }

    method RefreshAPISemVer(network: Network) returns (value: Option<string>, attempts: seq<Attempt>)
      modifies this`apiSemVer
      ensures IsVersionRun(maxAttempts, negotiates, attempts, value) && HappensOn(attempts, network)
      ensures value.Some? ==> value.value != ""
      ensures apiSemVer == if value.Some? then value.value else old(apiSemVer)
      decreases 0, 4
    {
      value, attempts := FetchAPISemVer(network);
      if value.Some? {
        apiSemVer := value.value;
      }
    }

    /** The answer to the first version mismatch of a call: a failure, or a refresh that found a version. */
    method Renegotiate(request: Request, ghost version: string, attempts: seq<Attempt>, network: Network)
      returns (failure: Option<Outcome>, refresh: Option<Refresh>)
      requires attempts != [] && Continued(maxAttempts, negotiates, request, version, attempts, None)
      requires IsMismatch(negotiates, request, attempts[|attempts| - 1].round.answer)
      modifies this`apiSemVer
      ensures Continued(maxAttempts, negotiates, request, version, attempts, refresh)
      ensures failure.None? <==> Retried(maxAttempts, negotiates, request, attempts, refresh, |attempts| - 1)
      ensures failure.None? ==> refresh.Some? && refresh.value.value.Some?
      ensures CallsForRefresh(negotiates, request, attempts[|attempts| - 1].round.answer) ==> refresh.Some?
      ensures failure.Some? ==> failure.value == EndOf(maxAttempts, negotiates, request, attempts, refresh)
      ensures RefreshRan(maxAttempts, negotiates, refresh, network)
      ensures apiSemVer ==
              if refresh.Some? && refresh.value.value.Some? then refresh.value.value.value else old(apiSemVer)
      decreases 0, 5
    {
      if !attempts[|attempts| - 1].round.answer.readable {
        return Some(Unreadable), None;
      }
      if !request.repeatable {
        return Some(NotRepeatable), None;
      }
      var value, nested := RefreshAPISemVer(network);
      var r := Refresh(|attempts| - 1, nested, value);
      AddRefresh(maxAttempts, negotiates, request, version, attempts, r);
      return if value.None? then Some(RefreshFailed) else None, Some(r);
    }

    /** What follows a transport error: the end of the call, or another attempt. */
    method GiveUp(request: Request, attempts: seq<Attempt>, refresh: Option<Refresh>, limit: nat)
      returns (failure: Option<Outcome>)
      requires attempts != [] && attempts[|attempts| - 1].round.answer.Failed?
      requires limit == Limit(maxAttempts, request)
      ensures failure.None? <==> Retried(maxAttempts, negotiates, request, attempts, refresh, |attempts| - 1)
      ensures failure.None? ==> |attempts| < limit
      ensures failure.Some? ==> failure.value == EndOf(maxAttempts, negotiates, request, attempts, refresh)
    {
      var round := attempts[|attempts| - 1].round;
      if round.cancelled {
        return Some(Cancelled(|attempts|));
      }
      if |attempts| < limit {
        return if round.sleepCancelled then Some(Cancelled(|attempts|)) else None;
      }
      failure := Some(TransportError(|attempts|));
    }

    /** What the loop knows between two attempts. */
    ghost predicate Underway(request: Request, version: string, network: Network, refreshNetwork: Network,
                             attempts: seq<Attempt>, refresh: Option<Refresh>, header: string)
    {
      && Midway(maxAttempts, negotiates, request, version, attempts, refresh)
      && HappensOn(attempts, network)
      && RefreshRan(maxAttempts, negotiates, refresh, refreshNetwork)
      && (if refresh.Some? then refresh.value.value == Some(header) else header == version)
      && (refresh.None? ==> |attempts| < Limit(maxAttempts, request))
    }

    /** An answer that is no longer a version mismatch ends the call. */
    method Conclude(request: Request, attempts: seq<Attempt>, ghost refresh: Option<Refresh>) returns (outcome: Outcome)
      requires attempts != [] && attempts[|attempts| - 1].round.answer.Response?
      requires IsMismatch(negotiates, request, attempts[|attempts| - 1].round.answer) ==>
                 refresh.Some? && refresh.value.at < |attempts| - 1
      ensures outcome == EndOf(maxAttempts, negotiates, request, attempts, refresh)
    {
      var answer := attempts[|attempts| - 1].round.answer;
      if answer.status >= 400 {
        return if !answer.readable then Unreadable else APIError(answer.status);
      }
      outcome := if answer.accepted then Delivered else Rejected;
    }

    /** One iteration: sends, and either ends the call or prepares the next attempt. */
    method SendAndJudge(request: Request, ghost version: string, network: Network, refreshNetwork: Network, limit: nat,
                        before: seq<Attempt>, refresh0: Option<Refresh>, header0: string)
      returns (end: Option<Outcome>, attempts: seq<Attempt>, refresh: Option<Refresh>, header: string)
      requires limit == Limit(maxAttempts, request)
      requires Underway(request, version, network, refreshNetwork, before, refresh0, header0)
      modifies this`apiSemVer
      ensures |attempts| == |before| + 1 && HappensOn(attempts, network)
      ensures end.None? ==> Underway(request, version, network, refreshNetwork, attempts, refresh, header)
      ensures end.None? ==> (refresh == refresh0 && |attempts| < limit) || (refresh0.None? && refresh.Some?)
      ensures end.Some? ==> IsRun(maxAttempts, negotiates, request, version, attempts, refresh)
      ensures end.Some? ==> end.value == EndOf(maxAttempts, negotiates, request, attempts, refresh)
      ensures RefreshRan(maxAttempts, negotiates, refresh, refreshNetwork)
      ensures refresh0.Some? ==> refresh == refresh0
      ensures apiSemVer == if refresh != refresh0 && refresh.Some? && refresh.value.value.Some?
                           then refresh.value.value.value else old(apiSemVer)
      decreases if request.path == VERSION_PATH then 0 else 1, 0
    {
      var round := network(|before|);
      Extend(maxAttempts, negotiates, request, version, before, refresh0, Attempt(header0, round), network);
      attempts, refresh, header := before + [Attempt(header0, round)], refresh0, header0;
      if round.answer.Failed? {
        end := GiveUp(request, attempts, refresh, limit);
      } else if IsMismatch(negotiates, request, round.answer) && refresh.None? {
        end, refresh := Renegotiate(request, version, attempts, refreshNetwork);
        if end.None? {
          header := refresh.value.value.value;
        }
      } else {
        var outcome := Conclude(request, attempts, refresh);
        end := Some(outcome);
      }
    }

    /** What a whole run on `network` means for the caller. */
    lemma Told(request: Request, version: string, network: Network, attempts: seq<Attempt>, refresh: Option<Refresh>)
      requires IsRun(maxAttempts, negotiates, request, version, attempts, refresh) && HappensOn(attempts, network)
      ensures (forall i: nat :: network(i) == Round(Failed, false, false)) ==>
                && |attempts| == Permitted(maxAttempts, request)
                && EndOf(maxAttempts, negotiates, request, attempts, refresh) == TransportError(|attempts|)
      ensures request.verb !in {"GET", "HEAD", "OPTIONS"} ==> |attempts| <= 2
      ensures request.verb !in {"GET", "HEAD", "OPTIONS"} && |attempts| == 2 ==>
                network(0).answer.Response? && network(0).answer.status == 405
      ensures network(0).answer.Response? && network(0).answer.status != 405 ==>
                && |attempts| == 1
                && EndsAsAnswered(negotiates, request, network(0).answer, false,
                                  EndOf(maxAttempts, negotiates, request, attempts, refresh))
    {
      assert attempts[0].round == network(0);
      if forall i: nat :: network(i) == Round(Failed, false, false) {
        FailingNetworkExhausts(maxAttempts, negotiates, request, version, attempts, refresh);
      }
      if request.verb !in {"GET", "HEAD", "OPTIONS"} {
        OtherMethodsAreSentOnce(maxAttempts, negotiates, request, version, attempts, refresh);
      }
      if network(0).answer.Response? && network(0).answer.status != 405 {
        FirstAnswerEnds(maxAttempts, negotiates, request, version, attempts, refresh);
        AnswerDecides(maxAttempts, negotiates, request, version, attempts, refresh);
      }
    }

    method ExecutePrepared(request: Request, version: string, network: Network, refreshNetwork: Network)
      returns (outcome: Outcome, attempts: seq<Attempt>, refresh: Option<Refresh>)
      modifies this`apiSemVer
      ensures IsRun(maxAttempts, negotiates, request, version, attempts, refresh) && HappensOn(attempts, network)
      ensures outcome == EndOf(maxAttempts, negotiates, request, attempts, refresh)
      ensures RefreshRan(maxAttempts, negotiates, refresh, refreshNetwork)
      ensures apiSemVer ==
              if refresh.Some? && refresh.value.value.Some? then refresh.value.value.value else old(apiSemVer)
      ensures (forall i: nat :: network(i) == Round(Failed, false, false)) ==>
                && |attempts| == (if request.repeatable && maxAttempts > 0 && request.verb in {"GET", "HEAD", "OPTIONS"}
                                  then maxAttempts else 1)
                && outcome == TransportError(|attempts|)
      ensures request.verb !in {"GET", "HEAD", "OPTIONS"} ==> |attempts| <= 2
      ensures request.verb !in {"GET", "HEAD", "OPTIONS"} && |attempts| == 2 ==>
                network(0).answer.Response? && network(0).answer.status == 405
      ensures var a := network(0).answer;
              a.Response? && a.readable && a.status >= 400 && a.status != 405 ==>
                |attempts| == 1 && outcome == APIError(a.status)
      ensures var a := network(0).answer;
              a.Response? && a.accepted && a.status < 400 ==> |attempts| == 1 && outcome == Delivered
      decreases if request.path == VERSION_PATH then 0 else 1, 1
    {
      var limit := maxAttempts;
      if limit <= 0 {
        limit := 1;
      }
      if !request.repeatable || !IsSafeRetryMethod(request.verb) {
        limit := 1;
      }
      var header := version;
      attempts, refresh := [], None;
      while true
        invariant Underway(request, version, network, refreshNetwork, attempts, refresh, header)
        invariant apiSemVer == if refresh.Some? then header else old(apiSemVer)
        decreases if refresh.Some? then 0 else 1, limit - |attempts|
      {
        var end;
        end, attempts, refresh, header :=
          SendAndJudge(request, version, network, refreshNetwork, limit, attempts, refresh, header);
        if end.Some? {
          Told(request, version, network, attempts, refresh);
          return end.value, attempts, refresh;
        }
      }
    }

    method Do(request: Request, network: Network, negotiationNetwork: Network, refreshNetwork: Network)
      returns (outcome: Outcome, version: string, negotiation: seq<Attempt>,
               attempts: seq<Attempt>, refresh: Option<Refresh>)
      modifies this`apiSemVer
      ensures HappensOn(attempts, network)
      ensures attempts != [] ==> IsRun(maxAttempts, negotiates, request, version, attempts, refresh)
      ensures attempts != [] ==> outcome == EndOf(maxAttempts, negotiates, request, attempts, refresh)
      ensures attempts == [] <==> outcome.NegotiationFailed?
      ensures outcome.NegotiationFailed? ==>
                ShouldNegotiateVersion(negotiates, request) && old(apiSemVer) == "" && refresh.None?
      ensures RefreshRan(maxAttempts, negotiates, refresh, refreshNetwork)
      ensures negotiation != [] ==>
                && ShouldNegotiateVersion(negotiates, request) && old(apiSemVer) == ""
                && HappensOn(negotiation, negotiationNetwork)
                && IsVersionRun(maxAttempts, negotiates, negotiation, if attempts == [] then None else Some(version))
      ensures ShouldNegotiateVersion(negotiates, request) && attempts != [] ==> version != ""
      ensures !ShouldNegotiateVersion(negotiates, request) ==> version == "" && apiSemVer == old(apiSemVer)
      ensures attempts != [] && ShouldNegotiateVersion(negotiates, request) ==>
                apiSemVer == attempts[|attempts| - 1].version
      decreases if request.path == VERSION_PATH then 0 else 1, 2
    {
      version, negotiation := "", [];
      if ShouldNegotiateVersion(negotiates, request) {
        var value;
        value, negotiation := APISemVer(negotiationNetwork);
        if value.None? {
          return NegotiationFailed, "", negotiation, [], None;
        }
        version := value.value;
      }
      outcome, attempts, refresh := ExecutePrepared(request, version, network, refreshNetwork);
    }
  }
}

/**
 The cached API version and its single-flight refresh: concurrent first callers
 share one fetch, which is cancelled only when its last waiter has gone.
 */
module VersionFlight {
  import opened Wrappers

  type RefreshId = nat
  type CallId = nat

  /** The empty string means that no version is cached. */
  type Version = string

  datatype Refresh = Refresh(waiters: int, cancelled: bool, done: bool, result: Option<Version>)

  /** The fields guarded by versionMu. */
  datatype Cache = Cache(version: Version, inFlight: Option<RefreshId>, refreshes: map<RefreshId, Refresh>)

  datatype Joined = Cached(version: Version) | Waits(refresh: RefreshId, starts: bool)

  /** The lock section of APISemVer; `newId` names the refresh it would create. */
  function Join(c: Cache, newId: RefreshId): (Cache, Joined) {
    if c.version != "" then (c, Cached(c.version))
    else if c.inFlight.Some? && c.inFlight.value in c.refreshes then
      var id := c.inFlight.value;
      var r := c.refreshes[id];
      (c.(refreshes := c.refreshes[id := r.(waiters := r.waiters + 1)]), Waits(id, false))
    else
      (c.(inFlight := Some(newId), refreshes := c.refreshes[newId := Refresh(1, false, false, None)]),
       Waits(newId, true))
  }

  /** The lock section of runVersionRefresh, and the cancel that follows it. */
  function Complete(c: Cache, id: RefreshId, result: Option<Version>): Cache
    requires id in c.refreshes
  {
    var r := c.refreshes[id].(done := true, cancelled := true, result := result);
    var installed := c.inFlight == Some(id);
    Cache(if installed && result.Some? then result.value else c.version,
          if installed then None else c.inFlight,
          c.refreshes[id := r])
  }

  /** The lock section of releaseVersionWaiter. */
  function Release(c: Cache, id: RefreshId): Cache
    requires id in c.refreshes
  {
    if c.inFlight != Some(id) then c
    else
      var r := c.refreshes[id].(waiters := c.refreshes[id].waiters - 1);
      if r.waiters == 0
      then Cache(c.version, None, c.refreshes[id := r.(cancelled := true)])
      else c.(refreshes := c.refreshes[id := r])
  }

  class VersionCache {
    var version: Version
    var inFlight: Option<RefreshId>
    var refreshes: map<RefreshId, Refresh>

    ghost function View(): Cache reads this { Cache(version, inFlight, refreshes) }

    ghost predicate Valid() reads this { inFlight.Some? ==> inFlight.value in refreshes }

    constructor ()
      ensures Valid() && View() == Cache("", None, map[])
    {
      version, inFlight, refreshes := "", None, map[];
    }

    method JoinRefresh(newId: RefreshId) returns (joined: Joined)
      requires Valid() && newId !in refreshes
      modifies this
      ensures Valid() && (View(), joined) == Join(old(View()), newId)
      ensures old(version) != "" ==> joined == Cached(old(version))
      ensures joined.Waits? ==> inFlight == Some(joined.refresh) && (joined.starts <==> joined.refresh == newId)
    {
      if version != "" { return Cached(version); }
      if inFlight.Some? {
        var id := inFlight.value;
        var r := refreshes[id];
        refreshes := refreshes[id := r.(waiters := r.waiters + 1)];
        return Waits(id, false);
      }
      inFlight := Some(newId);
      refreshes := refreshes[newId := Refresh(1, false, false, None)];
      joined := Waits(newId, true);
    }

    method CompleteRefresh(id: RefreshId, result: Option<Version>)
      requires Valid() && id in refreshes
      modifies this
      ensures Valid() && View() == Complete(old(View()), id, result)
    {
      if inFlight == Some(id) {
        if result.Some? { version := result.value; }
        inFlight := None;
      }
      refreshes := refreshes[id := refreshes[id].(done := true, cancelled := true, result := result)];
    }

    method ReleaseWaiter(id: RefreshId)
      requires Valid() && id in refreshes
      modifies this
      ensures Valid() && View() == Release(old(View()), id)
    {
      if inFlight != Some(id) { return; }
      refreshes := refreshes[id := refreshes[id].(waiters := refreshes[id].waiters - 1)];
      if refreshes[id].waiters == 0 {
        inFlight := None;
        refreshes := refreshes[id := refreshes[id].(cancelled := true)];
      }
    }
  }

  // The step system.

  datatype Caller = Waiting(refresh: RefreshId) | Releasing(refresh: RefreshId)

  /**
   `calls` are the unfinished APISemVer calls, `fetching` the refreshes whose
   fetch has not returned, and `answers` what calls have returned; `None` is an
   error.
   */
  datatype State = State(
    cache: Cache,
    calls: map<CallId, Caller>,
    fetching: set<RefreshId>,
    answers: set<Option<Version>>)

  datatype Step =
    | Call(id: CallId, newId: RefreshId)          // APISemVer up to its unlock
    | Finish(refresh: RefreshId, result: Option<Version>)   // runVersionRefresh, its fetch returned
    | Return(id: CallId)                          // the caller sees the refresh done
    | GiveUp(id: CallId)                          // the caller's context ends first
    | ReleaseWaiter(id: CallId)
    | Replace(version: Version)                   // RefreshAPISemVer

  function Init(): State { State(Cache("", None, map[]), map[], {}, {}) }

  /** A successful fetch never yields an empty version. */
  predicate Enabled(s: State, a: Step) {
    match a
    case Call(id, newId) => id !in s.calls && newId !in s.cache.refreshes
    case Finish(r, result) => r in s.fetching && r in s.cache.refreshes && (result.Some? ==> result.value != "")
    case Return(id) =>
      && id in s.calls && s.calls[id].Waiting?
      && s.calls[id].refresh in s.cache.refreshes && s.cache.refreshes[s.calls[id].refresh].done
    case GiveUp(id) => id in s.calls && s.calls[id].Waiting?
    case ReleaseWaiter(id) => id in s.calls && s.calls[id].Releasing? && s.calls[id].refresh in s.cache.refreshes
    case Replace(v) => v != ""
  }

  function After(s: State, a: Step): State
    requires Enabled(s, a)
  {
    match a
    case Call(id, newId) =>
      var (cache, joined) := Join(s.cache, newId);
      (match joined
       case Cached(v) => s.(answers := s.answers + {Some(v)})
       case Waits(r, starts) =>
         s.(cache := cache, calls := s.calls[id := Waiting(r)],
            fetching := if starts then s.fetching + {r} else s.fetching))
    case Finish(r, result) => s.(cache := Complete(s.cache, r, result), fetching := s.fetching - {r})
    case Return(id) =>
      s.(calls := s.calls - {id}, answers := s.answers + {s.cache.refreshes[s.calls[id].refresh].result})
    case GiveUp(id) => s.(calls := s.calls[id := Releasing(s.calls[id].refresh)])
    case ReleaseWaiter(id) =>
      s.(cache := Release(s.cache, s.calls[id].refresh), calls := s.calls - {id}, answers := s.answers + {None})
    case Replace(v) => s.(cache := s.cache.(version := v))
  }

  ghost predicate IsRun(s: State, steps: seq<Step>)
    decreases |steps|
  {
    steps == [] || (Enabled(s, steps[0]) && IsRun(After(s, steps[0]), steps[1..]))
  }

  function Run(s: State, steps: seq<Step>): State
    requires IsRun(s, steps)
    decreases |steps|
  {
    if steps == [] then s else Run(After(s, steps[0]), steps[1..])
  }

  /** The calls that have joined a refresh and not yet left it. */
  function Waiters(calls: map<CallId, Caller>, r: RefreshId): set<CallId> {
    set id | id in calls && calls[id].refresh == r
  }

  /** The installed refresh: counted exactly, live, and not cancelled under a waiter. */
  ghost predicate FlightInv(cache: Cache, calls: map<CallId, Caller>) {
    cache.inFlight.Some? ==>
      var id := cache.inFlight.value;
      && id in cache.refreshes
      && cache.refreshes[id].waiters == |Waiters(calls, id)| >= 1
      && !cache.refreshes[id].done && !cache.refreshes[id].cancelled
  }

  ghost predicate CallsInv(cache: Cache, calls: map<CallId, Caller>) {
    forall id :: id in calls ==> calls[id].refresh in cache.refreshes
  }

  /** A refresh with a waiting caller that is not done is the installed one. */
  ghost predicate LiveInv(cache: Cache, calls: map<CallId, Caller>) {
    forall id :: id in calls && calls[id].refresh in cache.refreshes && !cache.refreshes[calls[id].refresh].done ==>
      cache.inFlight == Some(calls[id].refresh)
  }

  /** A refresh that is no longer installed has been told to stop, and an installed one has not. */
  ghost predicate NoLeakInv(cache: Cache) {
    forall r :: r in cache.refreshes ==> (cache.refreshes[r].cancelled <==> cache.inFlight != Some(r))
  }

  /** A refresh is fetched until it is done. */
  ghost predicate FetchInv(cache: Cache, fetching: set<RefreshId>) {
    && fetching <= cache.refreshes.Keys
    && forall r :: r in cache.refreshes ==> (r in fetching <==> !cache.refreshes[r].done)
  }

  ghost predicate Inv(s: State) {
    && FlightInv(s.cache, s.calls) && CallsInv(s.cache, s.calls) && LiveInv(s.cache, s.calls)
    && NoLeakInv(s.cache) && FetchInv(s.cache, s.fetching)
  }

  lemma WaiterJoins(calls: map<CallId, Caller>, id: CallId, r: RefreshId)
    requires id !in calls
    ensures |Waiters(calls[id := Waiting(r)], r)| == |Waiters(calls, r)| + 1
  {
    assert Waiters(calls[id := Waiting(r)], r) == Waiters(calls, r) + {id};
  }

  lemma WaiterLeaves(calls: map<CallId, Caller>, id: CallId, r: RefreshId)
    requires id in calls
    ensures |Waiters(calls - {id}, r)| == |Waiters(calls, r)| - (if calls[id].refresh == r then 1 else 0)
  {
    if calls[id].refresh == r {
      assert Waiters(calls, r) == Waiters(calls - {id}, r) + {id};
    } else {
      assert Waiters(calls, r) == Waiters(calls - {id}, r);
    }
  }

  lemma CallKeepsInv(s: State, id: CallId, newId: RefreshId)
    requires Inv(s) && Enabled(s, Call(id, newId))
    ensures Inv(After(s, Call(id, newId)))
  {
    var joined := Join(s.cache, newId).1;
    if joined.Waits? {
      WaiterJoins(s.calls, id, joined.refresh);
      if joined.starts { assert Waiters(s.calls, newId) == {}; }
    }
  }

  lemma FinishKeepsInv(s: State, r: RefreshId, result: Option<Version>)
    requires Inv(s) && Enabled(s, Finish(r, result))
    ensures Inv(After(s, Finish(r, result)))
  {
  }

  lemma LeaveKeepsInv(s: State, id: CallId, a: Step)
    requires Inv(s) && Enabled(s, a) && (a == Return(id) || a == GiveUp(id))
    ensures Inv(After(s, a))
  {
    var r := s.calls[id].refresh;
    if a.GiveUp? {
      forall q ensures Waiters(After(s, a).calls, q) == Waiters(s.calls, q) {}
    } else if s.cache.inFlight.Some? {
      WaiterLeaves(s.calls, id, s.cache.inFlight.value);
    }
  }

  lemma ReleaseKeepsInv(s: State, id: CallId)
    requires Inv(s) && Enabled(s, ReleaseWaiter(id))
    ensures Inv(After(s, ReleaseWaiter(id)))
  {
    if s.cache.inFlight.Some? {
      var r := s.cache.inFlight.value;
      WaiterLeaves(s.calls, id, r);
      if s.calls[id].refresh == r && |Waiters(s.calls - {id}, r)| == 0 {
        forall j | j in s.calls - {id} ensures s.calls[j].refresh != r {
          assert s.calls[j].refresh == r <==> j in Waiters(s.calls - {id}, r);
        }
      }
    }
  }

  lemma StepKeepsInv(s: State, a: Step)
    requires Inv(s) && Enabled(s, a)
    ensures Inv(After(s, a))
  {
    match a
    case Call(id, newId) => CallKeepsInv(s, id, newId);
    case Finish(r, result) => FinishKeepsInv(s, r, result);
    case Return(id) => LeaveKeepsInv(s, id, a);
    case GiveUp(id) => LeaveKeepsInv(s, id, a);
    case ReleaseWaiter(id) => ReleaseKeepsInv(s, id);
    case Replace(_) =>
  }

  lemma {:induction false} RunKeepsInv(s: State, steps: seq<Step>)
    requires Inv(s) && IsRun(s, steps)
    ensures Inv(Run(s, steps))
    decreases |steps|
  {
    if steps != [] {
      StepKeepsInv(s, steps[0]);
      RunKeepsInv(After(s, steps[0]), steps[1..]);
    }
  }

  /**
   In every run: an installed refresh counts exactly the callers that joined and
   have not left, there is at least one, and it is neither finished nor
   cancelled; and no caller waits on an unfinished refresh that was cancelled.
   */
  lemma NeverCancelledUnderAWaiter(steps: seq<Step>)
    requires IsRun(Init(), steps)
    ensures var s := Run(Init(), steps);
            && FlightInv(s.cache, s.calls)
            && (forall id :: id in s.calls ==>
                  var r := s.calls[id].refresh;
                  r in s.cache.refreshes && (s.cache.refreshes[r].cancelled ==> s.cache.refreshes[r].done))
  {
    RunKeepsInv(Init(), steps);
  }

  /** No fetch leaks: in every run the refreshes told to stop are exactly those that are not installed. */
  lemma CancelledUnlessInstalled(steps: seq<Step>, r: RefreshId)
    requires IsRun(Init(), steps) && r in Run(Init(), steps).cache.refreshes
    ensures var c := Run(Init(), steps).cache; c.refreshes[r].cancelled <==> c.inFlight != Some(r)
  {
    RunKeepsInv(Init(), steps);
  }

  /** A refresh that no caller waits for any more never writes the cache. */
  lemma AbandonedNeverWrites(steps: seq<Step>, r: RefreshId, result: Option<Version>)
    requires IsRun(Init(), steps) && Enabled(Run(Init(), steps), Finish(r, result))
    requires forall id :: id in Run(Init(), steps).calls ==> Run(Init(), steps).calls[id].refresh != r
    ensures After(Run(Init(), steps), Finish(r, result)).cache.version == Run(Init(), steps).cache.version
  {
    RunKeepsInv(Init(), steps);
    assert Waiters(Run(Init(), steps).calls, r) == {};
  }

  /** Once a version is cached, it stays non-empty and no call starts a fetch. */
  lemma {:induction false} CachedVersionStays(s: State, steps: seq<Step>)
    requires s.cache.version != "" && IsRun(s, steps)
    ensures Run(s, steps).cache.version != "" && Run(s, steps).fetching <= s.fetching
    ensures Run(s, steps).cache.refreshes.Keys == s.cache.refreshes.Keys
    decreases |steps|
  {
    if steps != [] { CachedVersionStays(After(s, steps[0]), steps[1..]); }
  }

  /** `v` was fetched in the run, by a shared refresh or by RefreshAPISemVer. */
  ghost predicate Fetched(steps: seq<Step>, v: Version) {
    v != "" && (Replace(v) in steps || exists r :: Finish(r, Some(v)) in steps)
  }

  /** Every version in the cache, in a refresh and in an answer was fetched. */
  ghost predicate Sourced(s: State, steps: seq<Step>) {
    && (s.cache.version != "" ==> Fetched(steps, s.cache.version))
    && (forall v :: Some(v) in s.answers ==> Fetched(steps, v))
    && (forall r :: r in s.cache.refreshes ==>
          if s.cache.refreshes[r].done then Finish(r, s.cache.refreshes[r].result) in steps
          else s.cache.refreshes[r].result.None?)
  }

  lemma FetchedLater(steps: seq<Step>, a: Step, v: Version)
    requires Fetched(steps, v)
    ensures Fetched(steps + [a], v)
  {
    if Replace(v) !in steps {
      var r :| Finish(r, Some(v)) in steps;
      assert Finish(r, Some(v)) in steps + [a];
    }
  }

  lemma StepKeepsSourced(s: State, before: seq<Step>, a: Step)
    requires Inv(s) && Sourced(s, before) && Enabled(s, a)
    requires forall r, x :: Finish(r, Some(x)) in before ==> x != ""
    ensures Sourced(After(s, a), before + [a])
  {
    forall v | Fetched(before, v) ensures Fetched(before + [a], v) { FetchedLater(before, a, v); }
    assert (before + [a])[|before|] == a;
    if a.Return? && s.cache.refreshes[s.calls[a.id].refresh].result.Some? {
      var r := s.calls[a.id].refresh;
      assert Finish(r, s.cache.refreshes[r].result) in before;
      assert Fetched(before, s.cache.refreshes[r].result.value);
    }
  }

  lemma {:induction false} RunKeepsSourced(s: State, before: seq<Step>, steps: seq<Step>)
    requires Inv(s) && Sourced(s, before) && IsRun(s, steps)
    requires forall r, x :: Finish(r, Some(x)) in before ==> x != ""
    ensures Sourced(Run(s, steps), before + steps)
    decreases |steps|
  {
    if steps == [] {
      assert before + steps == before;
    } else {
      StepKeepsSourced(s, before, steps[0]);
      StepKeepsInv(s, steps[0]);
      RunKeepsSourced(After(s, steps[0]), before + [steps[0]], steps[1..]);
      assert before + [steps[0]] + steps[1..] == before + steps;
    }
  }

  /**
   In every run the cached version and every version that a call returned were
   fetched in it, and a finished refresh holds what its own fetch returned.
   */
  lemma AnswersAreFetched(steps: seq<Step>)
    requires IsRun(Init(), steps)
    ensures var s := Run(Init(), steps);
            && (s.cache.version != "" ==> Fetched(steps, s.cache.version))
            && (forall v :: Some(v) in s.answers ==> Fetched(steps, v))
            && (forall r :: r in s.cache.refreshes && s.cache.refreshes[r].done ==>
                  Finish(r, s.cache.refreshes[r].result) in steps)
  {
    RunKeepsSourced(Init(), [], steps);
    assert [] + steps == steps;
  }

  /**
   Nobody is stuck: in every run a waiting call can give up, and can return as
   soon as its refresh is done; until then its fetch is running and can finish.
   */
  lemma EveryCallCanLeave(steps: seq<Step>, id: CallId)
    requires IsRun(Init(), steps) && id in Run(Init(), steps).calls
    ensures var s := Run(Init(), steps);
            match s.calls[id]
            case Waiting(r) =>
              && Enabled(s, GiveUp(id))
              && (Enabled(s, Return(id)) || (r in s.fetching && forall v :: v != "" ==> Enabled(s, Finish(r, Some(v)))))
            case Releasing(r) => Enabled(s, ReleaseWaiter(id))
  {
    RunKeepsInv(Init(), steps);
  }

  /** A call without a cached version waits for the installed refresh, which it starts if there is none. */
  lemma CallJoinsFlight(steps: seq<Step>, id: CallId, newId: RefreshId)
    requires IsRun(Init(), steps) && Enabled(Run(Init(), steps), Call(id, newId))
    requires Run(Init(), steps).cache.version == ""
    ensures var s, s' := Run(Init(), steps), After(Run(Init(), steps), Call(id, newId));
            && s'.cache.inFlight.Some? && s'.calls == s.calls[id := Waiting(s'.cache.inFlight.value)]
            && s'.cache.inFlight == (if s.cache.inFlight.Some? then s.cache.inFlight else Some(newId))
            && s'.fetching == s.fetching + {s'.cache.inFlight.value}
  {
    RunKeepsInv(Init(), steps);
  }

  /** A call ends with an answer: the cached version, what its refresh holds, or an error if it gave up. */
  lemma CallsEndWithAnswers(s: State, a: Step)
    requires Enabled(s, a)
    ensures a.Call? && s.cache.version != "" ==>
              After(s, a).calls == s.calls && After(s, a).answers == s.answers + {Some(s.cache.version)}
    ensures a.Return? ==>
              && a.id !in After(s, a).calls
              && After(s, a).answers == s.answers + {s.cache.refreshes[s.calls[a.id].refresh].result}
    ensures a.ReleaseWaiter? ==> a.id !in After(s, a).calls && After(s, a).answers == s.answers + {None}
    ensures a.GiveUp? ==> After(s, a).calls == s.calls[a.id := Releasing(s.calls[a.id].refresh)]
    ensures a.Finish? || a.Replace? || a.GiveUp? ==> After(s, a).answers == s.answers
  {
  }
}

/**
 * Runs of the handlers under an arbitrary sequential schedule, with the
 * one-minute reset task as an explicit event, and the properties the rate
 * limiter promises across calls: the quota bound, at most one scheduled reset
 * per user, and the request that finds the quota used up being refused.
 */
module Schedules {
  import opened UserModels
  import opened Stats
  import opened RateLimiter
  import opened Handlers

  /** One thing that can happen next: a request to one of the handlers, or a reset task firing. */
  datatype Event =
    | Request(name: string, attempt: Attempt)
    | ResetFires(name: string)
    | UserStatsQuery(name: string)
    | AllStatsQuery

  /** The state together with the users whose reset task is still waiting. */
  datatype World = World(state: ApiState, pending: set<string>)

  /** Only a scheduled task can fire; an event naming no scheduled task changes nothing. */
  ghost function Step(w: World, limit: int, e: Event): World {
    match e
    case Request(name, attempt) =>
      var x := GetAddress(w.state, name, limit, attempt);
      World(x.state, if x.armed then w.pending + {name} else w.pending)
    case ResetFires(name) =>
      if name in w.pending && name in w.state.userCounters then
        World(w.state.(userCounters := Reset(w.state.userCounters, name)), w.pending - {name})
      else w
    case UserStatsQuery(name) => World(ShowUserStats(w.state, name).state, w.pending)
    case AllStatsQuery => World(ShowAllStats(w.state).state, w.pending)
  }

  /** The world after the events, in order, from the initial state with a fixed limit. */
  ghost function Run(limit: int, events: seq<Event>): World
    decreases |events|
  {
    if events == [] then World(InitialState, {})
    else Step(Run(limit, events[..|events| - 1]), limit, events[|events| - 1])
  }

  /** A reset task is waiting for a user exactly when the user's counter says one is scheduled. */
  ghost predicate Consistent(w: World) {
    PendingMatches(w.pending, w.state.userCounters)
  }

  /**
   * Every step keeps the pending set in step with the counters and, for a
   * limit of at least one, every counter within the limit; a request never
   * starts a second task for a user whose task is still waiting.
   */
  lemma StepKeepsInvariants(w: World, limit: int, e: Event)
    requires Consistent(w)
    ensures Consistent(Step(w, limit, e))
    ensures e.Request? && GetAddress(w.state, e.name, limit, e.attempt).armed ==> e.name !in w.pending
    ensures limit >= 1 && WithinQuota(w.state.userCounters, limit) ==>
      WithinQuota(Step(w, limit, e).state.userCounters, limit)
  {
    var next := Step(w, limit, e);
    match e
    case Request(name, attempt) =>
      var x := GetAddress(w.state, name, limit, attempt);
      forall n ensures n in next.pending <==> ResetScheduled(next.state.userCounters, n) {
        if n != name {
          assert n in next.state.userCounters <==> n in w.state.userCounters;
        }
      }
    case ResetFires(name) =>
      if name in w.pending && name in w.state.userCounters {
        forall n ensures n in next.pending <==> ResetScheduled(next.state.userCounters, n) {
          if n != name {
            assert n in next.state.userCounters <==> n in w.state.userCounters;
          }
        }
      }
    case UserStatsQuery(name) =>
    case AllStatsQuery =>
  }

  /**
   * The safety invariant over every schedule: a reset is pending exactly for
   * the users whose counter says so (so at most one per user), and with a
   * fixed limit of at least one no counter ever exceeds it.
   */
  lemma {:induction false} RunInvariants(limit: int, events: seq<Event>)
    ensures Consistent(Run(limit, events))
    ensures limit >= 1 ==> WithinQuota(Run(limit, events).state.userCounters, limit)
    decreases |events|
  {
    if events != [] {
      RunInvariants(limit, events[..|events| - 1]);
      StepKeepsInvariants(Run(limit, events[..|events| - 1]), limit, events[|events| - 1]);
    }
  }

  /** The same attempt k times in a row. */
  function Repeated(attempt: Attempt, k: nat): (r: seq<Attempt>)
    ensures |r| == k && forall i :: 0 <= i < k ==> r[i] == attempt
  {
    if k == 0 then [] else Repeated(attempt, k - 1) + [attempt]
  }

  datatype Trace = Trace(replies: seq<Reply>, state: ApiState)

  /** One user's requests, in order, with no reset firing in between. */
  function Replay(s: ApiState, name: string, limit: int, attempts: seq<Attempt>): (r: Trace)
    ensures |r.replies| == |attempts|
    decreases |attempts|
  {
    if attempts == [] then Trace([], s)
    else
      var before := Replay(s, name, limit, attempts[..|attempts| - 1]);
      var x := GetAddress(before.state, name, limit, attempts[|attempts| - 1]);
      Trace(before.replies + [x.reply], x.state)
  }

  /** One complete fetch that the limiter admits. */
  lemma AdmittedFetch(s: ApiState, name: string, limit: int, elapsed: Seconds)
    requires !Throttles(s.userCounters, name, limit)
    ensures var x := GetAddress(s, name, limit, Ok(elapsed));
      var before, after := Entry(s.userStats, name), Entry(x.state.userStats, name);
      x.reply == ElapsedTime(elapsed) &&
      name in x.state.userCounters &&
      Consumed(x.state.userCounters, name) == Consumed(s.userCounters, name) + 1 &&
      after == before.(successfulRequests := before.successfulRequests + 1,
                       successfulTimeElapsed := before.successfulTimeElapsed + elapsed)
  {
  }

  /** One request that the limiter refuses. */
  lemma RefusedRequest(s: ApiState, name: string, limit: int, attempt: Attempt)
    requires !attempt.ParseError? && Throttles(s.userCounters, name, limit)
    ensures var x := GetAddress(s, name, limit, attempt);
      var before, after := Entry(s.userStats, name), Entry(x.state.userStats, name);
      x.reply == StatusForbidden &&
      x.state.userCounters == s.userCounters &&
      after == before.(throttledRequests := before.throttledRequests + 1)
  {
  }

  /** Replaying one more attempt is replaying the others and then answering it. */
  lemma ReplayLast(s: ApiState, name: string, limit: int, attempt: Attempt, k: nat)
    ensures var prior := Replay(s, name, limit, Repeated(attempt, k));
      var x := GetAddress(prior.state, name, limit, attempt);
      Replay(s, name, limit, Repeated(attempt, k + 1)) == Trace(prior.replies + [x.reply], x.state)
  {
    assert Repeated(attempt, k + 1)[..k] == Repeated(attempt, k);
  }

  /** k times the same elapsed time, added up one request at a time. */
  function Times(k: nat, elapsed: Seconds): Seconds {
    if k == 0 then 0.0 else Times(k - 1, elapsed) + elapsed
  }

  /**
   * Within one window, k complete fetches that stay within the limit are all
   * answered with their elapsed time; the counter and the successful count
   * both go up by k, and nothing is counted as failed or throttled.
   */
  lemma {:induction false} QuotaWindow(s: ApiState, name: string, limit: int, elapsed: Seconds, k: nat)
    requires Consumed(s.userCounters, name) + k <= limit
    ensures forall i :: 0 <= i < k ==> Replay(s, name, limit, Repeated(Ok(elapsed), k)).replies[i] == ElapsedTime(elapsed)
    ensures Consumed(Replay(s, name, limit, Repeated(Ok(elapsed), k)).state.userCounters, name) == Consumed(s.userCounters, name) + k
    ensures k > 0 ==> name in Replay(s, name, limit, Repeated(Ok(elapsed), k)).state.userCounters
    ensures var before, after := Entry(s.userStats, name), Entry(Replay(s, name, limit, Repeated(Ok(elapsed), k)).state.userStats, name);
      after == before.(successfulRequests := before.successfulRequests + k,
                       successfulTimeElapsed := before.successfulTimeElapsed + Times(k, elapsed))
    decreases k
  {
    if k > 0 {
      QuotaWindow(s, name, limit, elapsed, k - 1);
      ReplayLast(s, name, limit, Ok(elapsed), k - 1);
      var prior := Replay(s, name, limit, Repeated(Ok(elapsed), k - 1));
      AdmittedFetch(prior.state, name, limit, elapsed);
      var before := Entry(s.userStats, name);
      var middle := Entry(prior.state.userStats, name);
      var after := Entry(GetAddress(prior.state, name, limit, Ok(elapsed)).state.userStats, name);
      assert after.successfulRequests == before.successfulRequests + k;
      assert after.successfulTimeElapsed == before.successfulTimeElapsed + Times(k, elapsed);
    }
  }

  /**
   * When k more complete fetches use up the quota, the one after them is
   * refused with 403: it adds one throttled request and no successful one.
   */
  lemma LimitPlusOneIsThrottled(s: ApiState, name: string, limit: int, elapsed: Seconds, k: nat)
    requires limit >= 1 && Consumed(s.userCounters, name) + k == limit
    ensures Replay(s, name, limit, Repeated(Ok(elapsed), k + 1)).replies[k] == StatusForbidden
    ensures var replies := Replay(s, name, limit, Repeated(Ok(elapsed), k + 1)).replies;
      forall i :: 0 <= i < k ==> replies[i] == ElapsedTime(elapsed)
    ensures var before, after := Entry(s.userStats, name), Entry(Replay(s, name, limit, Repeated(Ok(elapsed), k + 1)).state.userStats, name);
      after == before.(successfulRequests := before.successfulRequests + k,
                       successfulTimeElapsed := before.successfulTimeElapsed + Times(k, elapsed),
                       throttledRequests := before.throttledRequests + 1)
  {
    QuotaWindow(s, name, limit, elapsed, k);
    ReplayLast(s, name, limit, Ok(elapsed), k);
    var prior := Replay(s, name, limit, Repeated(Ok(elapsed), k));
    assert Throttles(prior.state.userCounters, name, limit);
    RefusedRequest(prior.state, name, limit, Ok(elapsed));
    var after := Entry(GetAddress(prior.state, name, limit, Ok(elapsed)).state.userStats, name);
    assert after.throttledRequests == Entry(s.userStats, name).throttledRequests + 1;
  }

  /** After the reset task fires, the user's next request is admitted again and schedules a new reset. */
  lemma ResetReopensWindow(s: ApiState, name: string, limit: int, attempt: Attempt)
    requires name in s.userCounters && limit >= 1 && !attempt.ParseError?
    ensures var x := GetAddress(s.(userCounters := Reset(s.userCounters, name)), name, limit, attempt);
      x.reply != StatusForbidden && x.armed &&
      Consumed(x.state.userCounters, name) == (if attempt.Ok? then 1 else 0)
  {
  }

  /**
   * With a limit of 2, three complete fetches by a new user, each taking
   * `elapsed` seconds: two answers with the elapsed time, then 403; the user
   * then has 2 successful, 0 failed and 1 throttled request, and 2 requests
   * in total.
   */
  lemma ThreeFetchesWithLimitTwo(name: string, elapsed: Seconds)
    ensures var t := Replay(InitialState, name, 2, Repeated(Ok(elapsed), 3));
      var user := Entry(t.state.userStats, name);
      t.replies == [ElapsedTime(elapsed), ElapsedTime(elapsed), StatusForbidden] &&
      user == UserModel(2, 0, elapsed + elapsed, 0.0, 1) && TotalRequests(user) == 2
  {
    var t := Replay(InitialState, name, 2, Repeated(Ok(elapsed), 3));
    LimitPlusOneIsThrottled(InitialState, name, 2, elapsed, 2);
    assert |t.replies| == 3;
    assert Times(1, elapsed) == elapsed;
    assert Times(2, elapsed) == elapsed + elapsed;
  }

  /**
   * Two fetches by one user that overlap in time, which the atomic steps of
   * Step never produce: both pass the limiter while the counter is one below
   * the limit, and once both complete the counter is one above it.
   */
  lemma OverlappingFetchesOvershoot(name: string, limit: int)
    requires limit >= 1
    ensures var before := map[name := UpdatingCounter(limit - 1, false)];
      var first := Admit(before, name, limit);
      var second := Admit(first.counters, name, limit);
      var after := Consume(Consume(second.counters, name), name);
      WithinQuota(before, limit) && !first.exceeded && !second.exceeded &&
      Consumed(after, name) == limit + 1 && !WithinQuota(after, limit)
  {
  }

  /**
   * An address that does not parse: 404 and one failed request with no
   * elapsed time, counted on the fetch endpoint's failed metric; the limiter
   * is not consulted, so no counter is created or changed and no reset is armed.
   */
  lemma UnparsableAddress(s: ApiState, name: string, limit: int)
    ensures var x := GetAddress(s, name, limit, ParseError);
      var before := Entry(s.userStats, name);
      x.reply == StatusNotFound &&
      Entry(x.state.userStats, name) == before.(failedRequests := before.failedRequests + 1) &&
      x.state.failedCounter == Inc(s.failedCounter, AddressEndpoint) &&
      x.state.userCounters == s.userCounters && !x.armed
  {
  }
}

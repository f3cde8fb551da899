/**
 * The request handlers of api/api.go as transitions of the whole in-memory
 * state: the statistics map, the counter map and the two labelled metric
 * families. Network, clock and encoding results reach GetAddress as an
 * Attempt value; the class in module Api performs these transitions in place.
 */
module Handlers {
  import opened Wrappers
  import opened UserModels
  import opened Stats
  import opened RateLimiter

  /**
   * What parsing the address and fetching it would give: a parse error, a
   * failed http.Get, a failed body read, a failed json.Marshal of the
   * elapsed time, or a complete fetch. Only ParseError is looked at before
   * the rate limiter is consulted.
   */
  datatype Attempt =
    | ParseError
    | FetchError(elapsed: Seconds)
    | ReadError(elapsed: Seconds)
    | MarshalError
    | Ok(elapsed: Seconds)

  /** What GetAddress answers: the JSON elapsed time (200), or 403, 404 or 500. */
  datatype Reply = ElapsedTime(seconds: Seconds) | StatusForbidden | StatusNotFound | StatusInternalServerError

  datatype ApiState = ApiState(
    userStats: StatsMap,
    userCounters: CounterMap,
    successCounter: Metric,
    failedCounter: Metric)

  /** Both maps start empty (main.go:18-20); no metric has been incremented. */
  const InitialState: ApiState := ApiState(map[], map[], map[], map[])

  const AddressEndpoint: string := "/user/:name/url/*address"
  const UserStatsEndpoint: string := "/user/stats"
  const AllStatsEndpoint: string := "/stats"

  /**
   * updateStats (api/api.go:238-255): the user's record moves by one family,
   * and a failed or successful outcome bumps its metric for the endpoint; a
   * throttled one bumps no metric.
   */
  function UpdateStats(s: ApiState, status: int, elapsed: Seconds, name: string, endpoint: string): (r: ApiState)
    ensures r.userStats == Record(s.userStats, status, elapsed, name)
    ensures r.userCounters == s.userCounters
    ensures r.successCounter == if status == RequestStatusSuccessful then Inc(s.successCounter, endpoint) else s.successCounter
    ensures r.failedCounter == if status == RequestStatusFailed then Inc(s.failedCounter, endpoint) else s.failedCounter
  {
    var stats := Record(s.userStats, status, elapsed, name);
    if status == RequestStatusFailed then
      s.(userStats := stats, failedCounter := Inc(s.failedCounter, endpoint))
    else if status == RequestStatusSuccessful then
      s.(userStats := stats, successCounter := Inc(s.successCounter, endpoint))
    else
      s.(userStats := stats)
  }

  datatype LimitCheck = LimitCheck(exceeded: bool, armed: bool, state: ApiState)

  /**
   * userLimitExceeded (api/api.go:183-226) for an already resolved limit: a
   * throttled call records a throttled outcome and leaves the counters alone;
   * an admitted call only touches the counters, as Admit says.
   */
  function UserLimitExceeded(s: ApiState, name: string, limit: int): (r: LimitCheck)
    ensures r.exceeded == Throttles(s.userCounters, name, limit)
    ensures r.exceeded ==> !r.armed && r.state == s.(userStats := Record(s.userStats, RequestStatusThrottled, 0.0, name))
    ensures !r.exceeded ==> r.state == s.(userCounters := Admit(s.userCounters, name, limit).counters)
    ensures r.armed == Admit(s.userCounters, name, limit).armed
  {
    var admission := Admit(s.userCounters, name, limit);
    if admission.exceeded then
      LimitCheck(true, false, UpdateStats(s, RequestStatusThrottled, 0.0, name, ""))
    else
      LimitCheck(false, admission.armed, s.(userCounters := admission.counters))
  }

  /** The rate limiter is consulted and says no. */
  predicate Denied(s: ApiState, name: string, limit: int, attempt: Attempt) {
    !attempt.ParseError? && Throttles(s.userCounters, name, limit)
  }

  /**
   * The outcome each path of GetAddress records: every path records exactly
   * one, except a failed json.Marshal, which records none.
   */
  function Recorded(attempt: Attempt, denied: bool): Option<(int, Seconds)> {
    if attempt.ParseError? then Some((RequestStatusFailed, 0.0))
    else if denied then Some((RequestStatusThrottled, 0.0))
    else if attempt.MarshalError? then None
    else if attempt.Ok? then Some((RequestStatusSuccessful, attempt.elapsed))
    else Some((RequestStatusFailed, attempt.elapsed))
  }

  function RecordOutcome(stats: StatsMap, outcome: Option<(int, Seconds)>, name: string): StatsMap {
    match outcome
    case None => stats
    case Some((status, elapsed)) => Record(stats, status, elapsed, name)
  }

  datatype Exchange = Exchange(reply: Reply, armed: bool, state: ApiState)

  /**
   * GetAddress (api/api.go:53-110). A parse error is recorded as a failure
   * with no elapsed time, before and without the rate limiter; a throttled
   * call is answered 403 after the limiter's own bookkeeping; otherwise the
   * fetch outcome is recorded and only a complete fetch consumes quota.
   */
  function GetAddress(s: ApiState, name: string, limit: int, attempt: Attempt): (r: Exchange)
    ensures r.reply == StatusForbidden <==> Denied(s, name, limit, attempt)
    ensures r.reply.ElapsedTime? <==> attempt.Ok? && !Denied(s, name, limit, attempt)
    ensures r.reply.ElapsedTime? ==> r.reply.seconds == attempt.elapsed
    ensures r.reply == StatusNotFound <==>
      attempt.ParseError? || (attempt.FetchError? && !Denied(s, name, limit, attempt))
    ensures r.reply == StatusInternalServerError <==>
      (attempt.ReadError? || attempt.MarshalError?) && !Denied(s, name, limit, attempt)
    ensures r.state.userStats == RecordOutcome(s.userStats, Recorded(attempt, Denied(s, name, limit, attempt)), name)
    ensures r.state.successCounter ==
      if r.reply.ElapsedTime? then Inc(s.successCounter, AddressEndpoint) else s.successCounter
    ensures r.state.failedCounter ==
      if r.reply == StatusNotFound || (r.reply == StatusInternalServerError && !attempt.MarshalError?)
      then Inc(s.failedCounter, AddressEndpoint) else s.failedCounter
    ensures attempt.ParseError? || Denied(s, name, limit, attempt) ==> r.state.userCounters == s.userCounters
    ensures !attempt.ParseError? ==> r.state.userCounters.Keys == s.userCounters.Keys + {name}
    ensures Consumed(r.state.userCounters, name) ==
      Consumed(s.userCounters, name) + (if r.reply.ElapsedTime? then 1 else 0)
    ensures r.armed <==> !attempt.ParseError? && !Denied(s, name, limit, attempt) && !ResetScheduled(s.userCounters, name)
    ensures !attempt.ParseError? && !Denied(s, name, limit, attempt) ==> ResetScheduled(r.state.userCounters, name)
    ensures forall n :: n in s.userCounters && n != name ==> r.state.userCounters[n] == s.userCounters[n]
    ensures limit >= 1 && WithinQuota(s.userCounters, limit) ==> WithinQuota(r.state.userCounters, limit)
  {
    if attempt.ParseError? then
      Exchange(StatusNotFound, false, UpdateStats(s, RequestStatusFailed, 0.0, name, AddressEndpoint))
    else
      var check := UserLimitExceeded(s, name, limit);
      if check.exceeded then
        Exchange(StatusForbidden, false, check.state)
      else
        var fetched := Fetched(check.state, name, attempt);
        Exchange(fetched.reply, check.armed, fetched.state)
  }

  /** What the fetch part of GetAddress answers, and the state it leaves. */
  datatype Outcome = Outcome(reply: Reply, state: ApiState)

  /**
   * The rest of GetAddress once the limiter has admitted the request
   * (api/api.go:70-109): the fetch outcome is recorded, and only a complete
   * fetch consumes quota.
   */
  function Fetched(s: ApiState, name: string, attempt: Attempt): Outcome
    requires !attempt.ParseError?
  {
    if attempt.FetchError? then
      Outcome(StatusNotFound, UpdateStats(s, RequestStatusFailed, attempt.elapsed, name, AddressEndpoint))
    else if attempt.ReadError? then
      Outcome(StatusInternalServerError, UpdateStats(s, RequestStatusFailed, attempt.elapsed, name, AddressEndpoint))
    else if attempt.MarshalError? then
      Outcome(StatusInternalServerError, s)
    else
      var recorded := UpdateStats(s, RequestStatusSuccessful, attempt.elapsed, name, AddressEndpoint);
      Outcome(ElapsedTime(attempt.elapsed), recorded.(userCounters := Consume(recorded.userCounters, name)))
  }

  /** A stats endpoint's answer and the metric it bumps: success when the body is sent, failure on 404. */
  function Served(s: ApiState, reply: StatsReply, endpoint: string): (r: ApiState)
    ensures r.userStats == s.userStats && r.userCounters == s.userCounters
    ensures Count(r.successCounter, endpoint) + Count(r.failedCounter, endpoint) ==
      Count(s.successCounter, endpoint) + Count(s.failedCounter, endpoint) + 1
    ensures reply.Report? ==> r.successCounter == Inc(s.successCounter, endpoint) && r.failedCounter == s.failedCounter
    ensures reply.StatsNotFound? ==> r.failedCounter == Inc(s.failedCounter, endpoint) && r.successCounter == s.successCounter
  {
    if reply.Report? then s.(successCounter := Inc(s.successCounter, endpoint))
    else s.(failedCounter := Inc(s.failedCounter, endpoint))
  }

  datatype Shown = Shown(reply: StatsReply, state: ApiState)

  /**
   * ShowUserStats (api/api.go:112-142): the user's figures, or 404 when the
   * name has no record or its average cannot be encoded (no counted request).
   */
  function ShowUserStats(s: ApiState, name: string): (r: Shown)
    ensures r.reply.Report? <==> name in s.userStats && TotalRequests(s.userStats[name]) > 0
    ensures name !in s.userStats ==> r.reply == StatsNotFound
    ensures r.reply.Report? ==>
      var user, body := s.userStats[name], r.reply.body;
      body.userName == name &&
      body.successfulRequests == user.successfulRequests &&
      body.failedRequests == user.failedRequests &&
      body.throttledRequests == user.throttledRequests &&
      body.totalRequests == user.successfulRequests + user.failedRequests &&
      body.totalTimeElapsed == user.successfulTimeElapsed + user.failedTimeElapsed &&
      body.averageRequestTime * (body.totalRequests as real) == body.totalTimeElapsed
    ensures r.state == Served(s, r.reply, UserStatsEndpoint)
  {
    var reply := if name in s.userStats then Finish(UserResponse(name, s.userStats[name])) else StatsNotFound;
    Shown(reply, Served(s, reply, UserStatsEndpoint))
  }

  /**
   * ShowAllStats (api/api.go:144-169): the field-wise sum over all users, or
   * 404 when no request was counted at all (the average is then NaN or infinite).
   */
  ghost function ShowAllStats(s: ApiState): (r: Shown)
    ensures r.reply.Report? <==> Aggregate(s.userStats).totalRequests > 0
    ensures r.reply.Report? ==>
      r.reply.body.userName == "" &&
      r.reply.body.totalRequests == r.reply.body.successfulRequests + r.reply.body.failedRequests &&
      r.reply.body.(averageRequestTime := 0.0) == Aggregate(s.userStats)
    ensures r.state == Served(s, r.reply, AllStatsEndpoint)
  {
    AggregateConsistent(s.userStats);
    var reply := Finish(Aggregate(s.userStats));
    Shown(reply, Served(s, reply, AllStatsEndpoint))
  }

  /** Before any request, the aggregate endpoint answers 404, not a body of zeros. */
  lemma NoStatsBeforeFirstRequest(name: string)
    ensures ShowAllStats(InitialState).reply == StatsNotFound
    ensures ShowUserStats(InitialState, name).reply == StatsNotFound
  {
    AggregateOfNoUsers();
  }
}

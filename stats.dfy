/**
 * The statistics store of api/api.go: getOrCreate and updateStats on the map
 * from user name to UserModel, the response record of the two stats
 * endpoints, and the field-wise aggregation of ShowAllStats.
 */
module Stats {
  import opened UserModels

  /** The status codes updateStats dispatches on (api/api.go:20-23). */
  const RequestStatusFailed: int := 0
  const RequestStatusSuccessful: int := 1
  const RequestStatusThrottled: int := 2

  type StatsMap = map<string, UserModel>

  /** A labelled counter family: endpoint label to count; a label never incremented reads as 0. */
  type Metric = map<string, nat>

  function Count(metric: Metric, endpoint: string): nat {
    if endpoint in metric then metric[endpoint] else 0
  }

  /** `WithLabelValues(endpoint).Inc()` */
  function Inc(metric: Metric, endpoint: string): (r: Metric)
    ensures r.Keys == metric.Keys + {endpoint}
    ensures Count(r, endpoint) == Count(metric, endpoint) + 1
    ensures forall e :: e != endpoint ==> Count(r, e) == Count(metric, e)
  {
    metric[endpoint := Count(metric, endpoint) + 1]
  }

  /** The user's record, or the zero record getOrCreate would create. */
  function Entry(stats: StatsMap, name: string): UserModel {
    if name in stats then stats[name] else Zero
  }

  /** getOrCreate (api/api.go:228-236): an existing entry is kept as it is, an absent one is created zeroed. */
  function GetOrCreate(stats: StatsMap, name: string): (r: StatsMap)
    ensures r.Keys == stats.Keys + {name}
    ensures name in stats ==> r == stats
    ensures r[name] == Entry(stats, name)
    ensures forall n :: n in stats ==> r[n] == stats[n]
  {
    if name in stats then stats else stats[name := Zero]
  }

  /** A second getOrCreate for the same name adds nothing. */
  lemma GetOrCreateIdempotent(stats: StatsMap, name: string)
    ensures GetOrCreate(GetOrCreate(stats, name), name) == GetOrCreate(stats, name)
  {
  }

  /** The switch of updateStats on one record (api/api.go:241-254). */
  function Bump(user: UserModel, status: int, elapsed: Seconds): UserModel {
    if status == RequestStatusFailed then
      user.(failedRequests := user.failedRequests + 1, failedTimeElapsed := user.failedTimeElapsed + elapsed)
    else if status == RequestStatusSuccessful then
      user.(successfulRequests := user.successfulRequests + 1, successfulTimeElapsed := user.successfulTimeElapsed + elapsed)
    else if status == RequestStatusThrottled then
      user.(throttledRequests := user.throttledRequests + 1)
    else
      user
  }

  /**
   * Exactly one outcome family moves, by one request and, for failed and
   * successful requests, by the elapsed time; an unknown status moves nothing.
   */
  lemma BumpMovesOneFamily(user: UserModel, status: int, elapsed: Seconds)
    ensures var r := Bump(user, status, elapsed);
      r.failedRequests == user.failedRequests + (if status == RequestStatusFailed then 1 else 0) &&
      r.failedTimeElapsed == user.failedTimeElapsed + (if status == RequestStatusFailed then elapsed else 0.0) &&
      r.successfulRequests == user.successfulRequests + (if status == RequestStatusSuccessful then 1 else 0) &&
      r.successfulTimeElapsed == user.successfulTimeElapsed + (if status == RequestStatusSuccessful then elapsed else 0.0) &&
      r.throttledRequests == user.throttledRequests + (if status == RequestStatusThrottled then 1 else 0)
  {
  }

  /** A throttled outcome leaves the totals alone; a failed or successful one adds one request and its time. */
  lemma BumpTotals(user: UserModel, status: int, elapsed: Seconds)
    ensures var counted := status == RequestStatusFailed || status == RequestStatusSuccessful;
      TotalRequests(Bump(user, status, elapsed)) == TotalRequests(user) + (if counted then 1 else 0) &&
      TotalTime(Bump(user, status, elapsed)) == TotalTime(user) + (if counted then elapsed else 0.0)
  {
  }

  /**
   * The map part of updateStats: the user's entry exists afterwards (even for
   * an unknown status) and has moved by one family; no other entry changes.
   */
  function Record(stats: StatsMap, status: int, elapsed: Seconds, name: string): (r: StatsMap)
    ensures r.Keys == stats.Keys + {name}
    ensures r[name] == Bump(Entry(stats, name), status, elapsed)
    ensures forall n :: n in stats && n != name ==> r[n] == stats[n]
  {
    var created := GetOrCreate(stats, name);
    created[name := Bump(created[name], status, elapsed)]
  }

  /** The body of UserStatsResponse (api/responses.go:3-11). */
  datatype StatsResponse = StatsResponse(
    userName: string,
    successfulRequests: nat,
    failedRequests: nat,
    totalRequests: nat,
    totalTimeElapsed: Seconds,
    averageRequestTime: real,
    throttledRequests: nat)

  /** What a stats endpoint answers: the JSON body, or status 404. */
  datatype StatsReply = Report(body: StatsResponse) | StatsNotFound

  /** The zero value `UserStatsResponse{}` */
  const EmptyResponse: StatsResponse := StatsResponse("", 0, 0, 0, 0.0, 0.0, 0)

  /** The response fields ShowUserStats fills from one record, before the average. */
  function UserResponse(name: string, user: UserModel): (r: StatsResponse)
    ensures r.totalRequests == r.successfulRequests + r.failedRequests
    ensures r.userName == name && r.throttledRequests == user.throttledRequests
    ensures r.successfulRequests == user.successfulRequests && r.failedRequests == user.failedRequests
    ensures r.totalTimeElapsed == user.successfulTimeElapsed + user.failedTimeElapsed
  {
    StatsResponse(name, user.successfulRequests, user.failedRequests,
      TotalRequests(user), TotalTime(user), 0.0, user.throttledRequests)
  }

  /** One iteration of the ShowAllStats loop (api/api.go:148-152), with the two getters' sums written out. */
  function Accumulate(acc: StatsResponse, user: UserModel): StatsResponse {
    acc.(successfulRequests := acc.successfulRequests + user.successfulRequests,
         failedRequests := acc.failedRequests + user.failedRequests,
         totalRequests := acc.totalRequests + (user.successfulRequests + user.failedRequests),
         totalTimeElapsed := acc.totalTimeElapsed + (user.successfulTimeElapsed + user.failedTimeElapsed),
         throttledRequests := acc.throttledRequests + user.throttledRequests)
  }

  /** The field-wise sum over the entries of the given names, in some order. */
  ghost function SumOver(stats: StatsMap, names: set<string>): StatsResponse
    requires names <= stats.Keys
    decreases names
  {
    if names == {} then EmptyResponse
    else
      var name :| name in names;
      Accumulate(SumOver(stats, names - {name}), stats[name])
  }

  /** The figures ShowAllStats reports before the average: the sum over every stored user. */
  ghost function Aggregate(stats: StatsMap): StatsResponse {
    SumOver(stats, stats.Keys)
  }

  /** The totals Accumulate adds are exactly what the two getters return. */
  lemma AccumulateTotals(acc: StatsResponse, user: UserModel)
    ensures Accumulate(acc, user).totalRequests == acc.totalRequests + TotalRequests(user)
    ensures Accumulate(acc, user).totalTimeElapsed == acc.totalTimeElapsed + TotalTime(user)
  {
  }

  /** The order in which two records are added does not matter. */
  lemma AccumulateCommutes(acc: StatsResponse, user: UserModel, other: UserModel)
    ensures Accumulate(Accumulate(acc, user), other) == Accumulate(Accumulate(acc, other), user)
  {
  }

  /** Adding a bumped record is adding the record and then the bump alone. */
  lemma AccumulateBump(acc: StatsResponse, user: UserModel, status: int, elapsed: Seconds)
    ensures Accumulate(acc, Bump(user, status, elapsed)) ==
      Accumulate(Accumulate(acc, user), Bump(Zero, status, elapsed))
  {
  }

  /** Any entry can be taken out of the sum last: the order of map iteration does not matter. */
  lemma {:induction false} SumOverRemove(stats: StatsMap, names: set<string>, name: string)
    requires names <= stats.Keys && name in names
    ensures SumOver(stats, names) == Accumulate(SumOver(stats, names - {name}), stats[name])
    decreases names
  {
    var first :| first in names && SumOver(stats, names) == Accumulate(SumOver(stats, names - {first}), stats[first]);
    if first != name {
      SumOverRemove(stats, names - {first}, name);
      SumOverRemove(stats, names - {name}, first);
      assert names - {first} - {name} == names - {name} - {first};
      AccumulateCommutes(SumOver(stats, names - {first} - {name}), stats[name], stats[first]);
    }
  }

  /** The sum only depends on the entries it sums. */
  lemma {:induction false} SumOverAgree(stats: StatsMap, other: StatsMap, names: set<string>)
    requires names <= stats.Keys && names <= other.Keys
    requires forall n :: n in names ==> stats[n] == other[n]
    ensures SumOver(stats, names) == SumOver(other, names)
    decreases names
  {
    if names != {} {
      var name :| name in names;
      SumOverRemove(stats, names, name);
      SumOverRemove(other, names, name);
      SumOverAgree(stats, other, names - {name});
    }
  }

  /** In every sum, the total is the successful plus the failed count, and no name or average is set. */
  lemma {:induction false} SumOverConsistent(stats: StatsMap, names: set<string>)
    requires names <= stats.Keys
    ensures var sum := SumOver(stats, names);
      sum.totalRequests == sum.successfulRequests + sum.failedRequests &&
      sum.userName == "" && sum.averageRequestTime == 0.0
    decreases names
  {
    if names != {} {
      var name :| name in names;
      SumOverRemove(stats, names, name);
      SumOverConsistent(stats, names - {name});
    }
  }

  /** The aggregate total counts exactly the successful and failed requests of all users; no name or average is set yet. */
  lemma AggregateConsistent(stats: StatsMap)
    ensures Aggregate(stats).totalRequests == Aggregate(stats).successfulRequests + Aggregate(stats).failedRequests
    ensures Aggregate(stats).userName == "" && Aggregate(stats).averageRequestTime == 0.0
  {
    SumOverConsistent(stats, stats.Keys);
  }

  /** With no users, every aggregate field is zero. */
  lemma AggregateOfNoUsers()
    ensures Aggregate(map[]) == EmptyResponse
  {
  }

  /**
   * Recording an outcome moves the aggregate by exactly the same family as
   * the user's own entry: the aggregate stays the sum of the users.
   */
  lemma AggregateAfterRecord(stats: StatsMap, status: int, elapsed: Seconds, name: string)
    ensures Aggregate(Record(stats, status, elapsed, name)) ==
      Accumulate(Aggregate(stats), Bump(Zero, status, elapsed))
  {
    var after := Record(stats, status, elapsed, name);
    var rest := stats.Keys - {name};
    var sumRest := SumOver(stats, rest);
    assert Aggregate(after) == Accumulate(sumRest, after[name]) by {
      assert after.Keys - {name} == rest;
      SumOverRemove(after, after.Keys, name);
      SumOverAgree(stats, after, rest);
    }
    if name in stats {
      assert Aggregate(stats) == Accumulate(sumRest, stats[name]) by {
        SumOverRemove(stats, stats.Keys, name);
      }
      AccumulateBump(sumRest, stats[name], status, elapsed);
    } else {
      assert rest == stats.Keys;
    }
  }

  /** ShowAllStats's loop (api/api.go:145-153), accumulating every entry once in an unspecified order. */
  method SumStats(stats: StatsMap) returns (response: StatsResponse)
    ensures response == Aggregate(stats)
  {
    response := EmptyResponse;
    var remaining := stats.Keys;
    while remaining != {}
      invariant remaining <= stats.Keys
      invariant response == SumOver(stats, stats.Keys - remaining)
      decreases |remaining|
    {
      var name :| name in remaining;
      var element := stats[name];
      response := Accumulate(response, element);
      var done := stats.Keys - remaining;
      SumOverRemove(stats, done + {name}, name);
      assert done + {name} - {name} == done;
      remaining := remaining - {name};
      assert stats.Keys - remaining == done + {name};
    }
    assert stats.Keys - remaining == stats.Keys;
  }

  /**
   * The average and the JSON encoding (api/api.go:121-125, 155-157): with no
   * counted requests the average is 0/0 or x/0, which is NaN or infinite,
   * json.Marshal rejects it and the endpoint answers 404.
   */
  function Finish(response: StatsResponse): (reply: StatsReply)
    ensures reply.Report? <==> response.totalRequests > 0
    ensures reply.Report? ==> reply.body.(averageRequestTime := response.averageRequestTime) == response
    ensures reply.Report? ==> reply.body.averageRequestTime * (response.totalRequests as real) == response.totalTimeElapsed
  {
    if response.totalRequests == 0 then StatsNotFound
    else Report(response.(averageRequestTime := response.totalTimeElapsed / (response.totalRequests as real)))
  }
}

/**
 * The API object of api/api.go (lines 47-51) with its two maps updated in
 * place. The metric families are fields here as well; the reset task that
 * userLimitExceeded starts is the method FireReset, which the scheduler may
 * call for any user in the ghost set pendingResets.
 */
module Api {
  import opened UserModels
  import opened Config
  import Stats
  import opened RateLimiter
  import H = Handlers

  class Api {
    var userStats: Stats.StatsMap
    var userCounters: CounterMap
    var successCounter: Stats.Metric
    var failedCounter: Stats.Metric

    /** The users whose reset task has been started and has not fired yet. */
    ghost var pendingResets: set<string>

    /** A reset task is waiting for a user exactly when the user's counter says one is scheduled. */
    ghost predicate Valid()
      reads this
    {
      PendingMatches(pendingResets, userCounters)
    }

    function State(): H.ApiState
      reads this
    {
      H.ApiState(userStats, userCounters, successCounter, failedCounter)
    }

    /** main.go:18-20: both maps empty. */
    constructor ()
      ensures Valid() && State() == H.InitialState && pendingResets == {}
    {
      userStats := map[];
      userCounters := map[];
      successCounter := map[];
      failedCounter := map[];
      pendingResets := {};
    }

    /** getOrCreate (api/api.go:228-236) */
    method GetOrCreate(name: string) returns (entry: UserModel)
      modifies this`userStats
      ensures userStats == Stats.GetOrCreate(old(userStats), name)
      ensures entry == userStats[name] == Stats.Entry(old(userStats), name)
    {
      if name in userStats {
        entry := userStats[name];
      } else {
        entry := Zero;
        userStats := userStats[name := entry];
      }
    }

    /** updateStats (api/api.go:238-255) */
    method UpdateStats(status: int, elapsed: Seconds, name: string, endpoint: string)
      modifies this`userStats, this`successCounter, this`failedCounter
      ensures State() == H.UpdateStats(old(State()), status, elapsed, name, endpoint)
    {
      var user := GetOrCreate(name);
      if status == Stats.RequestStatusFailed {
        userStats := userStats[name := user.(
          failedRequests := user.failedRequests + 1,
          failedTimeElapsed := user.failedTimeElapsed + elapsed)];
        failedCounter := Stats.Inc(failedCounter, endpoint);
      } else if status == Stats.RequestStatusSuccessful {
        userStats := userStats[name := user.(
          successfulRequests := user.successfulRequests + 1,
          successfulTimeElapsed := user.successfulTimeElapsed + elapsed)];
        successCounter := Stats.Inc(successCounter, endpoint);
      } else if status == Stats.RequestStatusThrottled {
        userStats := userStats[name := user.(throttledRequests := user.throttledRequests + 1)];
      }
    }

    /**
     * userLimitExceeded (api/api.go:183-226); `limitSetting` is the value of
     * REQUESTS_PER_MINUTE_LIMIT. An admitted call leaves a reset pending for
     * the user, and starts one only when none was pending.
     */
    method UserLimitExceeded(name: string, limitSetting: string) returns (exceeded: bool)
      requires Valid()
      modifies this
      ensures Valid()
      ensures var check := H.UserLimitExceeded(old(State()), name, ResolveLimit(limitSetting));
        exceeded == check.exceeded && State() == check.state &&
        pendingResets == if check.armed then old(pendingResets) + {name} else old(pendingResets)
      ensures !exceeded ==> name in pendingResets
    {
      var limit := ResolveLimit(limitSetting);
      if name in userCounters {
        if userCounters[name].counter >= limit {
          UpdateStats(Stats.RequestStatusThrottled, 0.0, name, "");
          return true;
        }
      } else {
        userCounters := userCounters[name := UpdatingCounter(0, true)];
      }
      if name in userCounters && userCounters[name].needToUpdate {
        userCounters := userCounters[name := userCounters[name].(needToUpdate := false)];
        pendingResets := pendingResets + {name};
      }
      return false;
    }

    /** The reset task of api/api.go:215-222 firing one minute after it was started. */
    method FireReset(name: string)
      requires Valid() && name in pendingResets
      modifies this`userCounters, this`pendingResets
      ensures Valid()
      ensures userCounters == Reset(old(userCounters), name)
      ensures pendingResets == old(pendingResets) - {name}
    {
      userCounters := userCounters[name := userCounters[name].(counter := 0, needToUpdate := true)];
      pendingResets := pendingResets - {name};
    }

    /** GetAddress (api/api.go:53-110) */
    method GetAddress(name: string, address: H.Attempt, limitSetting: string) returns (reply: H.Reply)
      requires Valid()
      modifies this
      ensures Valid()
      ensures var x := H.GetAddress(old(State()), name, ResolveLimit(limitSetting), address);
        reply == x.reply && State() == x.state &&
        pendingResets == if x.armed then old(pendingResets) + {name} else old(pendingResets)
    {
      if address.ParseError? {
        UpdateStats(Stats.RequestStatusFailed, 0.0, name, H.AddressEndpoint);
        return H.StatusNotFound;
      }
      var limitExceeded := UserLimitExceeded(name, limitSetting);
      if limitExceeded {
        return H.StatusForbidden;
      }
      reply := Fetch(name, address);
    }

    /** The fetch part of GetAddress (api/api.go:70-109), after the limiter has admitted the request. */
    method Fetch(name: string, address: H.Attempt) returns (reply: H.Reply)
      requires Valid() && !address.ParseError?
      modifies this`userStats, this`userCounters, this`successCounter, this`failedCounter
      ensures Valid()
      ensures H.Outcome(reply, State()) == H.Fetched(old(State()), name, address)
    {
      if address.FetchError? {
        UpdateStats(Stats.RequestStatusFailed, address.elapsed, name, H.AddressEndpoint);
        return H.StatusNotFound;
      }
      if address.ReadError? {
        UpdateStats(Stats.RequestStatusFailed, address.elapsed, name, H.AddressEndpoint);
        return H.StatusInternalServerError;
      }
      if address.MarshalError? {
        return H.StatusInternalServerError;
      }
      UpdateStats(Stats.RequestStatusSuccessful, address.elapsed, name, H.AddressEndpoint);
      if name in userCounters {
        var counter := userCounters[name];
        userCounters := userCounters[name := counter.(counter := counter.counter + 1)];
      }
      return H.ElapsedTime(address.elapsed);
    }

    /** ShowUserStats (api/api.go:112-142) */
    method ShowUserStats(name: string) returns (reply: Stats.StatsReply)
      modifies this`successCounter, this`failedCounter
      ensures var x := H.ShowUserStats(old(State()), name);
        reply == x.reply && State() == x.state
    {
      if name in userStats {
        var entry := userStats[name];
        reply := Stats.Finish(Stats.UserResponse(name, entry));
      } else {
        reply := Stats.StatsNotFound;
      }
      if reply.Report? {
        successCounter := Stats.Inc(successCounter, H.UserStatsEndpoint);
      } else {
        failedCounter := Stats.Inc(failedCounter, H.UserStatsEndpoint);
      }
    }

    /** ShowAllStats (api/api.go:144-169) */
    method ShowAllStats() returns (reply: Stats.StatsReply)
      modifies this`successCounter, this`failedCounter
      ensures var x := H.ShowAllStats(old(State()));
        reply == x.reply && State() == x.state
    {
      var response := Stats.SumStats(userStats);
      reply := Stats.Finish(response);
      if reply.Report? {
        successCounter := Stats.Inc(successCounter, H.AllStatsEndpoint);
      } else {
        failedCounter := Stats.Inc(failedCounter, H.AllStatsEndpoint);
      }
    }
  }
}

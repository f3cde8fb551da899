/**
 * The per-user counter of api/api.go (type UpdatingCounter, lines 42-45) and
 * the transitions userLimitExceeded, the success increment of GetAddress and
 * the deferred reset perform on the map of counters. `needToUpdate` is true
 * exactly when no reset is scheduled for the user.
 */
module RateLimiter {

  datatype UpdatingCounter = UpdatingCounter(counter: nat, needToUpdate: bool)

  type CounterMap = map<string, UpdatingCounter>

  /** The successful fetches counted in the user's current window; 0 before the user is seen. */
  function Consumed(counters: CounterMap, name: string): nat {
    if name in counters then counters[name].counter else 0
  }

  /** The throttle condition: only an existing counter at or over the limit throttles. */
  predicate Throttles(counters: CounterMap, name: string, limit: int) {
    name in counters && counters[name].counter >= limit
  }

  /** A reset task is scheduled for the user and has not fired yet. */
  predicate ResetScheduled(counters: CounterMap, name: string) {
    name in counters && !counters[name].needToUpdate
  }

  /**
   * The reset tasks still waiting are exactly those the counters say are
   * scheduled: one per user whose flag is cleared, and no other.
   */
  ghost predicate PendingMatches(pending: set<string>, counters: CounterMap) {
    forall name :: name in pending <==> ResetScheduled(counters, name)
  }

  /** No user's counter is above the limit. */
  predicate WithinQuota(counters: CounterMap, limit: int) {
    forall name :: name in counters ==> counters[name].counter <= limit
  }

  /** What userLimitExceeded decides and does to the counters; `armed` says whether it started a reset task. */
  datatype Admission = Admission(exceeded: bool, armed: bool, counters: CounterMap)

  /**
   * The counter part of userLimitExceeded (api/api.go:200-225): a throttled
   * call changes no counter and arms nothing; an admitted call creates the
   * counter if needed and arms a reset exactly when none is scheduled.
   */
  function Admit(counters: CounterMap, name: string, limit: int): (r: Admission)
    ensures r.exceeded == Throttles(counters, name, limit)
    ensures r.exceeded ==> r.counters == counters && !r.armed
    ensures !r.exceeded ==> r.counters.Keys == counters.Keys + {name}
    ensures !r.exceeded ==> Consumed(r.counters, name) == Consumed(counters, name)
    ensures !r.exceeded ==> ResetScheduled(r.counters, name)
    ensures r.armed <==> !r.exceeded && !ResetScheduled(counters, name)
    ensures forall n :: n in counters && n != name ==> n in r.counters && r.counters[n] == counters[n]
  {
    if name in counters && counters[name].counter >= limit then
      Admission(true, false, counters)
    else
      var created := if name in counters then counters else counters[name := UpdatingCounter(0, true)];
      var counter := created[name];
      if counter.needToUpdate then
        Admission(false, true, created[name := counter.(needToUpdate := false)])
      else
        Admission(false, false, created)
  }

  /** The quota increment after a successful fetch (api/api.go:104-106); an absent counter stays absent. */
  function Consume(counters: CounterMap, name: string): (r: CounterMap)
    ensures r.Keys == counters.Keys
    ensures Consumed(r, name) == Consumed(counters, name) + (if name in counters then 1 else 0)
    ensures name in counters ==> r[name].needToUpdate == counters[name].needToUpdate
    ensures forall n :: n in counters && n != name ==> r[n] == counters[n]
  {
    if name in counters then
      counters[name := counters[name].(counter := counters[name].counter + 1)]
    else
      counters
  }

  /** The deferred task of api/api.go:215-222 when it fires: the window is empty and no reset is scheduled. */
  function Reset(counters: CounterMap, name: string): (r: CounterMap)
    requires name in counters
    ensures r.Keys == counters.Keys
    ensures Consumed(r, name) == 0 && !ResetScheduled(r, name)
    ensures forall limit :: limit >= 1 ==> !Throttles(r, name, limit)
    ensures forall n :: n in counters && n != name ==> r[n] == counters[n]
  {
    counters[name := UpdatingCounter(0, true)]
  }

  /**
   * The quota bound: with a limit of at least one, an admitted call followed
   * by its success increment never takes a counter past the limit.
   */
  lemma AdmitThenConsumeKeepsQuota(counters: CounterMap, name: string, limit: int)
    requires limit >= 1 && WithinQuota(counters, limit)
    requires !Admit(counters, name, limit).exceeded
    ensures WithinQuota(Consume(Admit(counters, name, limit).counters, name), limit)
  {
    var admitted := Admit(counters, name, limit).counters;
    var consumed := Consume(admitted, name);
    forall n | n in consumed
      ensures consumed[n].counter <= limit
    {
      if n == name {
        assert Consumed(consumed, name) <= Consumed(counters, name) + 1;
      } else {
        assert consumed[n] == counters[n];
      }
    }
  }
}

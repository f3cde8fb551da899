/**
 * The per-user statistics record of api/userModel.go and its two derived
 * figures. Both getters use value receivers in the source, so here they are
 * plain functions of a datatype value: they cannot change the record.
 */
module UserModels {

  /** Elapsed wall-clock seconds as measured by a monotonic clock. */
  type Seconds = r: real | r >= 0.0

  datatype UserModel = UserModel(
    successfulRequests: nat,
    failedRequests: nat,
    successfulTimeElapsed: Seconds,
    failedTimeElapsed: Seconds,
    throttledRequests: nat)

  /** The zero value `&UserModel{}` that a user's first recorded outcome starts from. */
  const Zero: UserModel := UserModel(0, 0, 0.0, 0.0, 0)

  /** getTotalRequests: the requests that reached the fetch stage; throttled ones are not among them. */
  function TotalRequests(user: UserModel): nat {
    user.successfulRequests + user.failedRequests
  }

  /** getTotalTime: the time spent on successful and failed fetches together. */
  function TotalTime(user: UserModel): Seconds {
    user.successfulTimeElapsed + user.failedTimeElapsed
  }

  /**
   * Each total covers both of its parts, and is zero exactly when both parts
   * are: there is no request or time that only the total knows about.
   */
  lemma TotalsBound(user: UserModel)
    ensures TotalRequests(user) >= user.successfulRequests && TotalRequests(user) >= user.failedRequests
    ensures TotalRequests(user) == 0 <==> user.successfulRequests == 0 && user.failedRequests == 0
    ensures TotalTime(user) >= user.successfulTimeElapsed && TotalTime(user) >= user.failedTimeElapsed
    ensures TotalTime(user) == 0.0 <==> user.successfulTimeElapsed == 0.0 && user.failedTimeElapsed == 0.0
  {
  }

  /** A freshly created record reports no requests and no time. */
  lemma TotalsOfZero()
    ensures TotalRequests(Zero) == 0 && TotalTime(Zero) == 0.0
  {
  }

  /** The throttle count never feeds into either total. */
  lemma TotalsIgnoreThrottled(user: UserModel, throttled: nat)
    ensures TotalRequests(user.(throttledRequests := throttled)) == TotalRequests(user)
    ensures TotalTime(user.(throttledRequests := throttled)) == TotalTime(user)
  {
  }
}

# Per-user rate limiter and request statistics of the metered gateway

This project models, in Dafny, the in-memory core of a small HTTP gateway
written in Go. The gateway fetches a URL for a named user. It allows each
user a number of complete fetches per one-minute window and keeps per-user
counts of successful, failed and throttled requests with their elapsed
times. Two endpoints report these figures, one per user and one summed over
all users.

The model covers:

- the `UserModel` record and its two derived totals (`api/userModel.go`), as
  a datatype and two functions (module `UserModels`);
- the limit setting: an empty or non-integer `REQUESTS_PER_MINUTE_LIMIT`
  gives the default of 10, and so does an integer outside Go's 64-bit `int`
  range; any other integer is used as it is, zero and negative values
  included. `strconv.Atoi` is written out as a sign-and-digits
  parser with Go's 64-bit range check (module `Config`);
- the per-user `UpdatingCounter` and its transitions (module `RateLimiter`):
  - admission by `userLimitExceeded`;
  - the quota increment after a complete fetch;
  - the deferred reset.
  `needToUpdate` is true exactly when no reset task is waiting for the user;
- `getOrCreate` and `updateStats` on the statistics map, the response
  record, the summation of `ShowAllStats` and the final average-and-encode
  step (module `Stats`);
- every handler as a transition of the whole state (module `Handlers`). The
  whole state is both maps plus the two labelled metric families, modelled
  as maps from endpoint to count. `GetAddress` receives the outcome of URL
  parsing, fetching, reading and encoding as an `Attempt` value:
  `ParseError`, `FetchError(elapsed)`, `ReadError(elapsed)`, `MarshalError`
  or `Ok(elapsed)`;
- the `API` object as a class whose methods update the maps in place (module
  `Api`, class `Api`). The goroutine that waits one minute and then clears a
  counter becomes the method `FireReset(name)`. It may be called for any
  user in the ghost set `pendingResets`. The class invariant ties that set
  to the counters: a reset is pending for a user exactly when the user has a
  counter whose `needToUpdate` is false;
- runs under arbitrary schedules of requests, queries and reset firings, and
  one user's consecutive requests within a window (module `Schedules`).

Behaviour of the code worth knowing:

- A counter is created with `NeedToUpdate = true`, and the same call clears
  the flag when it starts the reset task.
- A throttled outcome increments no metric. Only the failed and successful
  branches of `updateStats` call the Prometheus counters.
- The limit is not checked for being positive. With limit 0 a new user's
  first request is still admitted. After that, every later request with a
  parsable address is throttled, even after a reset. An unparsable address
  never reaches the limiter and still answers 404.
- The stats endpoints divide the total time by the total request count.
  With no counted request this gives NaN or an infinity, which
  `json.Marshal` rejects. So `/stats` before any fetch, and
  `/user/{name}/stats` for a user who was only ever throttled, answer 404
  and increment the failed metric. They do not send a body of zeros.
  `Stats.Finish` models this, and `Handlers.NoStatsBeforeFirstRequest`
  states it for the initial state.
- The quota bound holds only for requests of one user that do not overlap.
  The limiter is consulted before the fetch and the counter is raised after
  it, so two overlapping fetches can both be admitted at one below the limit
  (`Schedules.OverlappingFetchesOvershoot`).

## Model

| member | source | states |
|---|---|---|
| UserModels.TotalRequests | api/userModel.go:11-13 | the successful plus the failed requests; its bounds are stated by TotalsBound |
| UserModels.TotalTime | api/userModel.go:15-17 | the successful plus the failed elapsed time; its bounds are stated by TotalsBound |
| UserModels.TotalsBound | api/userModel.go:11-17 | each total is at least each of its two parts, and is zero exactly when both parts are zero |
| UserModels.TotalsOfZero | api/userModel.go:3-17 | the zero record created by getOrCreate has 0 total requests and 0 total time |
| UserModels.TotalsIgnoreThrottled | api/userModel.go:11-17 | changing the throttled count changes neither total |
| Config.Atoi | api/api.go:193 | a value is accepted only if every character after an optional sign is a digit, the last character is a digit and the value is within Go's 64-bit int range; the first character is a sign or a digit; a string starting with a digit gives a non-negative value |
| Config.AtoiOfDigits | api/api.go:193 | conversely, every optional sign followed by digits within the 64-bit range is accepted, non-canonical spellings such as "+5", "007" and "-0" included, with the value of the digits, negated after '-' |
| Config.AtoiUnsigned | api/api.go:193 | a bare digit string, leading zeros included, parses to the value of its digits |
| Config.AtoiPlus | api/api.go:193 | a leading '+' parses to the value of the digits after it |
| Config.AtoiMinus | api/api.go:193 | a leading '-' parses to the negated value of the digits after it |
| Config.AtoiOutOfRange | api/api.go:193-197 | a sign and digits whose value lies outside Go's 64-bit int range is refused, and the limit then falls back to DefaultLimit |
| Config.AtoiOfFormat | api/api.go:193 | every 64-bit integer is parsed back from its decimal form |
| Config.ResolveLimit | api/api.go:185-198 | an empty or unparsable setting gives DefaultLimit (10); a parsed integer is returned unchanged |
| Config.ResolveLimitOfSetting | api/api.go:190-198 | every integer within Go's 64-bit int range, zero and negative ones included, parses back from its decimal form and becomes the limit |
| Config.ResolveLimitFallsBack | api/api.go:190-197 | "", "ten" and a bare "-" all resolve to the default limit |
| RateLimiter.Admit | api/api.go:200-213 | throttles exactly when a counter exists with counter >= limit, and then changes nothing and arms nothing; otherwise it creates the counter if needed, keeps its count, leaves a reset scheduled, and arms one exactly when none was scheduled; other users are untouched |
| RateLimiter.Consume | api/api.go:104-106 | an existing counter goes up by one and keeps its flag; an absent one stays absent; other users are untouched |
| RateLimiter.Reset | api/api.go:215-222 | the fired reset empties the window and unschedules the reset, so no limit of at least one throttles the user; other users are untouched |
| RateLimiter.AdmitThenConsumeKeepsQuota | api/api.go:200-204 | with limit >= 1 and every counter within the limit, an admission followed by the quota increment keeps every counter within the limit |
| Stats.Inc | api/api.go:245-249 | the labelled counter goes up by one and every other label keeps its count |
| Stats.GetOrCreate | api/api.go:228-236 | an existing entry is returned unchanged and the map is unchanged; an absent name gets a zero record; no other entry changes |
| Stats.GetOrCreateIdempotent | api/api.go:228-236 | a second call for the same name adds nothing |
| Stats.Bump | api/api.go:241-254 | the switch of updateStats on one record; what it changes is stated by BumpMovesOneFamily and BumpTotals |
| Stats.BumpMovesOneFamily | api/api.go:241-254 | a failed status adds one failed request and the elapsed time; a successful status adds one successful request and the time; a throttled status adds one throttled request and ignores the time; any other status changes nothing |
| Stats.BumpTotals | api/api.go:241-254 | a throttled outcome leaves both totals unchanged; a failed or successful one adds exactly one request and its elapsed time |
| Stats.Record | api/api.go:238-255 | the user's entry exists afterwards, even for an unknown status, and has moved by one family from its old or zero value; no other user's entry changes |
| Stats.UserResponse | api/api.go:115-123 | the per-user body carries the user's name and counts, total = successful + failed, and total time = the sum of both elapsed sums |
| Stats.Accumulate | api/api.go:148-152 | one iteration of the summing loop, adding every field of one record; AccumulateTotals ties its totals to the getters, and order independence is stated by SumOverRemove |
| Stats.Aggregate | api/api.go:145-153 | the field-wise sum over all stored records that the loop computes; its properties are stated by AggregateConsistent, AggregateOfNoUsers and AggregateAfterRecord |
| Stats.AccumulateTotals | api/api.go:150-151 | the totals one loop iteration adds are exactly what getTotalRequests and getTotalTime return |
| Stats.SumOverRemove | api/api.go:147-153 | the sum does not depend on the order in which map entries are visited |
| Stats.SumOverAgree | api/api.go:147-153 | the sum depends only on the entries being summed |
| Stats.AggregateConsistent | api/api.go:147-153 | the aggregate total equals the aggregate successful count plus the aggregate failed count, with no user name set |
| Stats.AggregateOfNoUsers | api/api.go:145-153 | an empty statistics map aggregates to all zeros |
| Stats.AggregateAfterRecord | api/api.go:147-153 | recording one outcome moves the aggregate by exactly the same family as the user's own entry |
| Stats.SumStats | api/api.go:145-153 | the loop returns the field-wise sum over every stored record |
| Stats.Finish | api/api.go:155-157 | a body is produced exactly when total requests > 0, and then average x total = total time; otherwise the answer is 404 |
| Handlers.UpdateStats | api/api.go:238-255 | the statistics map moves as Record says; the failed or successful metric of the endpoint goes up for a failed or successful status; counters are untouched |
| Handlers.UserLimitExceeded | api/api.go:183-226 | a throttled call records one throttled outcome and changes no counter and no metric; an admitted call changes only the counters, as Admit says |
| Handlers.GetAddress | api/api.go:53-110 | 403 exactly when the limiter is consulted and throttles; a parse error gives 404 and records a failure with time 0 without creating a counter; fetch and read errors record a failure with their time and answer 404 and 500; a marshal error records nothing; only a complete fetch answers with its time, bumps the success metric and raises the counter by one; a reset is armed exactly when none was scheduled; other users' counters are unchanged; with limit >= 1 the quota bound is kept |
| Handlers.Fetched | api/api.go:70-109 | the part of GetAddress after admission; its effect is stated by the contract of Handlers.GetAddress |
| Handlers.Served | api/api.go:125-141 | a stats endpoint bumps its success metric when it sends a body and its failed metric on 404, exactly one of the two |
| Handlers.ShowUserStats | api/api.go:112-142 | the body is sent exactly when the name has a record with at least one counted request, and it carries that record's figures and an average consistent with them; an absent name gives 404 |
| Handlers.ShowAllStats | api/api.go:144-169 | the body is sent exactly when the aggregate counts a request, and then it is the aggregate with total = successful + failed |
| Handlers.NoStatsBeforeFirstRequest | api/api.go:155-163 | in the initial state `/stats` and `/user/{name}/stats` for every name answer 404 |
| Schedules.StepKeepsInvariants | api/api.go:206-222 | every step keeps the pending resets equal to the scheduled counters, never arms a second reset for a user whose reset is pending, and with limit >= 1 keeps every counter within the limit |
| Schedules.RunInvariants | api/api.go:200-222 | after any schedule of requests, queries and reset firings from the initial state, a reset is pending exactly for the users whose counter says so, and with a fixed limit >= 1 no counter exceeds the limit |
| Schedules.AdmittedFetch | api/api.go:102-106 | an admitted complete fetch answers with its time, adds one successful request and its time, and raises the counter by one |
| Schedules.RefusedRequest | api/api.go:64-68 | a refused request answers 403, adds one throttled request and leaves the counters unchanged |
| Schedules.QuotaWindow | api/api.go:200-206 | k complete fetches that stay within the limit all answer with their time; the user's counter and successful count each rise by k and the successful time by k times the elapsed time, and nothing else in the user's record moves |
| Schedules.LimitPlusOneIsThrottled | api/api.go:200-204 | the fetch after the quota is used up is refused with 403: one more throttled request and no more successful ones |
| Schedules.ResetReopensWindow | api/api.go:215-222 | with a limit of at least 1, after the reset fires the next parsable request is never refused, arms a new reset and leaves the counter at 1 after a complete fetch and at 0 otherwise |
| Schedules.ThreeFetchesWithLimitTwo | api/api.go:53-110 | with limit 2, three complete fetches of equal duration by a new user answer 200, 200, 403 and leave 2 successful, 0 failed, 1 throttled and 2 total requests, with twice the duration as successful time |
| Schedules.UnparsableAddress | api/api.go:55-62 | in any state, an unparsable address answers 404, adds one failed request with no time to the user's record, bumps the fetch endpoint's failed metric, leaves the counters unchanged and arms nothing |
| Schedules.OverlappingFetchesOvershoot | api/api.go:64-106 | two fetches by one user that overlap are both admitted at one below the limit, and leave the counter at the limit plus one |
| Api.Api.constructor | main.go:18-20 | the object starts with empty maps, no metrics and no pending reset |
| Api.Api.GetOrCreate | api/api.go:228-236 | returns the user's record, creating a zero record in place if absent |
| Api.Api.UpdateStats | api/api.go:238-255 | updates the map and the metrics in place as Handlers.UpdateStats says |
| Api.Api.UserLimitExceeded | api/api.go:183-226 | decides and updates in place as Handlers.UserLimitExceeded says for the resolved limit; keeps the class invariant; an admitted call leaves a reset pending, adding the user only when it arms one |
| Api.Api.FireReset | api/api.go:215-222 | can only fire a pending reset; it clears the window, unschedules the reset and keeps the class invariant |
| Api.Api.GetAddress | api/api.go:53-110 | performs in place what Handlers.GetAddress says, with the limit resolved from the setting; keeps the class invariant |
| Api.Api.Fetch | api/api.go:70-109 | after admission, records the fetch outcome, bumps the metric and raises the counter in place as the rest of Handlers.GetAddress says; keeps the class invariant |
| Api.Api.ShowUserStats | api/api.go:112-142 | answers and bumps the metric in place as Handlers.ShowUserStats says |
| Api.Api.ShowAllStats | api/api.go:144-169 | sums with SumStats and answers and bumps the metric as Handlers.ShowAllStats says |

## Left out

- Network and HTTP I/O: `url.ParseRequestURI`, `http.Get`, `io.ReadAll`, the clock and the
  slicing of the `address` parameter are summarised by the `Attempt` value that `GetAddress` receives.
  The response texts, headers and `resp.Body.Close()` are not modelled.
- JSON encoding: only its observable effects are kept. A failed `json.Marshal` of the elapsed time is the abstract `MarshalError`.
  For the stats endpoints, a NaN or infinite average makes the encoding fail. Other encoding failures cannot occur for those records.
- Concurrency: goroutines, `time.After`, `sync.Mutex` and the races between handlers are not modelled.
  Each handler is one atomic step. A pending reset may fire between any two steps, so the one-minute delay itself is not modelled.
- Schedules.RunInvariants: the quota bound holds only for requests that do not overlap. It is proved for schedules of whole requests.
  In the program, `http.Get` has no timeout and separates admission (api/api.go:64) from the counter increment (api/api.go:104-106).
  Two overlapping requests of one user at one below the limit both pass the check and leave the counter one above it (`Schedules.OverlappingFetchesOvershoot`).
  A reset that fires during a slow fetch is not modelled either. The fetch that completes afterwards counts against the new window.
- Handlers.GetAddress: its quota clause assumes no other request of the same user runs between admission and completion. It shares the limit of the previous line.
- Floating point: elapsed times and their sums are exact non-negative reals, and the average is exact real division.
  float64 rounding and the summation order of map iteration do not appear.
- Integer width: request counts and counters are unbounded naturals. Go's 64-bit `int` wrap-around of these counters is not modelled.
  The limit itself keeps the 64-bit range that `strconv.Atoi` enforces.
- `os.Getenv`: the value of `REQUESTS_PER_MINUTE_LIMIT` is a parameter of `UserLimitExceeded` and `GetAddress`.
- Prometheus registration and exposition (main.go:15-16, 26): the two counter vectors are maps from endpoint label to count.
- Router wiring and server start-up in main.go, and the response struct shapes in api/responses.go beyond the stats body.
- Pointers: `*UserModel` and `*UpdatingCounter` values are held directly in the maps. Entries are never deleted or replaced, so no aliasing is lost.

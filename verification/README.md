# A verified model of the messaging core of sabasm/messaging

This project models the core of the TypeScript messaging library. The library
puts a common interface in front of two kinds of transport, RabbitMQ (AMQP) and
HTTP APIs. The model covers:

- the resilience helpers: the circuit breaker, the retry loop, the rate
  limiter and the message transformer pipeline;
- the two AMQP connection managers, with their single-flight connection cache;
- the middleware chain and its validation, headers and "processed" middleware,
  together with the message schema;
- the messaging context, which switches between a primary and a fallback
  strategy;
- the transports:
  - `RabbitMqMessagingService`, the older AMQP transport, which retries each
    publish three times;
  - `RabbitMessagingService`, which opens a connection and a channel per send
    and closes them in `finally`;
  - the two HTTP `ApiMessagingService`s and `ApiMessagingProvider`;
- the initialization bookkeeping of `BaseMessagingService`;
- the in-memory `BaseMonitoringService` metric store.

How the model represents the outside world:

- Each call on the outside world becomes a parameter that says how the call
  settles. This covers the broker, the HTTP client, the transformers and the
  operation a breaker or a retry loop runs. The settlement is an
  `Outcome<T> = Ok(value) | Fail(thrown)`, or a function from the attempt
  number to such an outcome.
- Clock readings are parameters.
- Waits are recorded as a sequence of delays instead of being slept.
- Every call a component makes on its monitoring service is recorded, in
  order, as a `Metric` value.
- The `Monitoring` module replays such logs into the metric store. Lemmas there
  show that a log of n increments reads back as n.

Objects whose fields the source updates in place are Dafny classes. Their
methods' postconditions tie the new state to a pure step function of the old
state, and the properties are proved as lemmas about those step functions.
Examples are the breaker, the connection managers, the middleware chain, the
transports, the rate limiter, the metric store and the transformer registry.
Loops in the source are methods with loop invariants, proved against a
recursive specification function: `withRetry`, every `sendWithRetry`, the
batch loops and the chain's `executeChain`.

The model follows the code in these behaviours, which differ from the usual
circuit-breaker and connection-cache designs (source lines cited in the table):

- The breaker counts failures cumulatively: a success while CLOSED does not
  reset them.
- While HALF_OPEN, the breaker admits every call, not exactly one probe.
- A HALF_OPEN failure reopens the breaker only because `failures` is still at
  the threshold.
- The newer connection manager does not always keep a single physical attempt
  in flight. See Findings.

## Model

| member | source | states |
|---|---|---|
| CircuitBreaker.ConfigDefaults | src/core/services/circuit-breaker.service.ts:14-19 | each missing option defaults on its own (failureThreshold 5, resetTimeout 60000, halfOpenSuccess 2, monitorInterval 5000); each given option is kept |
| CircuitBreaker.InitialInv | src/core/services/circuit-breaker.service.ts:21-26 | the initial state (CLOSED, 0 failures, no last failure, successCount 0) satisfies the breaker invariant |
| CircuitBreaker.RejectedIffBlocked | src/core/services/circuit-breaker.service.ts:29-32 | the operation is not invoked iff the breaker is OPEN and not past its timeout; the call then fails with "Circuit breaker is OPEN" and the state is unchanged |
| CircuitBreaker.ResetTimeoutIsStrict | src/core/services/circuit-breaker.service.ts:45-53 | exactly `resetTimeout` ms after the last failure a call is still refused; one ms later it is admitted |
| CircuitBreaker.AdmittedCallPassesThrough | src/core/services/circuit-breaker.service.ts:34-41 | an admitted call returns the operation's own result or error; a failure adds one to `failures` and records the failure time; a success while CLOSED changes nothing |
| CircuitBreaker.ExecutePreservesInv | src/core/services/circuit-breaker.service.ts:29-79 | every `execute` keeps the invariant: outside CLOSED the failure count is at the threshold and a failure time is known; CLOSED has no success count |
| CircuitBreaker.ProbeFailureReopens | src/core/services/circuit-breaker.service.ts:70-78 | any failure of an admitted call while not CLOSED returns the breaker to OPEN with the new failure time |
| CircuitBreaker.ExecuteReportsPhase | src/core/services/circuit-breaker.service.ts:44-79 | after any `execute`, the last `circuit_breaker_state` gauge it emitted (or, if none, the phase before) is the phase the breaker is left in |
| CircuitBreaker.TripIffReopened | src/core/services/circuit-breaker.service.ts:70-78 | a call counts a trip exactly when it is admitted, fails and leaves the breaker OPEN; a refused call emits nothing |
| CircuitBreaker.GaugeTracksPhase | src/core/services/circuit-breaker.service.ts:29-79 | over any sequence of calls, the state gauge shows the phase the breaker is in |
| CircuitBreaker.ClosedCountsEveryFailure | src/core/services/circuit-breaker.service.ts:58-79 | while below the threshold, the breaker stays CLOSED and `failures` is the old count plus every failed call so far; successes do not reset it |
| CircuitBreaker.TripsAtThreshold | src/core/services/circuit-breaker.service.ts:74-78 | the failure that brings the cumulative count to `failureThreshold` opens the breaker |
| CircuitBreaker.ProbeSuccessesClose | src/core/services/circuit-breaker.service.ts:59-66 | in HALF_OPEN, `halfOpenSuccess - successCount` successes close the breaker with both counters reset; one fewer leaves it HALF_OPEN |
| CircuitBreaker.ProbeCountSurvivesReopen | src/core/services/circuit-breaker.service.ts:45-51 | as written: after a HALF_OPEN failure, the next half-open period closes after a single success when halfOpenSuccess is 2 |
| CircuitBreaker.FixedPeriodNeedsAllProbes | src/core/services/circuit-breaker.service.ts:45-66 | corrected gate: an expired OPEN breaker needs all `halfOpenSuccess` successes to close; fewer leave it HALF_OPEN |
| CircuitBreaker.FixedHalfOpenRun | src/core/services/circuit-breaker.service.ts:58-67 | corrected gate: within a half-open period, successes close the breaker exactly when the count reaches `halfOpenSuccess` |
| CircuitBreaker.Breaker.constructor | src/core/services/circuit-breaker.service.ts:10-27 | the configuration is the defaulted options, the state is the initial one, and no monitoring call has been made |
| CircuitBreaker.Breaker.IsOpen | src/core/services/circuit-breaker.service.ts:44-56 | the answer and the new fields are those of the gate step (OPEN to HALF_OPEN on a strict timeout); the log gains the HALF_OPEN state gauge (value 1) exactly on that move |
| CircuitBreaker.Breaker.OnSuccess | src/core/services/circuit-breaker.service.ts:58-68 | the fields become the success step of the old state; the log gains the CLOSED state gauge (value 0) exactly when the success closes a HALF_OPEN breaker |
| CircuitBreaker.Breaker.OnFailure | src/core/services/circuit-breaker.service.ts:70-79 | the fields become the failure step of the old state at the given time; when the count reaches the threshold the log gains the OPEN state gauge (value 2) and then `circuit_breaker_trips` |
| CircuitBreaker.Breaker.Execute | src/core/services/circuit-breaker.service.ts:29-42 | the result, whether the operation ran, the new fields and the monitoring calls appended to the log are those of the execute step |
| Attempts.Settling | src/RabbitMqMessagingService.ts:59-74 | a loop of at most `limit` tries stops at the first success or at the last try, and every earlier try failed |
| Attempts.AttemptsMade | src/providers/api.provider.ts:92-101 | `for (attempt = 1; attempt <= retryCount; ...)` makes no try when retryCount < 1, otherwise between 1 and retryCount tries, ending at the first success or the last try |
| Retry.Normalize | src/core/services/retry.service.ts:14 | an `Error` is kept; any other thrown value becomes a plain error without cause whose message is `String(value)`, "undefined" for `undefined` |
| Retry.UnitFactorIsConstant | src/core/services/retry.service.ts:26 | with backoff factor 1, every delay equals `delayMs` |
| Retry.BackoffGrows | src/core/services/retry.service.ts:26 | with a factor of at least 1, delays never shrink from one attempt to the next |
| Retry.WithRetry | src/core/services/retry.service.ts:3-32 | at most `maxAttempts` invocations; none and `undefined` thrown when it is below 1; the first success is returned as is; every earlier invocation failed retryably; a failure is the last normalised error, thrown because it is not retryable or the attempts ran out; one `onRetry(error, k)` and one delay `delayMs * factor^(k-1)` per failed attempt that is followed by another |
| Retry.TwoFailuresThenSuccess | src/core/services/retry.service.ts:10-29 | policy (3, 1000 ms, factor 1) against two failures then a success: three invocations, two `onRetry` calls, 2000 ms waited |
| Base.CauseOf | src/infrastructure/amqp/connection.ts:30 | the recorded cause is present exactly when an `Error` was thrown |
| AmqpConnection.CreateChannel | src/infrastructure/amqp/connection.ts:34-47 | prefetch is applied iff the channel was created and `prefetchCount` is truthy; success returns the channel; any failure is RetryableError "Failed to create channel" with the cause |
| AmqpConnection.InitConnection | src/infrastructure/amqp/connection.ts:74-95 | succeeds iff connect, channel and (when truthy) prefetch succeed, with the pair of handles; every failure is RetryableError "Failed to establish RabbitMQ connection" whose cause is the first failing step's `Error` (connect, then channel, then prefetch), or none; the older manager's `connect` (src/infrastructure/amqp/messaging.service.ts:49-71) has the same steps and wrapping and is modelled by the same function |
| AmqpConnection.ConnectError | src/infrastructure/amqp/connection.ts:26-31 | the error is always retryable: a RetryableError passes through unchanged; anything else is wrapped as "Connection failed" with its cause |
| AmqpConnection.Connect | src/infrastructure/amqp/connection.ts:22-32 | succeeds iff the attempt did, returning its connection; failures are retryable |
| AmqpConnection.ConnectKeepsAttemptError | src/infrastructure/amqp/connection.ts:26-29 | a failed attempt reaches the caller of `connect` with its own error |
| AmqpConnection.CachedHandleIsReused | src/infrastructure/amqp/connection.ts:50-52 | a valid cached handle is returned without any state change, so repeated calls give the same handle |
| AmqpConnection.CallersJoinPendingAttempt | src/infrastructure/amqp/connection.ts:54-56 | while an attempt is pending, callers receive that attempt and nothing changes |
| AmqpConnection.SettlementUpdatesCache | src/infrastructure/amqp/connection.ts:58-69 | a success caches the handle and clears `connecting`; after a failure the next request starts a fresh attempt |
| AmqpConnection.DisconnectForcesReconnect | src/infrastructure/amqp/connection.ts:114-118 | after a close or error event the next request starts a new physical attempt |
| AmqpConnection.RunKeepsInv | src/infrastructure/amqp/connection.ts:49-72 | every interleaving of requests, settlements and events keeps the bookkeeping invariant (a pending attempt is in flight while connecting) |
| AmqpConnection.StaleCloseBreaksSingleFlight | src/infrastructure/amqp/connection.ts:97-118 | as written: the error and close events of one connection, with requests in between, leave two physical attempts in flight |
| AmqpConnection.StepFixedKeepsSingleFlight | src/infrastructure/amqp/connection.ts:114-118 | corrected disconnect (drop only the handle): each step keeps at most one attempt in flight, and it is the pending one |
| AmqpConnection.FixedKeepsSingleFlight | src/infrastructure/amqp/connection.ts:49-72 | corrected disconnect: every interleaving keeps at most one physical attempt in flight |
| AmqpConnection.ConnectionManager.constructor | src/infrastructure/amqp/connection.ts:13-20 | no handle, not connecting, no pending attempt |
| AmqpConnection.ConnectionManager.GetConnection | src/infrastructure/amqp/connection.ts:49-72 | reply and new fields are the `getConnection` step: cached handle, joined attempt, or a new attempt |
| AmqpConnection.ConnectionManager.AttemptResolved | src/infrastructure/amqp/connection.ts:60-64 | fields become the success step: handle cached, `connecting` cleared |
| AmqpConnection.ConnectionManager.AttemptRejected | src/infrastructure/amqp/connection.ts:65-69 | fields become the failure step: `connecting` and the pending attempt cleared |
| AmqpConnection.ConnectionManager.HandleDisconnect | src/infrastructure/amqp/connection.ts:114-118 | handle, flag and pending attempt are cleared |
| AmqpLegacyConnection.NewerCheckIsStricter | src/infrastructure/amqp/messaging.service.ts:74-80 | the older validity check ignores the channel: what the newer accepts it accepts, and a handle with a null channel separates them |
| AmqpLegacyConnection.DisconnectReconnects | src/infrastructure/amqp/messaging.service.ts:82-85 | after an event the handle is dropped and exactly one attempt is in flight: the pending one if any, else a new one |
| AmqpLegacyConnection.LegacyStepKeepsSingleFlight | src/infrastructure/amqp/messaging.service.ts:23-46 | each request, settlement or event keeps at most one attempt in flight |
| AmqpLegacyConnection.RunKeepsSingleFlight | src/infrastructure/amqp/messaging.service.ts:23-85 | the older manager keeps at most one physical attempt in flight under every interleaving |
| AmqpLegacyConnection.ConnectionManager.constructor | src/infrastructure/amqp/messaging.service.ts:11-21 | no handle, not connecting, no pending attempt |
| AmqpLegacyConnection.ConnectionManager.GetConnection | src/infrastructure/amqp/messaging.service.ts:23-46 | reply and new fields are the older `getConnection` step |
| AmqpLegacyConnection.ConnectionManager.AttemptResolved | src/infrastructure/amqp/messaging.service.ts:34-38 | handle cached, `connecting` cleared |
| AmqpLegacyConnection.ConnectionManager.AttemptRejected | src/infrastructure/amqp/messaging.service.ts:39-43 | `connecting` and the pending attempt cleared |
| AmqpLegacyConnection.ConnectionManager.HandleDisconnect | src/infrastructure/amqp/messaging.service.ts:82-85 | handle dropped and a connection requested again at once |
| Middleware.IsoString | src/middleware/implementation/headers.middleware.ts:16 | `toISOString` of a valid date is at least 24 characters long (the fields it shows are those of `FieldsOf`, whose properties follow) |
| Middleware.FieldsOf | src/middleware/implementation/headers.middleware.ts:16 | the UTC fields of a time value: month 1..12, day 1..31, hour below 24, minute and second below 60, millisecond below 1000 |
| Middleware.EraBounds | src/middleware/implementation/headers.middleware.ts:16 | within a 400-year era the year of era lies in 0..399 and the day of year in 0..365 |
| Middleware.CivilRoundTrip | src/middleware/implementation/headers.middleware.ts:16 | the reference inverse `DaysFromCivil` maps the rendered year, month and day back to the day number |
| Middleware.FieldsDetermineTime | src/middleware/implementation/headers.middleware.ts:16 | the rendered fields give the time value back, so distinct times never render the same fields |
| Middleware.EpochIsoString | src/middleware/implementation/headers.middleware.ts:16 | time 0 renders as "1970-01-01T00:00:00.000Z" |
| Middleware.ValidationError | src/middleware/implementation/validation.middleware.ts:13 | the thrown error is a plain `Error` without cause whose message starts with "Message validation failed: " |
| Middleware.Apply | src/middleware/implementation/validation.middleware.ts:10-15 | validation passes iff the message satisfies the schema, an Invalid Date failing it, and then leaves the message unchanged; otherwise it throws the validation error of the message's issues; the headers action stamps a valid date and throws "Invalid time value" on an Invalid Date; the processed action always succeeds |
| Middleware.HeadersProperties | src/middleware/implementation/headers.middleware.ts:10-21 | headers map `x-message-id`, `x-timestamp` (ISO string) and `x-destination`; other headers and metadata fields, id, payload and timestamp are kept; missing objects are created; applying twice equals once |
| Middleware.MergeKeepsRest | src/middleware/implementation/headers.middleware.ts:11-14 | the merge adds only the `headers` key and keeps every other metadata field |
| Middleware.MergeStamps | src/middleware/implementation/headers.middleware.ts:14-18 | after the merge the three stamped names hold the new values, and other existing headers keep theirs |
| Middleware.MergeIdempotent | src/middleware/implementation/headers.middleware.ts:14-18 | merging the same headers twice equals merging once |
| Middleware.MergeKeepsValidity | src/config/validation.ts:7-15 | adding headers to metadata that satisfies the schema keeps it valid |
| Middleware.MarkedProperties | src/middleware/implementation/basic.middleware.ts:15-19 | `processed` becomes true, missing metadata is created, other fields are kept; applying twice equals once; the schema verdict is that of the original message |
| Middleware.Insert | src/middleware/implementation/middleware-chain.ts:8-15 | inserting into a list sorted by non-increasing priority (missing as 0) gives a sorted permutation of the list plus the new element |
| Middleware.SortByPriority | src/middleware/implementation/middleware-chain.ts:13-15 | the result is sorted by non-increasing priority and is a permutation of the input |
| Middleware.InsertIsStable | src/middleware/implementation/middleware-chain.ts:14 | among equal priorities the new element comes after those already present |
| Middleware.SortIsStable | src/middleware/implementation/middleware-chain.ts:14 | for every priority, the elements with it keep their relative order |
| Middleware.HigherPriorityFirst | src/middleware/implementation/middleware-chain.ts:14 | in a sorted list a higher priority always comes earlier |
| Middleware.ValidationComesFirst | src/middleware/implementation/validation.middleware.ts:8 | after sorting, validation (300) precedes the headers and basic middleware (100) |
| Middleware.BaseChainRunsActionsInOrder | src/middleware/base.middleware.ts:9-12 | a chain of base middlewares runs each `execute` once, in list order, passing the same context along |
| Middleware.FailureStopsChain | src/middleware/implementation/middleware-chain.ts:18-22 | a handler's error aborts the rest of the chain and propagates |
| Middleware.NotCallingNextStops | src/middleware/implementation/middleware-chain.ts:19-20 | a handler that does not call `next` stops every later handler |
| Middleware.OuterAfterSeesInner | src/middleware/implementation/middleware-chain.ts:18-21 | code after `await next()` runs on the context the inner chain produced |
| Middleware.BuiltInChain | src/middleware/implementation/middleware-chain.ts:17-23 | for every message, the built-in chain fails iff the schema rejects it, and then leaves it unchanged with the validation error, whose first issue is `timestamp` for an Invalid Date; a valid message gets its headers and then `processed` |
| Middleware.HeadersThrowOnInvalidDate | src/middleware/implementation/headers.middleware.ts:10-17 | without validation in front, an Invalid Date makes the headers middleware throw "Invalid time value" after the message's own metadata has got an object for `headers`; nothing else changes |
| Middleware.MiddlewareChain.constructor | src/middleware/implementation/middleware-chain.ts:6 | the chain starts empty |
| Middleware.MiddlewareChain.Add | src/middleware/implementation/middleware-chain.ts:8-11 | the list becomes the stable sort of old list plus new element: sorted, and a permutation of it |
| Middleware.MiddlewareChain.Execute | src/middleware/implementation/middleware-chain.ts:17-23 | the context's message and the error are those of running the chain from the first handler |
| Middleware.MiddlewareChain.ExecuteFrom | src/middleware/implementation/middleware-chain.ts:18-21 | `executeChain(index)` runs the handlers from `index` on; at the end of the list it does nothing |
| Middleware.MiddlewareChain.ExecuteCustom | src/middleware/implementation/middleware-chain.ts:18-21 | a handler with its own code around `next` gives the same result as the chain from that index |
| Middleware.MiddlewareChain.ContinueCustom | src/middleware/implementation/middleware-chain.ts:18-21 | after a custom handler's own code, the chain from the next index (when it calls `next`) and then its code after `next` |
| Middleware.MiddlewareChain.RunAfter | src/middleware/implementation/middleware-chain.ts:20 | a custom handler's code after `next` returned without error: its result, or its error with the message as it was |
| Schema.IssuesIn | src/config/validation.ts:7-15 | the metadata issues are keys that break their rule, in schema order, and there are none iff every metadata rule holds |
| Schema.NoIssuesIffValid | src/config/validation.ts:3-16 | the schema accepts a message iff it reports no issue, the `timestamp` issue of an Invalid Date included |
| Schema.IssuesAreReal | src/config/validation.ts:3-16 | a `timestamp` issue means an Invalid Date, and it is reported first; every other reported key is present in the metadata and breaks that key's rule |
| Schema.UnknownKeysIgnored | src/config/validation.ts:7-15 | metadata keys the schema does not name never change the verdict |
| Schema.PriorityBounds | src/config/validation.ts:5-8 | with a valid date, a priority is accepted iff 0 <= p <= 10 |
| Base.Restamp | src/MessagingService.ts:5-10 | the preprocessed copy keeps id, payload and metadata, and carries the new time |
| Base.RestampLastWins | src/services/base/BaseMessagingService.ts:27-32 | restamping twice equals restamping once with the later time; a restamp changes nothing iff the time is already the message's |
| Base.RestampIdentifies | src/core/services/messaging.service.ts:7-12 | two messages formatted at the same time are equal iff they agree on every other field |
| Lifecycle.Toggle | src/services/base/BaseMessagingService.ts:11-23 | `initialize`/`cleanup` set the flag, and emit one metric exactly when it changes |
| Lifecycle.MetricsAlternate | src/services/base/BaseMessagingService.ts:11-23 | over any call sequence, initialized and disposed metrics alternate, and the flag is what the last call left |
| Lifecycle.InitializeOncePerCleanup | src/services/base/BaseMessagingService.ts:11-16 | a second `initialize` emits nothing; after `cleanup`, `initialize` emits again |
| Lifecycle.BaseMessagingService.constructor | src/services/base/BaseMessagingService.ts:7-9 | not initialized, nothing reported |
| Lifecycle.BaseMessagingService.Initialize | src/services/base/BaseMessagingService.ts:11-16 | flag set; the metric is appended only if it was clear |
| Lifecycle.BaseMessagingService.Cleanup | src/services/base/BaseMessagingService.ts:18-23 | flag cleared; the metric is appended only if it was set |
| Dispatcher.Dispatch | src/MessagingContext.ts:42-56 | primary first; on its failure the fallback, if any, once, with the same arguments; success iff one of them succeeds; every failure is "Primary and fallback strategies failed" |
| Dispatcher.Lifecycle | src/MessagingContext.ts:28-40 | primary first, then the fallback if present and the primary did not throw; errors pass through unchanged |
| Dispatcher.BatchMirrorsSingle | src/MessagingContext.ts:58-72 | `sendBatch` follows the same fallback policy as `sendMessage` |
| Dispatcher.MessagingContext.constructor | src/MessagingContext.ts:12-18 | both strategies stored, no calls made |
| Dispatcher.MessagingContext.SetStrategy | src/MessagingContext.ts:20-22 | only the primary changes |
| Dispatcher.MessagingContext.SetFallbackStrategy | src/MessagingContext.ts:24-26 | only the fallback changes, to the given strategy or, for `undefined`, to none |
| Dispatcher.MessagingContext.Init | src/MessagingContext.ts:28-33 | result and calls are those of the lifecycle policy for `init` |
| Dispatcher.MessagingContext.Dispose | src/MessagingContext.ts:35-40 | result and calls are those of the lifecycle policy for `dispose` |
| Dispatcher.MessagingContext.RunLifecycle | src/MessagingContext.ts:28-40 | the shared body of `init` and `dispose` |
| Dispatcher.MessagingContext.SendMessage | src/MessagingContext.ts:42-56 | result and calls are those of the fallback policy |
| Dispatcher.MessagingContext.SendBatch | src/MessagingContext.ts:58-72 | result and calls are those of the fallback policy |
| Dispatcher.MessagingContext.Send | src/MessagingContext.ts:42-56 | the shared body of the two sends |
| Dispatcher.SwappedStrategyIsUsed | src/MessagingContext.ts:20-22 | after `setStrategy` the first call goes to the new primary, and none to the old one |
| Dispatcher.ClearedFallbackIsNotCalled | src/MessagingContext.ts:24-26 | after `setFallbackStrategy(undefined)`, a send calls the primary alone and a primary failure rejects with "Primary and fallback strategies failed" |
| ApiServices.SendWithRetry | src/ApiMessagingService.ts:51-68 | one post per attempt, with single messages restamped per attempt and batches posted as given; never more than the retry count; a wait of k seconds after failed attempt k when another follows |
| ApiServices.RetryAccounting | src/ApiMessagingService.ts:54-67 | with three attempts: success iff one of them succeeds; a failure is the third attempt's own error after three posts; one `messages_failed` per failed attempt and one `messages_sent` on success |
| ApiServices.PostWithRetry | src/services/messaging/ApiMessagingService.ts:39-52 | the loop's result, posts, metrics and waits are those of the retry specification |
| ApiServices.ApiMessagingService.constructor | src/ApiMessagingService.ts:11-19 | not initialized; nothing posted or reported |
| ApiServices.ApiMessagingService.Init | src/ApiMessagingService.ts:21-26 | flag set; `api_provider_initialized` reported only if it was clear |
| ApiServices.ApiMessagingService.Dispose | src/ApiMessagingService.ts:28-33 | flag cleared; `api_provider_disposed` reported only if it was set |
| ApiServices.ApiMessagingService.SendMessage | src/ApiMessagingService.ts:35-40 | initializes if needed, then the retry specification for one message |
| ApiServices.ApiMessagingService.SendBatch | src/ApiMessagingService.ts:42-49 | initializes if needed; an empty batch posts nothing; otherwise the batch is posted with retries |
| ApiServices.ApiMessagingService.SendWithRetryInPlace | src/ApiMessagingService.ts:51-68 | the recorded posts, metrics and waits grow by the retry specification's |
| ApiServices.ApiService.constructor | src/services/messaging/ApiMessagingService.ts:13-22 | service name "api", not initialized, nothing reported |
| ApiServices.ApiService.SendMessage | src/services/messaging/ApiMessagingService.ts:24-27 | base `initialize`, then the retry specification for one message |
| ApiServices.ApiService.SendBatch | src/services/messaging/ApiMessagingService.ts:29-34 | base `initialize`; an empty batch posts nothing; otherwise the batch is posted with retries |
| ApiServices.ApiService.Send | src/services/messaging/ApiMessagingService.ts:36-53 | the recorded posts, metrics and waits grow by the retry specification's |
| ApiProvider.InitDisposeProperties | src/providers/api.provider.ts:48-73 | `init` succeeds iff already initialized or a base URL is set; a second `init` does nothing; a failure leaves the state; the health check runs only while initialized; `dispose` always returns to the initial state |
| ApiProvider.RetryFromShape | src/providers/api.provider.ts:89-102 | from try k: one post per try up to the first success or the last try; each try reported; a wait of `retryDelay * j` after failed try j when another follows; settles as the try it stopped at |
| ApiProvider.RetryOutcome | src/providers/api.provider.ts:89-102 | success iff some try within `retryCount` succeeds, or none is configured; a failure is the last try's error after `retryCount` posts; the posts, reports and linear waits match |
| ApiProvider.RetryLoop | src/providers/api.provider.ts:92-101 | the loop's result, posts, metrics and waits are those of the retry specification |
| ApiProvider.Results | src/providers/api.provider.ts:86 | each batch message settles as its own retried send |
| ApiProvider.FirstFailureIsFirst | src/providers/api.provider.ts:86 | a list of sends fails iff one does, with the first failure's error |
| ApiProvider.BatchSettlesAsFirstFailure | src/providers/api.provider.ts:82-87 | a batch settles as its first failing message, after trying every message with its own tries |
| ApiProvider.ApiMessagingProvider.constructor | src/providers/api.provider.ts:11-21 | the configuration is kept; not initialized, no health check, nothing recorded |
| ApiProvider.ApiMessagingProvider.Init | src/providers/api.provider.ts:48-73 | result, state and reported gauges are those of the init step |
| ApiProvider.ApiMessagingProvider.Dispose | src/providers/api.provider.ts:104-120 | the state becomes initial; both gauges drop to 0 |
| ApiProvider.ApiMessagingProvider.SendMessage | src/providers/api.provider.ts:75-80 | initializes if needed; an init failure is returned with nothing posted; otherwise the retry specification |
| ApiProvider.ApiMessagingProvider.SendBatch | src/providers/api.provider.ts:82-87 | initializes if needed; then every message is sent with its own tries, settling as the first failure |
| ApiProvider.ApiMessagingProvider.SendEach | src/providers/api.provider.ts:86 | the record grows by the batch specification, and the result is its first failure |
| ApiProvider.ApiMessagingProvider.SendWithRetry | src/providers/api.provider.ts:89-102 | the record grows by one retried send, posted to the destination |
| RabbitMq.ConnectStep | src/RabbitMqMessagingService.ts:24-41 | a success holds both handles and keeps any already held; a failure drops both and is the connect or channel-creation error |
| RabbitMq.ConnectIsCached | src/RabbitMqMessagingService.ts:26-35 | once connected, `connect` opens nothing more, whatever the broker would answer |
| RabbitMq.CloseStep | src/RabbitMqMessagingService.ts:110-119 | closes the channel and then the connection, each if held; success forgets both; a failing channel close stops there |
| RabbitMq.MetadataField | src/RabbitMqMessagingService.ts:55-56 | `metadata?.key` is undefined without metadata, and the stored value otherwise |
| RabbitMq.PublishOf | src/RabbitMqMessagingService.ts:52-57 | the published content is the restamped message; priority and `x-delay` come from its metadata |
| RabbitMq.Settle | src/RabbitMqMessagingService.ts:61-66 | a try succeeds iff `sendToQueue` returns true; false becomes "Failed to send message"; a thrown error passes |
| RabbitMq.TriesOutcome | src/RabbitMqMessagingService.ts:59-74 | success iff one of three tries succeeds; a failure is the third try's error; one `messages_sent` on success and one `messages_failed` per failed try; waits of k seconds |
| RabbitMq.TriesFromCounts | src/RabbitMqMessagingService.ts:63-68 | from any try on, every try is reported once, as sent or as failed |
| RabbitMq.BatchPublishedIffAll | src/RabbitMqMessagingService.ts:83-107 | a batch succeeds iff every message's tries succeed |
| RabbitMq.BatchFailsAsFirstFailure | src/RabbitMqMessagingService.ts:99-103 | a batch fails with the error of its first failing message |
| RabbitMq.BatchSendsStopAtFailure | src/RabbitMqMessagingService.ts:83-107 | nothing after the first failing message is published |
| RabbitMq.TryLoop | src/RabbitMqMessagingService.ts:59-74 | the loop's result, publishes, metrics and waits are those of the tries specification |
| RabbitMq.RabbitMqMessagingService.constructor | src/RabbitMqMessagingService.ts:10-22 | nothing held, nothing recorded |
| RabbitMq.RabbitMqMessagingService.Connect | src/RabbitMqMessagingService.ts:24-41 | the held handles become those of the connect step |
| RabbitMq.RabbitMqMessagingService.OnConnectionError | src/RabbitMqMessagingService.ts:28-31 | both handles are dropped |
| RabbitMq.RabbitMqMessagingService.SendMessage | src/RabbitMqMessagingService.ts:47-75 | a connect or queue failure is returned with nothing published; otherwise the queue is declared and the tries specification runs |
| RabbitMq.RabbitMqMessagingService.SendBatch | src/RabbitMqMessagingService.ts:77-108 | the same, with every message published in order with its own tries, stopping at the first failure |
| RabbitMq.RabbitMqMessagingService.PublishEach | src/RabbitMqMessagingService.ts:83-107 | the record grows by the batch specification |
| RabbitMq.RabbitMqMessagingService.PublishOne | src/RabbitMqMessagingService.ts:84-106 | the record grows by one message's tries |
| RabbitMq.RabbitMqMessagingService.Close | src/RabbitMqMessagingService.ts:110-119 | result and held handles are those of the close step |
| Base.MessageOr | src/services/messaging/RabbitMessagingService.ts:53 | the text is the error's message, or the given fallback for anything else that was thrown ("Unknown error" here, "unknown" in the API provider's `handleError`) |
| RabbitMessaging.FirstThrow | src/services/messaging/RabbitMessagingService.ts:43-47 | the first message whose `sendToQueue` throws, or the list length when none does |
| RabbitMessaging.TryBlock | src/services/messaging/RabbitMessagingService.ts:38-51 | a handle is held iff it was obtained; messages are handed over in order up to and including the first that throws |
| RabbitMessaging.Catch | src/services/messaging/RabbitMessagingService.ts:52-55 | a failure is counted as `connection_errors` with its text and rethrown wrapped with the queue name |
| RabbitMessaging.Finally | src/services/messaging/RabbitMessagingService.ts:56-59 | the channel is closed first, then the connection, each if held; a failing close replaces the outcome |
| RabbitMessaging.ProcessSucceeds | src/services/messaging/RabbitMessagingService.ts:33-60 | a send succeeds iff connect, channel, queue, every `sendToQueue` and both closes succeed |
| RabbitMessaging.ProcessDeliversAll | src/services/messaging/RabbitMessagingService.ts:38-51 | on success every message is handed over; channel then connection are closed; one `messages_sent` per message; one `batches_sent` for a batch |
| RabbitMessaging.TryDeliversAll | src/services/messaging/RabbitMessagingService.ts:38-51 | when nothing throws, the `try` block holds both handles, hands over every message and reports as above |
| RabbitMessaging.FailureIsWrappedAndCounted | src/services/messaging/RabbitMessagingService.ts:52-55 | when the closes succeed, every failure is the wrapped error, after a `connection_errors` with the cause's text |
| RabbitMessaging.HandlesAreClosed | src/services/messaging/RabbitMessagingService.ts:56-59 | every handle obtained is closed, the channel first, unless closing the channel throws; nothing is closed without a connection |
| RabbitMessaging.RabbitMessagingService.constructor | src/services/messaging/RabbitMessagingService.ts:12-21 | service name "rabbitmq", not initialized, nothing recorded |
| RabbitMessaging.RabbitMessagingService.SendMessage | src/services/messaging/RabbitMessagingService.ts:23-26 | base `initialize`, then `processMessages` of the one message as a non-batch |
| RabbitMessaging.RabbitMessagingService.SendBatch | src/services/messaging/RabbitMessagingService.ts:28-31 | base `initialize`, then `processMessages` of the batch |
| RabbitMessaging.RabbitMessagingService.ProcessMessages | src/services/messaging/RabbitMessagingService.ts:33-60 | result, handed-over messages, metrics and closes are those of the process specification |
| RabbitMessaging.RabbitMessagingService.TryPart | src/services/messaging/RabbitMessagingService.ts:38-51 | the `try` block's handles, failure, messages and metrics |
| RabbitMessaging.RabbitMessagingService.CloseHandles | src/services/messaging/RabbitMessagingService.ts:56-59 | the `finally` block's result and closes |
| RabbitMessaging.RabbitMessagingService.SendEach | src/services/messaging/RabbitMessagingService.ts:43-51 | messages handed over up to the first throw; one `messages_sent` each; `batches_sent` with the count when a batch completes |
| Monitoring.BeforeIrreflexive | src/core/services/monitoring.service.ts:34 | the label-name order is irreflexive |
| Monitoring.BeforeAsymmetric | src/core/services/monitoring.service.ts:34 | the label-name order is asymmetric |
| Monitoring.BeforeTotal | src/core/services/monitoring.service.ts:34 | any two distinct names are ordered |
| Monitoring.BeforeTransitive | src/core/services/monitoring.service.ts:34 | the label-name order is transitive |
| Monitoring.Present | src/core/services/monitoring.service.ts:33 | exactly the labels with a defined value are kept, with their multiplicities |
| Monitoring.PresentKeepsDistinct | src/core/services/monitoring.service.ts:32-33 | filtering keeps label names distinct |
| Monitoring.Insert | src/core/services/monitoring.service.ts:34 | insertion adds exactly the new label |
| Monitoring.SortByName | src/core/services/monitoring.service.ts:34 | sorting is a permutation |
| Monitoring.SortByNameSorted | src/core/services/monitoring.service.ts:32-34 | labels with distinct names come out strictly sorted by name |
| Monitoring.SortedUnique | src/core/services/monitoring.service.ts:34 | two strictly sorted permutations of each other are equal |
| Monitoring.Render | src/core/services/monitoring.service.ts:35-36 | the rendering is empty iff there are no labels |
| Monitoring.MetricKey | src/core/services/monitoring.service.ts:30-38 | the key is the bare name iff no labels are passed or none is defined; otherwise it extends the name |
| Monitoring.MetricKeyOrderFree | src/core/services/monitoring.service.ts:30-38 | the key does not depend on the order in which the label entries are listed |
| Monitoring.SortedPresentOrderFree | src/core/services/monitoring.service.ts:32-34 | filtering then sorting gives the same list for any order of the entries |
| Monitoring.PresentOrderFree | src/core/services/monitoring.service.ts:32-33 | filtering commutes with reordering, up to permutation |
| Monitoring.SetSlot | src/core/services/monitoring.service.ts:40-45 | the slot is set; other slots of the key and other keys are unchanged |
| Monitoring.ApplyCounts | src/core/services/monitoring.service.ts:9-13 | one call adds one to a key's count exactly when it is an increment of that key; gauges and histograms leave counts |
| Monitoring.ReplayCounts | src/core/services/monitoring.service.ts:9-13 | a key's count after a log is its count before plus the increments landing on it |
| Monitoring.IncrementsReadBack | src/core/services/monitoring.service.ts:9-28 | n increments of a metric read back as n; every other key reads 0 |
| Monitoring.BaseMonitoringService.constructor | src/core/services/monitoring.service.ts:7 | the store starts empty |
| Monitoring.BaseMonitoringService.Increment | src/core/services/monitoring.service.ts:9-13 | the store becomes the increment step of the old store |
| Monitoring.BaseMonitoringService.Gauge | src/core/services/monitoring.service.ts:15-18 | the store becomes the gauge step (the `value` slot) |
| Monitoring.BaseMonitoringService.Histogram | src/core/services/monitoring.service.ts:20-23 | the store becomes the histogram step (the `value` slot) |
| Monitoring.BaseMonitoringService.GetMetricValue | src/core/services/monitoring.service.ts:25-28 | the count under the key, or 0 when there is none |
| Monitoring.BaseMonitoringService.SetMetricValue | src/core/services/monitoring.service.ts:40-45 | the store becomes the slot update |
| Monitoring.BaseMonitoringService.Reset | src/core/services/monitoring.service.ts:47-49 | the store is emptied |
| RateLimiter.Window | src/core/services/rate-limiter.service.ts:29-30 | the filter never lengthens the list |
| RateLimiter.WindowKeepsNewer | src/core/services/rate-limiter.service.ts:29-30 | a timestamp is kept iff it is stored and newer than the window start |
| RateLimiter.DecideOutcome | src/core/services/rate-limiter.service.ts:20-40 | a first call passes and stores [now]; later, a call passes iff fewer than `maxRequests` stored times are in the window; a pass stores those times plus now (at most `maxRequests`); a refusal keeps the list |
| RateLimiter.StoredIsWindowOfAdmitted | src/core/services/rate-limiter.service.ts:29-38 | when the stored list is the window of the admitted calls, a call's verdict counts admitted calls in its window, and the list stays such a window |
| RateLimiter.SlidingWindowLimit | src/core/services/rate-limiter.service.ts:20-40 | with a positive window and a non-decreasing clock, each admitted call has at most max(`maxRequests`, 1) admitted calls in its window |
| RateLimiter.RateLimiterService.constructor | src/core/services/rate-limiter.service.ts:10-18 | the limits are kept; no stored requests; nothing reported |
| RateLimiter.RateLimiterService.WithDefaults | src/core/services/rate-limiter.service.ts:12-13 | window 60000 ms and 100 requests |
| RateLimiter.RateLimiterService.CheckLimit | src/core/services/rate-limiter.service.ts:20-40 | verdict and stored list follow the decision; `rate_limit_exceeded` is reported with the key on refusal; stored lists stay within the limit |
| Transformer.Received | src/core/services/message-transformer.service.ts:17-19 | the first transformer receives the message itself |
| Transformer.EmptyPipelineCopies | src/core/services/message-transformer.service.ts:15-21 | without transformers the result is the message |
| Transformer.PipelineAppend | src/core/services/message-transformer.service.ts:17-19 | running a + b is running a, then b on its result; a failure of a skips b |
| Transformer.ReceivedChain | src/core/services/message-transformer.service.ts:14-22 | each transformer receives the previous one's output; the result is Ok iff all ran and the last succeeded, and is then its output; a failure is that of the last transformer run |
| Transformer.MessageTransformerService.constructor | src/core/services/message-transformer.service.ts:8 | no transformers |
| Transformer.MessageTransformerService.RegisterTransformer | src/core/services/message-transformer.service.ts:10-12 | the transformer is appended |
| Transformer.MessageTransformerService.Transform | src/core/services/message-transformer.service.ts:14-22 | the result is the sequential fold over the registered transformers, and the messages each received are the chain above |

## Left out

- Network and broker I/O (amqplib, the HTTP client) are parameters giving how each call settles. `JSON.stringify` and `Buffer.from` are not modelled: a message is handed over as a value, and serialisation failures are not represented.
- Timers and clocks (`setTimeout`, `new Date()`, `Date.now()`) are parameters, and waits are recorded as delays. The `setInterval` health check of `ApiMessagingProvider` is modelled only as a flag; `performHealthCheck` is not modelled.
- Concurrency is not modelled. `Promise.all` in `ApiMessagingProvider.sendBatch` is modelled as sequential sends. Simultaneous `getConnection` callers are modelled as interleavings of events. The OPEN to HALF_OPEN race in the breaker is not modelled.
- Floating point is not modelled. `Math.pow(backoffFactor, k - 1)` uses a natural-number factor. Gauge and histogram values are integers.
- `localeCompare` is modelled as lexicographic code-unit order on label names. That order is a total order, but it is not the locale's collation.
- Retry.WithRetry: `onRetry` is observed through the recorded `(error, attempt)` pairs; a callback that throws is not modelled.
- Monitoring.MetricKey: a label value that is not a string (`${value}`) is not modelled; labels carry strings or undefined.
- Schema: zod's issue messages and formatting are not modelled. The validation error keeps the "Message validation failed: " prefix and puts the failing keys, each followed by ";", where zod's text would be.
- ApiProvider.ApiMessagingProvider.Dispose: the `catch` path of `dispose` is not modelled, because nothing in its body can throw once the monitoring sink and `clearInterval` are taken to succeed.
- ApiProvider: `getConfig()` is taken to succeed; a throwing configuration is not modelled. `retryCount` is an integer.
- RabbitMq.RabbitMqMessagingService.SendMessage: the `if (!this.channel) throw 'Failed to create channel'` guard is not modelled as a separate path. The connect step ensures the channel is held whenever it succeeds, so the guard cannot fire.
- AmqpLegacyConnection.ConnectionManager.HandleDisconnect: the swallowed rejection of the reconnect is the `AttemptFailed` event of that attempt.
- Error and close listeners registered on connections that are no longer cached are modelled as further `Disconnect` events. This is what makes the finding below observable.
- The `private isInitialized = false` initialiser of the newer `ApiMessagingService` is not a separate field: at run time it is the base class's own `isInitialized` property, which the initialiser sets to false after the base constructor has already done so. The model keeps the one flag of `BaseMessagingService`.
- `postProcessMessage` in src/MessagingService.ts is a no-op and is not modelled.
- Copies made by spread (`{ ...message }`) are values. Aliasing between a caller's message and the copy is not modelled.
- `metadata: null` is not distinguished from a missing `metadata`.
- Schema: a `Date` is its time value. An Invalid Date (time value NaN) is any timestamp outside the ECMAScript range of plus or minus 8.64e15 milliseconds.
- The logging middleware and the custom headers middleware are not part of this model.
- Middleware.Chain: a user-written handler's code is a function from the message to a new message or an error. A handler that changes the message in place and then throws is not modelled; its throw leaves the message as it was.
- Middleware.IsoString: the digits are shown to be decimal and the fields to lie in range and to give the time back, but reading the string itself back into fields is not proved.
- The configuration loading, the dependency-injection container and the test doubles are not part of this model.

## Findings

| source | as written | input that shows it | evidently intended | confidence | as-written member | corrected member |
|---|---|---|---|---|---|---|
| src/core/services/circuit-breaker.service.ts:45-51 | OPEN becomes HALF_OPEN without resetting `successCount`, and a HALF_OPEN failure does not reset it either, so a later half-open period starts part-way | failureThreshold 1, resetTimeout 100, halfOpenSuccess 2; calls fail at 0, succeed at 200, fail at 210, succeed at 400: the breaker closes after one success in the second half-open period | every half-open period needs `halfOpenSuccess` consecutive successes | medium, not executed | CircuitBreaker.ProbeCountSurvivesReopen | CircuitBreaker.FixedPeriodNeedsAllProbes |
| src/infrastructure/amqp/connection.ts:97-118 | a connection registers `handleDisconnect` for both 'error' and 'close'. Each event clears `connecting` and `connectionPromise`, even when they belong to a newer attempt | request; attempt 0 succeeds; its connection emits 'error'; a request starts attempt 1; the same connection emits 'close'; a request starts attempt 2 while 1 is still in flight | at most one physical connection attempt in flight (the single-flight cache of lines 54-59) | medium, not executed | AmqpConnection.StaleCloseBreaksSingleFlight | AmqpConnection.FixedKeepsSingleFlight |

The classes `CircuitBreaker.Breaker` and `AmqpConnection.ConnectionManager`
model the code as written. The corrected step functions (`CircuitBreaker.GateFixed`,
`CircuitBreaker.ExecuteFixed`, `CircuitBreaker.RunFixed`, `AmqpConnection.StepFixed`
and `AmqpConnection.RunFixed`) carry the intended properties.

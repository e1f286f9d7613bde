/** The HTTP transports: `ApiMessagingService` of src/ApiMessagingService.ts
    and its successor in src/services/messaging/ApiMessagingService.ts. Both
    post through a loop of at most three attempts with waits of k seconds; they
    differ in how the initialized flag is kept. The HTTP client is given by the
    outcome of each post, and the clock by the time of each attempt. */
module ApiServices {
  import opened Base
  import opened Attempts
  import opened Lifecycle

  datatype Payload = Single(message: Message) | Batch(messages: seq<Message>)

  /** One `httpClient.post(endpoint, data)`. */
  datatype Post = Post(endpoint: string, data: Payload)

  /** `private retryCount = 3`. */
  const RetryCount := 3

  /** `{ destination: endpoint, batch: String(isBatch) }`. */
  function SendLabels(endpoint: string, isBatch: bool): Option<seq<Label>> {
    Some([Defined("destination", endpoint), Defined("batch", if isBatch then "true" else "false")])
  }

  /** What attempt k posts: a single message restamped with that attempt's time,
      a batch as given. */
  function DataAt(payload: Payload, clock: nat -> Timestamp, k: nat): Payload {
    match payload
    case Single(m) => Single(Restamp(m, clock(k)))
    case Batch(_) => payload
  }

  /** What a `sendWithRetry` call does: how it settles, what it posts, what it
      reports and how long it waits. */
  datatype Sent = Sent(result: Outcome<()>, posts: seq<Post>, metrics: seq<Metric>, delays: seq<int>)

  /** `sendWithRetry(endpoint, payload, isBatch)` with `retryCount` attempts. */
  function SendWithRetry(endpoint: string, payload: Payload, retryCount: int,
                         post: nat -> Outcome<()>, clock: nat -> Timestamp): (r: Sent)
    // one post per attempt, each with that attempt's data, and no more than the retry count
    ensures |r.posts| == AttemptsMade(post, retryCount)
    ensures forall i :: 0 <= i < |r.posts| ==> r.posts[i] == Post(endpoint, DataAt(payload, clock, i + 1))
    // a wait of k seconds after each failed attempt k that is followed by another
    ensures r.delays == LinearWaits(1000, if |r.posts| == 0 then 0 else |r.posts| - 1)
  {
    var n := AttemptsMade(post, retryCount);
    var posts := seq(n, i requires 0 <= i => Post(endpoint, DataAt(payload, clock, i + 1)));
    var labels := SendLabels(endpoint, payload.Batch?);
    if n == 0 then Sent(Ok(()), [], [], [])
    else if post(n).Ok? then
      Sent(Ok(()), posts, Repeat(Increment("messages_failed", labels), n - 1) + [Increment("messages_sent", labels)], LinearWaits(1000, n - 1))
    else
      Sent(post(n), posts, Repeat(Increment("messages_failed", labels), n), LinearWaits(1000, n - 1))
  }

  /** With three attempts: the send succeeds exactly when one of them does; a
      failure is the last attempt's own error, after three posts; every failed
      attempt counts one `messages_failed` and a success one `messages_sent`. */
  lemma RetryAccounting(endpoint: string, payload: Payload, post: nat -> Outcome<()>, clock: nat -> Timestamp)
    ensures var r := SendWithRetry(endpoint, payload, RetryCount, post, clock);
            var labels := SendLabels(endpoint, payload.Batch?);
      && (r.result.Ok? <==> post(1).Ok? || post(2).Ok? || post(3).Ok?)
      && (r.result.Fail? ==> r.result == post(3) && |r.posts| == 3)
      && Increments(r.metrics, "messages_sent", labels) == (if r.result.Ok? then 1 else 0)
      && Increments(r.metrics, "messages_failed", labels) == |r.posts| - (if r.result.Ok? then 1 else 0)
      && |r.metrics| == |r.posts|
  {
    var r := SendWithRetry(endpoint, payload, RetryCount, post, clock);
    var labels := SendLabels(endpoint, payload.Batch?);
    var n := AttemptsMade(post, RetryCount);
    var failed := Increment("messages_failed", labels);
    var sent := Increment("messages_sent", labels);
    if post(n).Ok? {
      IncrementsAppend(Repeat(failed, n - 1), [sent], "messages_sent", labels);
      IncrementsAppend(Repeat(failed, n - 1), [sent], "messages_failed", labels);
      assert [sent][..0] == [];
      IncrementsRepeat(failed, n - 1, "messages_sent", labels);
      IncrementsRepeat(failed, n - 1, "messages_failed", labels);
    } else {
      IncrementsRepeat(failed, n, "messages_sent", labels);
      IncrementsRepeat(failed, n, "messages_failed", labels);
    }
  }

  /** The shared `for` loop of both services' `sendWithRetry`. */
  method PostWithRetry(endpoint: string, payload: Payload, retryCount: int,
                       post: nat -> Outcome<()>, clock: nat -> Timestamp)
    returns (result: Outcome<()>, posts: seq<Post>, metrics: seq<Metric>, delays: seq<int>)
    ensures Sent(result, posts, metrics, delays) == SendWithRetry(endpoint, payload, retryCount, post, clock)
  {
    var labels := SendLabels(endpoint, payload.Batch?);
    posts, metrics, delays := [], [], [];
    var attempt := 1;
    while attempt <= retryCount
      invariant 1 <= attempt && (attempt == 1 || attempt <= retryCount)
      invariant forall k :: 1 <= k < attempt ==> post(k).Fail?
      invariant posts == seq(attempt - 1, i requires 0 <= i => Post(endpoint, DataAt(payload, clock, i + 1)))
      invariant metrics == Repeat(Increment("messages_failed", labels), attempt - 1)
      invariant delays == LinearWaits(1000, attempt - 1)
    {
      var data := DataAt(payload, clock, attempt);
      posts := posts + [Post(endpoint, data)];
      var settled := post(attempt);
      if settled.Ok? {
        metrics := metrics + [Increment("messages_sent", labels)];
        assert AttemptsMade(post, retryCount) == attempt;
        return Ok(()), posts, metrics, delays;
      }
      metrics := metrics + [Increment("messages_failed", labels)];
      if attempt == retryCount {
        assert AttemptsMade(post, retryCount) == attempt;
        return settled, posts, metrics, delays;
      }
      delays := delays + [attempt * 1000];
      attempt := attempt + 1;
    }
    result := Ok(());
  }

  /** `ApiMessagingService` of src/ApiMessagingService.ts. */
  class ApiMessagingService {
    var isInitialized: bool
    var metrics: seq<Metric>
    var posts: seq<Post>
    var delays: seq<int>

    constructor ()
      ensures !isInitialized && metrics == [] && posts == [] && delays == []
    {
      isInitialized, metrics, posts, delays := false, [], [], [];
    }

    method Init()
      modifies this
      ensures isInitialized && posts == old(posts) && delays == old(delays)
      ensures metrics == old(metrics) + if old(isInitialized) then [] else [Increment("api_provider_initialized", Some([Defined("state", "init")]))]
    {
      if !isInitialized {
        metrics := metrics + [Increment("api_provider_initialized", Some([Defined("state", "init")]))];
        isInitialized := true;
      }
    }

    method Dispose()
      modifies this
      ensures !isInitialized && posts == old(posts) && delays == old(delays)
      ensures metrics == old(metrics) + if old(isInitialized) then [Increment("api_provider_disposed", Some([Defined("state", "disposed")]))] else []
    {
      if isInitialized {
        metrics := metrics + [Increment("api_provider_disposed", Some([Defined("state", "disposed")]))];
        isInitialized := false;
      }
    }

    method SendMessage(endpoint: string, message: Message, post: nat -> Outcome<()>, clock: nat -> Timestamp)
      returns (result: Outcome<()>)
      modifies this
      ensures isInitialized
      ensures var s := SendWithRetry(endpoint, Single(message), RetryCount, post, clock);
        && result == s.result && posts == old(posts) + s.posts && delays == old(delays) + s.delays
        && metrics == old(metrics)
             + (if old(isInitialized) then [] else [Increment("api_provider_initialized", Some([Defined("state", "init")]))])
             + s.metrics
    {
      if !isInitialized {
        Init();
      }
      result := SendWithRetryInPlace(endpoint, Single(message), post, clock);
    }

    method SendBatch(endpoint: string, messages: seq<Message>, post: nat -> Outcome<()>, clock: nat -> Timestamp)
      returns (result: Outcome<()>)
      modifies this
      ensures isInitialized
      ensures messages == [] ==> result == Ok(()) && posts == old(posts) && delays == old(delays)
      ensures var s := SendWithRetry(endpoint, Batch(messages), RetryCount, post, clock);
        var init := if old(isInitialized) then [] else [Increment("api_provider_initialized", Some([Defined("state", "init")]))];
        messages != [] ==>
          && result == s.result && posts == old(posts) + s.posts && delays == old(delays) + s.delays
          && metrics == old(metrics) + init + s.metrics
      ensures messages == [] ==> metrics == old(metrics) + if old(isInitialized) then [] else [Increment("api_provider_initialized", Some([Defined("state", "init")]))]
    {
      if !isInitialized {
        Init();
      }
      if |messages| > 0 {
        result := SendWithRetryInPlace(endpoint, Batch(messages), post, clock);
      } else {
        result := Ok(());
      }
    }

    method SendWithRetryInPlace(endpoint: string, payload: Payload, post: nat -> Outcome<()>, clock: nat -> Timestamp)
      returns (result: Outcome<()>)
      modifies this
      ensures isInitialized == old(isInitialized)
      ensures var s := SendWithRetry(endpoint, payload, RetryCount, post, clock);
        result == s.result && posts == old(posts) + s.posts && metrics == old(metrics) + s.metrics && delays == old(delays) + s.delays
    {
      var sentPosts, sentMetrics, waited;
      result, sentPosts, sentMetrics, waited := PostWithRetry(endpoint, payload, RetryCount, post, clock);
      posts, metrics, delays := posts + sentPosts, metrics + sentMetrics, delays + waited;
    }
  }

  /** `ApiMessagingService` of src/services/messaging/ApiMessagingService.ts,
      whose flag and metrics live in its `BaseMessagingService` part. */
  class ApiService {
    const base: BaseMessagingService
    var posts: seq<Post>
    var delays: seq<int>

    constructor ()
      ensures fresh(base) && base.serviceName == "api" && !base.isInitialized && base.metrics == []
      ensures posts == [] && delays == []
    {
      base := new BaseMessagingService("api");
      posts, delays := [], [];
    }

    method SendMessage(endpoint: string, message: Message, post: nat -> Outcome<()>, clock: nat -> Timestamp)
      returns (result: Outcome<()>)
      modifies this, base
      ensures base.isInitialized
      ensures var s := SendWithRetry(endpoint, Single(message), RetryCount, post, clock);
        && result == s.result && posts == old(posts) + s.posts && delays == old(delays) + s.delays
        && base.metrics == old(base.metrics) + Toggle(base.serviceName, old(base.isInitialized), true).1 + s.metrics
    {
      base.Initialize();
      result := Send(endpoint, Single(message), post, clock);
    }

    method SendBatch(endpoint: string, messages: seq<Message>, post: nat -> Outcome<()>, clock: nat -> Timestamp)
      returns (result: Outcome<()>)
      modifies this, base
      ensures base.isInitialized
      ensures messages == [] ==>
        && result == Ok(()) && posts == old(posts) && delays == old(delays)
        && base.metrics == old(base.metrics) + Toggle(base.serviceName, old(base.isInitialized), true).1
      ensures var s := SendWithRetry(endpoint, Batch(messages), RetryCount, post, clock);
        messages != [] ==>
          && result == s.result && posts == old(posts) + s.posts && delays == old(delays) + s.delays
          && base.metrics == old(base.metrics) + Toggle(base.serviceName, old(base.isInitialized), true).1 + s.metrics
    {
      base.Initialize();
      if |messages| > 0 {
        result := Send(endpoint, Batch(messages), post, clock);
      } else {
        result := Ok(());
      }
    }

    method Send(endpoint: string, payload: Payload, post: nat -> Outcome<()>, clock: nat -> Timestamp)
      returns (result: Outcome<()>)
      modifies this, base
      ensures base.isInitialized == old(base.isInitialized)
      ensures var s := SendWithRetry(endpoint, payload, RetryCount, post, clock);
        result == s.result && posts == old(posts) + s.posts && base.metrics == old(base.metrics) + s.metrics
        && delays == old(delays) + s.delays
    {
      var sentPosts, sentMetrics, waited;
      result, sentPosts, sentMetrics, waited := PostWithRetry(endpoint, payload, RetryCount, post, clock);
      posts, delays := posts + sentPosts, delays + waited;
      base.metrics := base.metrics + sentMetrics;
    }
  }
}

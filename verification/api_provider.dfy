/** `ApiMessagingProvider` (src/providers/api.provider.ts): the configured HTTP
    provider. `init` checks the base URL and starts the health check; each
    message is posted with a configurable number of tries and a linear delay;
    failures are counted with the error's text as a label. */
module ApiProvider {
  import opened Base
  import opened Attempts

  /** The `messaging.api` section of the configuration this provider reads. */
  datatype ApiConfig = ApiConfig(
    baseUrl: string,
    healthCheckEnabled: bool,
    healthCheckInterval: int,
    retryCount: int,
    retryDelay: int)

  /** The flag and whether a health-check interval is installed. */
  datatype ProviderState = ProviderState(initialized: bool, healthCheck: bool)

  const Initial := ProviderState(false, false)

  const InitFailedPrefix := "Failed to initialize ApiMessagingProvider: "
  const BaseUrlRequired := "API baseUrl is required"

  /** `init`: nothing when already initialized; without a base URL, the
      initialized gauge drops to 0 and a wrapped error is thrown; otherwise the
      health check starts if enabled and both gauges rise to 1. */
  function InitStep(s: ProviderState, config: ApiConfig): (r: (Outcome<()>, ProviderState, seq<Metric>))
    ensures s.initialized ==> r == (Ok(()), s, [])
    ensures !s.initialized && config.baseUrl == "" ==>
      && r.0 == Fail(ThrownError(NewError(InitFailedPrefix + BaseUrlRequired)))
      && r.1 == s
      && r.2 == [Gauge("api_provider_initialized", 0, None)]
    ensures !s.initialized && config.baseUrl != "" ==>
      && r.0 == Ok(())
      && r.1 == ProviderState(true, s.healthCheck || config.healthCheckEnabled)
      && r.2 == [Gauge("api_provider_initialized", 1, None), Gauge("api_provider_health", 1, None)]
  {
    if s.initialized then (Ok(()), s, [])
    else if config.baseUrl == "" then
      (Fail(ThrownError(NewError(InitFailedPrefix + BaseUrlRequired))), s, [Gauge("api_provider_initialized", 0, None)])
    else
      (Ok(()), ProviderState(true, s.healthCheck || config.healthCheckEnabled),
       [Gauge("api_provider_initialized", 1, None), Gauge("api_provider_health", 1, None)])
  }

  /** `dispose`: the interval is cleared, both gauges drop to 0, the flag is reset. */
  function DisposeStep(s: ProviderState): (r: (ProviderState, seq<Metric>))
    ensures r.0 == Initial
    ensures r.1 == [Gauge("api_provider_health", 0, None), Gauge("api_provider_initialized", 0, None)]
  {
    (Initial, [Gauge("api_provider_health", 0, None), Gauge("api_provider_initialized", 0, None)])
  }

  /** A health check runs only while the provider is initialized. */
  ghost predicate Inv(s: ProviderState) {
    s.healthCheck ==> s.initialized
  }

  /** `init` and `dispose` keep the health check tied to the flag; `init`
      succeeds exactly when the provider was initialized or has a base URL, and
      a second `init` does nothing and reports nothing. */
  lemma InitDisposeProperties(s: ProviderState, config: ApiConfig)
    requires Inv(s)
    ensures Inv(InitStep(s, config).1) && Inv(DisposeStep(s).0)
    ensures InitStep(s, config).0.Ok? <==> s.initialized || config.baseUrl != ""
    ensures var (r, t, _) := InitStep(s, config);
      r.Ok? ==> t.initialized && (s.initialized ==> t == s) && (!s.initialized ==> t.healthCheck == config.healthCheckEnabled)
                && InitStep(t, config).0 == Ok(()) && InitStep(t, config).1 == t && InitStep(t, config).2 == []
    ensures var (r, t, _) := InitStep(s, config);
      r.Fail? ==> t == s && !t.initialized
    ensures DisposeStep(InitStep(s, config).1).0 == Initial
  {
  }

  /** `handleError`'s label: the message of an `Error`, else "unknown". */
  function ErrorText(t: Thrown): string {
    MessageOr(t, "unknown")
  }

  function FailedMetric(t: Thrown): Metric {
    Increment("message_failed", Some([Defined("error", ErrorText(t))]))
  }

  function SentMetric(destination: string): Metric {
    Increment("message_sent", Some([Defined("destination", destination)]))
  }

  /** The monitoring call a settled try makes. */
  function Report(destination: string, o: Outcome<()>): Metric {
    if o.Ok? then SentMetric(destination) else FailedMetric(o.thrown)
  }

  /** What one `sendWithRetry` (or a whole batch) does: how it settles, which
      messages it posts, what it reports and how long it waits. */
  datatype Delivery = Delivery(result: Outcome<()>, posts: seq<Message>, metrics: seq<Metric>, delays: seq<int>)

  /** `sendWithRetry(destination, message)` where try k settles as `attempt(k)`. */
  function Retry(destination: string, message: Message, config: ApiConfig, attempt: nat -> Outcome<()>): Delivery {
    RetryFrom(destination, message, config, attempt, 1)
  }

  /** The tries from the k-th on: a success reports `message_sent` and stops;
      a failure reports its error, and is rethrown after the last try or
      followed by a wait of `retryDelay * k` and the next try. */
  function RetryFrom(destination: string, message: Message, config: ApiConfig, attempt: nat -> Outcome<()>, k: nat): Delivery
    requires k >= 1
    decreases if k <= config.retryCount then config.retryCount - k + 1 else 0
  {
    if k > config.retryCount then Delivery(Ok(()), [], [], [])
    else if attempt(k).Ok? then Delivery(Ok(()), [message], [SentMetric(destination)], [])
    else if k == config.retryCount then Delivery(attempt(k), [message], [FailedMetric(attempt(k).thrown)], [])
    else
      var rest := RetryFrom(destination, message, config, attempt, k + 1);
      Delivery(rest.result, [message] + rest.posts, [FailedMetric(attempt(k).thrown)] + rest.metrics,
               [config.retryDelay * k] + rest.delays)
  }

  /** From try k on, the loop posts the message once per try up to the first
      success or the last try, reports each try, waits `retryDelay * j` after
      each failed try j that is followed by another, and settles as the try it
      stopped at. */
  lemma RetryFromShape(destination: string, message: Message, config: ApiConfig, attempt: nat -> Outcome<()>, k: nat)
    requires 1 <= k <= config.retryCount
    ensures var r := RetryFrom(destination, message, config, attempt, k);
      var last := SettlingFrom((j: nat) => attempt(j).Ok?, k, config.retryCount);
      && r.posts == Repeat(message, last - k + 1)
      && |r.metrics| == |r.posts| && (forall i :: 0 <= i < |r.posts| ==> r.metrics[i] == Report(destination, attempt(k + i)))
      && |r.delays| == |r.posts| - 1 && (forall i :: 0 <= i < |r.delays| ==> r.delays[i] == config.retryDelay * (k + i))
      && r.result == (if attempt(last).Ok? then Ok(()) else attempt(last))
  {
    RetryFromPosts(destination, message, config, attempt, k);
    RetryFromReports(destination, message, config, attempt, k);
    RetryFromWaits(destination, message, config, attempt, k);
  }

  /** How many posts, reports and waits the tries from k on make, and how they settle. */
  lemma {:induction false} RetryFromPosts(destination: string, message: Message, config: ApiConfig, attempt: nat -> Outcome<()>, k: nat)
    requires 1 <= k <= config.retryCount
    ensures var r := RetryFrom(destination, message, config, attempt, k);
      var last := SettlingFrom((j: nat) => attempt(j).Ok?, k, config.retryCount);
      && r.posts == Repeat(message, last - k + 1)
      && |r.metrics| == |r.posts| && |r.delays| == |r.posts| - 1
      && r.result == (if attempt(last).Ok? then Ok(()) else attempt(last))
    decreases config.retryCount - k
  {
    var ok := (j: nat) => attempt(j).Ok?;
    if attempt(k).Fail? && k < config.retryCount {
      RetryFromPosts(destination, message, config, attempt, k + 1);
      RetryFromStep(destination, message, config, attempt, k);
      assert SettlingFrom(ok, k, config.retryCount) == SettlingFrom(ok, k + 1, config.retryCount);
    }
  }

  /** Try k + i is reported as it settled. */
  lemma {:induction false} RetryFromReports(destination: string, message: Message, config: ApiConfig, attempt: nat -> Outcome<()>, k: nat)
    requires 1 <= k <= config.retryCount
    ensures var r := RetryFrom(destination, message, config, attempt, k);
      forall i :: 0 <= i < |r.metrics| ==> r.metrics[i] == Report(destination, attempt(k + i))
    decreases config.retryCount - k
  {
    if attempt(k).Fail? && k < config.retryCount {
      RetryFromReports(destination, message, config, attempt, k + 1);
      RetryFromStep(destination, message, config, attempt, k);
      var r := RetryFrom(destination, message, config, attempt, k);
      var rest := RetryFrom(destination, message, config, attempt, k + 1);
      forall i | 0 < i < |r.metrics|
        ensures r.metrics[i] == Report(destination, attempt(k + i))
      {
        assert r.metrics[i] == rest.metrics[i - 1];
      }
    }
  }

  /** The wait after try k + i is `retryDelay * (k + i)`. */
  lemma {:induction false} RetryFromWaits(destination: string, message: Message, config: ApiConfig, attempt: nat -> Outcome<()>, k: nat)
    requires 1 <= k <= config.retryCount
    ensures var r := RetryFrom(destination, message, config, attempt, k);
      forall i :: 0 <= i < |r.delays| ==> r.delays[i] == config.retryDelay * (k + i)
    decreases config.retryCount - k
  {
    if attempt(k).Fail? && k < config.retryCount {
      RetryFromWaits(destination, message, config, attempt, k + 1);
      RetryFromStep(destination, message, config, attempt, k);
      var r := RetryFrom(destination, message, config, attempt, k);
      var rest := RetryFrom(destination, message, config, attempt, k + 1);
      forall i | 0 < i < |r.delays|
        ensures r.delays[i] == config.retryDelay * (k + i)
      {
        assert r.delays[i] == rest.delays[i - 1];
      }
    }
  }

  /** A try that succeeds, or the last one, posts, reports and settles the send. */
  lemma RetryFromStops(destination: string, message: Message, config: ApiConfig, attempt: nat -> Outcome<()>, k: nat)
    requires 1 <= k <= config.retryCount && (attempt(k).Ok? || k == config.retryCount)
    ensures RetryFrom(destination, message, config, attempt, k)
         == Delivery(if attempt(k).Ok? then Ok(()) else attempt(k), [message], [Report(destination, attempt(k))], [])
  {
  }

  /** A failed try that is not the last posts, reports its error and waits
      before the tries that follow it. */
  lemma RetryFromStep(destination: string, message: Message, config: ApiConfig, attempt: nat -> Outcome<()>, k: nat)
    requires 1 <= k < config.retryCount && attempt(k).Fail?
    ensures var r := RetryFrom(destination, message, config, attempt, k);
      var rest := RetryFrom(destination, message, config, attempt, k + 1);
      && r.result == rest.result && r.posts == [message] + rest.posts
      && r.metrics == [Report(destination, attempt(k))] + rest.metrics
      && r.delays == [config.retryDelay * k] + rest.delays
  {
  }

  /** A send settles well exactly when some try within the configured count
      succeeds, or when no try is configured at all (the loop never runs); a
      failure is the last try's own error after `retryCount` posts. The message
      is posted once per try, each try is reported (a failure with its error's
      text, a success as `message_sent`), and try k, when followed by another,
      by a wait of `retryDelay * k`. */
  lemma RetryOutcome(destination: string, message: Message, config: ApiConfig, attempt: nat -> Outcome<()>)
    ensures var r := Retry(destination, message, config, attempt);
      && (r.result.Ok? <==> config.retryCount < 1 || exists k :: 1 <= k <= config.retryCount && attempt(k).Ok?)
      && (r.result.Fail? ==> r.result == attempt(config.retryCount) && |r.posts| == config.retryCount)
      && r.posts == Repeat(message, AttemptsMade(attempt, config.retryCount))
      && |r.metrics| == |r.posts| && (forall i :: 0 <= i < |r.posts| ==> r.metrics[i] == Report(destination, attempt(i + 1)))
      && r.delays == LinearWaits(config.retryDelay, if |r.posts| == 0 then 0 else |r.posts| - 1)
  {
    if config.retryCount >= 1 {
      RetryFromShape(destination, message, config, attempt, 1);
      var n := AttemptsMade(attempt, config.retryCount);
      if attempt(n).Fail? {
        assert forall k :: 1 <= k <= config.retryCount ==> attempt(k).Fail?;
      }
    }
  }

  /** The `for` loop of `sendWithRetry`, reporting what it posted, reported and
      waited. */
  method RetryLoop(destination: string, message: Message, config: ApiConfig, attempt: nat -> Outcome<()>)
    returns (result: Outcome<()>, posts: seq<Message>, metrics: seq<Metric>, delays: seq<int>)
    ensures Delivery(result, posts, metrics, delays) == Retry(destination, message, config, attempt)
  {
    posts, metrics, delays := [], [], [];
    if config.retryCount < 1 {
      // the loop body never runs
      return Ok(()), posts, metrics, delays;
    }
    ghost var spec := Retry(destination, message, config, attempt);
    var k := 1;
    while k <= config.retryCount
      invariant 1 <= k <= config.retryCount
      invariant spec == Prefixed(posts, metrics, delays, RetryFrom(destination, message, config, attempt, k))
      decreases config.retryCount - k
    {
      var settled := attempt(k);
      if settled.Ok? {
        RetryFromStops(destination, message, config, attempt, k);
        PrefixedStop(posts, metrics, delays, message, SentMetric(destination), Ok(()));
        posts := posts + [message];
        metrics := metrics + [SentMetric(destination)];
        return Ok(()), posts, metrics, delays;
      }
      // handleError(error, attempt === retryCount)
      if k == config.retryCount {
        RetryFromStops(destination, message, config, attempt, k);
        PrefixedStop(posts, metrics, delays, message, FailedMetric(settled.thrown), settled);
        posts := posts + [message];
        metrics := metrics + [FailedMetric(settled.thrown)];
        return settled, posts, metrics, delays;
      }
      RetryFromStep(destination, message, config, attempt, k);
      PrefixedStep(posts, metrics, delays, message, FailedMetric(settled.thrown), config.retryDelay * k,
                   RetryFrom(destination, message, config, attempt, k + 1));
      posts := posts + [message];
      metrics := metrics + [FailedMetric(settled.thrown)];
      delays := delays + [config.retryDelay * k];
      k := k + 1;
    }
    assert false;
  }

  /** A delivery after the tries already recorded. */
  function Prefixed(posts: seq<Message>, metrics: seq<Metric>, delays: seq<int>, d: Delivery): Delivery {
    Delivery(d.result, posts + d.posts, metrics + d.metrics, delays + d.delays)
  }

  lemma PrefixedStop(posts: seq<Message>, metrics: seq<Metric>, delays: seq<int>, m: Message, metric: Metric, result: Outcome<()>)
    ensures Prefixed(posts, metrics, delays, Delivery(result, [m], [metric], []))
         == Delivery(result, posts + [m], metrics + [metric], delays)
  {
    assert delays + [] == delays;
  }

  lemma PrefixedStep(posts: seq<Message>, metrics: seq<Metric>, delays: seq<int>, m: Message, metric: Metric, w: int, d: Delivery)
    ensures Prefixed(posts, metrics, delays, Delivery(d.result, [m] + d.posts, [metric] + d.metrics, [w] + d.delays))
         == Prefixed(posts + [m], metrics + [metric], delays + [w], d)
  {
    assert posts + ([m] + d.posts) == posts + [m] + d.posts;
    assert metrics + ([metric] + d.metrics) == metrics + [metric] + d.metrics;
    assert delays + ([w] + d.delays) == delays + [w] + d.delays;
  }

  /** `sendBatch`: every message is sent with its own tries, where try k of
      message i settles as `attempt(i)(k)`; the batch fails with the first
      failing message's error. */
  function SendAll(destination: string, messages: seq<Message>, config: ApiConfig, attempt: nat -> nat -> Outcome<()>): (r: Delivery)
    decreases |messages|
  {
    if messages == [] then Delivery(Ok(()), [], [], [])
    else
      var n := |messages| - 1;
      Then(SendAll(destination, messages[..n], config, attempt), Retry(destination, messages[n], config, attempt(n)))
  }

  /** One delivery after another: the first failure wins, the rest add up. */
  function Then(prev: Delivery, last: Delivery): Delivery {
    Delivery(if prev.result.Fail? then prev.result else last.result,
             prev.posts + last.posts, prev.metrics + last.metrics, prev.delays + last.delays)
  }

  lemma SendAllStep(destination: string, messages: seq<Message>, config: ApiConfig, attempt: nat -> nat -> Outcome<()>, i: nat)
    requires i < |messages|
    ensures SendAll(destination, messages[..i + 1], config, attempt)
         == Then(SendAll(destination, messages[..i], config, attempt), Retry(destination, messages[i], config, attempt(i)))
  {
    assert messages[..i + 1][..i] == messages[..i];
  }

  /** How the messages of a batch settle on their own, in order. */
  function Results(destination: string, messages: seq<Message>, config: ApiConfig, attempt: nat -> nat -> Outcome<()>): (r: seq<Outcome<()>>)
    ensures |r| == |messages|
    ensures forall i :: 0 <= i < |messages| ==> r[i] == Retry(destination, messages[i], config, attempt(i)).result
  {
    seq(|messages|, i requires 0 <= i < |messages| => Retry(destination, messages[i], config, attempt(i)).result)
  }

  /** The first failure of a list of settled sends, or success. */
  function FirstFailure(os: seq<Outcome<()>>): Outcome<()>
    decreases |os|
  {
    if os == [] then Ok(())
    else
      var prev := FirstFailure(os[..|os| - 1]);
      if prev.Fail? then prev else os[|os| - 1]
  }

  /** A list of sends fails exactly when one of them does, with the error of
      the first that does. */
  lemma {:induction false} FirstFailureIsFirst(os: seq<Outcome<()>>)
    ensures FirstFailure(os).Fail? <==> exists i :: 0 <= i < |os| && os[i].Fail?
    ensures forall i :: 0 <= i < |os| && os[i].Fail? && (forall j :: 0 <= j < i ==> os[j].Ok?) ==> FirstFailure(os) == os[i]
    decreases |os|
  {
    if os != [] {
      var n := |os| - 1;
      FirstFailureIsFirst(os[..n]);
      assert forall i :: 0 <= i < n ==> os[..n][i] == os[i];
    }
  }

  /** Sending a batch settles as its first failing message, having tried every
      message with its own tries, whatever the others did. */
  lemma {:induction false} BatchSettlesAsFirstFailure(destination: string, messages: seq<Message>, config: ApiConfig,
                                                      attempt: nat -> nat -> Outcome<()>)
    ensures var r := SendAll(destination, messages, config, attempt);
      && r.result == FirstFailure(Results(destination, messages, config, attempt))
      && |r.posts| == Tries(messages, config, attempt)
    decreases |messages|
  {
    if messages != [] {
      var n := |messages| - 1;
      BatchSettlesAsFirstFailure(destination, messages[..n], config, attempt);
      RetryOutcome(destination, messages[n], config, attempt(n));
      assert Results(destination, messages, config, attempt)[..n] == Results(destination, messages[..n], config, attempt);
    }
  }

  /** The number of posts a batch makes: every message's own tries. */
  function Tries(messages: seq<Message>, config: ApiConfig, attempt: nat -> nat -> Outcome<()>): nat
    decreases |messages|
  {
    if messages == [] then 0
    else Tries(messages[..|messages| - 1], config, attempt) + AttemptsMade(attempt(|messages| - 1), config.retryCount)
  }

  class ApiMessagingProvider {
    const config: ApiConfig
    var isInitialized: bool
    /** Whether `healthCheckInterval` holds a running interval. */
    var healthCheck: bool
    var metrics: seq<Metric>
    /** The messages posted to `destination`, in order. */
    var posts: seq<(string, Message)>
    var delays: seq<int>

    function State(): ProviderState
      reads this
    {
      ProviderState(isInitialized, healthCheck)
    }

    constructor (config: ApiConfig)
      ensures this.config == config && State() == Initial
      ensures metrics == [] && posts == [] && delays == []
    {
      this.config := config;
      isInitialized, healthCheck := false, false;
      metrics, posts, delays := [], [], [];
    }

    method Init() returns (result: Outcome<()>)
      modifies this
      ensures var (r, t, reported) := InitStep(old(State()), config);
        result == r && State() == t && metrics == old(metrics) + reported
      ensures posts == old(posts) && delays == old(delays)
    {
      if isInitialized {
        return Ok(());
      }
      if config.baseUrl == "" {
        metrics := metrics + [Gauge("api_provider_initialized", 0, None)];
        return Fail(ThrownError(NewError(InitFailedPrefix + BaseUrlRequired)));
      }
      if config.healthCheckEnabled {
        healthCheck := true;
      }
      metrics := metrics + [Gauge("api_provider_initialized", 1, None), Gauge("api_provider_health", 1, None)];
      isInitialized := true;
      result := Ok(());
    }

    method Dispose()
      modifies this
      ensures var (t, reported) := DisposeStep(old(State()));
        State() == t && metrics == old(metrics) + reported
      ensures posts == old(posts) && delays == old(delays)
    {
      healthCheck := false;
      metrics := metrics + [Gauge("api_provider_health", 0, None), Gauge("api_provider_initialized", 0, None)];
      isInitialized := false;
    }

    method SendMessage(destination: string, message: Message, attempt: nat -> Outcome<()>) returns (result: Outcome<()>)
      modifies this
      ensures var (r, t, reported) := InitStep(old(State()), config);
        var d := Retry(destination, message, config, attempt);
        && State() == t
        && (r.Fail? ==> result == r && Record() == old(Record()).(metrics := old(metrics) + reported))
        && (r.Ok? ==> result == d.result && Record() == old(Record()).(metrics := old(metrics) + reported).Extend(destination, d))
    {
      if !isInitialized {
        result := Init();
        if result.Fail? {
          return;
        }
      }
      result := SendWithRetry(destination, message, attempt);
    }

    method SendBatch(destination: string, messages: seq<Message>, attempt: nat -> nat -> Outcome<()>) returns (result: Outcome<()>)
      modifies this
      ensures var (r, t, reported) := InitStep(old(State()), config);
        var d := SendAll(destination, messages, config, attempt);
        && State() == t
        && (r.Fail? ==> result == r && Record() == old(Record()).(metrics := old(metrics) + reported))
        && (r.Ok? ==> result == d.result && Record() == old(Record()).(metrics := old(metrics) + reported).Extend(destination, d))
    {
      if !isInitialized {
        result := Init();
        if result.Fail? {
          return;
        }
      }
      result := SendEach(destination, messages, attempt);
    }

    /** What the provider has reported, posted and waited so far. */
    function Record(): Trail
      reads this
    {
      Trail(metrics, posts, delays)
    }

    /** `Promise.all(messages.map(msg => this.sendWithRetry(destination, msg)))`,
        one message after another. */
    method SendEach(destination: string, messages: seq<Message>, attempt: nat -> nat -> Outcome<()>) returns (result: Outcome<()>)
      modifies this
      ensures var d := SendAll(destination, messages, config, attempt);
        result == d.result && State() == old(State()) && Record() == old(Record()).Extend(destination, d)
    {
      result := Ok(());
      ghost var d := Delivery(Ok(()), [], [], []);
      var i := 0;
      while i < |messages|
        invariant 0 <= i <= |messages|
        invariant d == SendAll(destination, messages[..i], config, attempt)
        invariant State() == old(State()) && result == d.result && Record() == old(Record()).Extend(destination, d)
      {
        SendAllStep(destination, messages, config, attempt, i);
        ghost var last := Retry(destination, messages[i], config, attempt(i));
        var sent := SendWithRetry(destination, messages[i], attempt(i));
        if result.Ok? {
          result := sent;
        }
        ExtendThen(old(Record()), destination, d, last);
        d := Then(d, last);
        i := i + 1;
      }
      assert messages[..i] == messages;
    }

    method SendWithRetry(destination: string, message: Message, attempt: nat -> Outcome<()>) returns (result: Outcome<()>)
      modifies this
      ensures var d := Retry(destination, message, config, attempt);
        result == d.result && State() == old(State()) && Record() == old(Record()).Extend(destination, d)
    {
      var posted, reported, waited;
      result, posted, reported, waited := RetryLoop(destination, message, config, attempt);
      posts, metrics, delays := posts + Addressed(destination, posted), metrics + reported, delays + waited;
    }
  }

  /** A provider's record of monitoring calls, posts and waits. */
  datatype Trail = Trail(metrics: seq<Metric>, posts: seq<(string, Message)>, delays: seq<int>) {
    /** The record after a delivery to `destination`. */
    function Extend(destination: string, d: Delivery): Trail {
      Trail(metrics + d.metrics, posts + Addressed(destination, d.posts), delays + d.delays)
    }
  }

  lemma ExtendThen(t: Trail, destination: string, a: Delivery, b: Delivery)
    ensures t.Extend(destination, a).Extend(destination, b) == t.Extend(destination, Then(a, b))
  {
    AddressedAppend(destination, a.posts, b.posts);
    assert t.metrics + a.metrics + b.metrics == t.metrics + (a.metrics + b.metrics);
    assert t.posts + Addressed(destination, a.posts) + Addressed(destination, b.posts)
        == t.posts + (Addressed(destination, a.posts) + Addressed(destination, b.posts));
    assert t.delays + a.delays + b.delays == t.delays + (a.delays + b.delays);
  }

  /** Posts to one destination, as (destination, message) pairs. */
  function Addressed(destination: string, ms: seq<Message>): (r: seq<(string, Message)>)
    ensures |r| == |ms| && forall i :: 0 <= i < |ms| ==> r[i] == (destination, ms[i])
  {
    seq(|ms|, i requires 0 <= i < |ms| => (destination, ms[i]))
  }

  lemma AddressedAppend(destination: string, a: seq<Message>, b: seq<Message>)
    ensures Addressed(destination, a + b) == Addressed(destination, a) + Addressed(destination, b)
  {
  }
}

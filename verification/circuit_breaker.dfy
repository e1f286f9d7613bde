/** The circuit breaker: a CLOSED / OPEN / HALF_OPEN machine that gates an
    operation. Clock readings are parameters; the operation is given by the
    outcome it would settle with. */
module CircuitBreaker {
  import opened Base

  datatype Phase = Closed | Open | HalfOpen

  datatype Config = Config(failureThreshold: int, resetTimeout: int, halfOpenSuccess: int, monitorInterval: int)

  /** The `Partial<CircuitBreakerConfig>` a caller may pass; `None` is a missing option. */
  datatype Options = Options(
    failureThreshold: Option<int>,
    resetTimeout: Option<int>,
    halfOpenSuccess: Option<int>,
    monitorInterval: Option<int>)

  function OrDefault(o: Option<int>, default: int): int {
    if o.Some? then o.value else default
  }

  /** `config?.x ?? default` for every option. */
  function ConfigOf(o: Options): Config {
    Config(OrDefault(o.failureThreshold, 5), OrDefault(o.resetTimeout, 60000),
           OrDefault(o.halfOpenSuccess, 2), OrDefault(o.monitorInterval, 5000))
  }

  datatype State = State(phase: Phase, failures: nat, lastFailure: Option<Timestamp>, successCount: nat)

  const Initial := State(Closed, 0, None, 0)

  /** The condition under which `isOpen` reports true: OPEN and not yet past the
      reset timeout (strictly). */
  predicate Blocked(c: Config, s: State, now: Timestamp) {
    s.phase == Open && !(s.lastFailure.Some? && now - s.lastFailure.value > c.resetTimeout)
  }

  /** `isOpen`: whether the call is rejected, and the state afterwards (an OPEN
      breaker past its timeout turns HALF_OPEN and admits the call). */
  function Gate(c: Config, s: State, now: Timestamp): (bool, State) {
    if s.phase == Open then
      if s.lastFailure.Some? && now - s.lastFailure.value > c.resetTimeout then (false, s.(phase := HalfOpen))
      else (true, s)
    else (false, s)
  }

  /** `onSuccess`. */
  function AfterSuccess(c: Config, s: State): State {
    if s.phase == HalfOpen then
      if s.successCount + 1 >= c.halfOpenSuccess then s.(phase := Closed, failures := 0, successCount := 0)
      else s.(successCount := s.successCount + 1)
    else s
  }

  /** `onFailure`, at clock reading `now`. */
  function AfterFailure(c: Config, s: State, now: Timestamp): State {
    var failed := s.(failures := s.failures + 1, lastFailure := Some(now));
    if failed.failures >= c.failureThreshold then failed.(phase := Open) else failed
  }

  const OpenError := NewError("Circuit breaker is OPEN")

  // ---------------------------------------------------------------- monitoring

  /** The value the `circuit_breaker_state` gauge reports for a phase. */
  function PhaseCode(p: Phase): int {
    match p
    case Closed => 0
    case HalfOpen => 1
    case Open => 2
  }

  function PhaseName(p: Phase): string {
    match p
    case Closed => "CLOSED"
    case HalfOpen => "HALF_OPEN"
    case Open => "OPEN"
  }

  /** `gauge('circuit_breaker_state', code, { state: name })`. */
  function StateGauge(p: Phase): Metric {
    Gauge("circuit_breaker_state", PhaseCode(p), Some([Defined("state", PhaseName(p))]))
  }

  /** `increment('circuit_breaker_trips')`. */
  const Trip := Increment("circuit_breaker_trips", None)

  /** The monitoring calls of `isOpen`: the HALF_OPEN gauge when it lets an
      expired OPEN breaker through. */
  function GateMetrics(c: Config, s: State, now: Timestamp): seq<Metric> {
    if s.phase == Open && !Blocked(c, s, now) then [StateGauge(HalfOpen)] else []
  }

  /** The monitoring calls of `onSuccess`: the CLOSED gauge when the success closes the breaker. */
  function SuccessMetrics(c: Config, s: State): seq<Metric> {
    if s.phase == HalfOpen && s.successCount + 1 >= c.halfOpenSuccess then [StateGauge(Closed)] else []
  }

  /** The monitoring calls of `onFailure`: the OPEN gauge and a trip whenever
      the count reaches the threshold. */
  function FailureMetrics(c: Config, s: State): seq<Metric> {
    if s.failures + 1 >= c.failureThreshold then [StateGauge(Open), Trip] else []
  }

  /** What one `execute` call returns, whether it invoked the operation, the
      state after it and the monitoring calls it made, in order. */
  datatype Step<+T> = Step(result: Outcome<T>, invoked: bool, next: State, metrics: seq<Metric>)

  /** `execute(operation)`: the gate is read at `now`; a failure is recorded at
      `settledAt`, when the operation has settled with `outcome`. */
  function ExecuteStep<T>(c: Config, s: State, now: Timestamp, settledAt: Timestamp, outcome: Outcome<T>): Step<T> {
    var (rejected, admitted) := Gate(c, s, now);
    var gated := GateMetrics(c, s, now);
    if rejected then Step(Fail(ThrownError(OpenError)), false, admitted, gated)
    else if outcome.Ok? then Step(outcome, true, AfterSuccess(c, admitted), gated + SuccessMetrics(c, admitted))
    else Step(outcome, true, AfterFailure(c, admitted, settledAt), gated + FailureMetrics(c, admitted))
  }

  /** Each option left out defaults on its own (failureThreshold 5,
      resetTimeout 60000, halfOpenSuccess 2, monitorInterval 5000), and every
      option given is taken as it is. */
  lemma ConfigDefaults(o: Options)
    ensures o.failureThreshold.None? ==> ConfigOf(o).failureThreshold == 5
    ensures o.resetTimeout.None? ==> ConfigOf(o).resetTimeout == 60000
    ensures o.halfOpenSuccess.None? ==> ConfigOf(o).halfOpenSuccess == 2
    ensures o.monitorInterval.None? ==> ConfigOf(o).monitorInterval == 5000
    ensures o.monitorInterval.Some? ==> ConfigOf(o).monitorInterval == o.monitorInterval.value
    ensures o.failureThreshold.Some? ==> ConfigOf(o).failureThreshold == o.failureThreshold.value
    ensures o.resetTimeout.Some? ==> ConfigOf(o).resetTimeout == o.resetTimeout.value
    ensures o.halfOpenSuccess.Some? ==> ConfigOf(o).halfOpenSuccess == o.halfOpenSuccess.value
  {
  }

  /** A call is refused without invoking the operation exactly when the breaker is
      OPEN and not past its timeout; it then fails with "Circuit breaker is OPEN"
      and changes nothing. */
  lemma RejectedIffBlocked<T>(c: Config, s: State, now: Timestamp, settledAt: Timestamp, outcome: Outcome<T>)
    ensures var r := ExecuteStep(c, s, now, settledAt, outcome);
      !r.invoked <==> Blocked(c, s, now)
    ensures var r := ExecuteStep(c, s, now, settledAt, outcome);
      !r.invoked ==> r.result == Fail(ThrownError(OpenError)) && r.next == s
  {
  }

  /** The timeout is strict: at exactly `resetTimeout` after the last failure the
      call is still refused; one millisecond later it is admitted as the probe. */
  lemma ResetTimeoutIsStrict<T>(c: Config, s: State, settledAt: Timestamp, outcome: Outcome<T>)
    requires s.phase == Open && s.lastFailure.Some?
    ensures !ExecuteStep(c, s, s.lastFailure.value + c.resetTimeout, settledAt, outcome).invoked
    ensures ExecuteStep(c, s, s.lastFailure.value + c.resetTimeout + 1, settledAt, outcome).invoked
  {
  }

  /** An admitted call returns the operation's own result, success or error; a
      failure adds one to `failures` and records `settledAt` as the last failure. */
  lemma AdmittedCallPassesThrough<T>(c: Config, s: State, now: Timestamp, settledAt: Timestamp, outcome: Outcome<T>)
    requires !Blocked(c, s, now)
    ensures var r := ExecuteStep(c, s, now, settledAt, outcome);
      r.invoked && r.result == outcome
    ensures var r := ExecuteStep(c, s, now, settledAt, outcome);
      outcome.Fail? ==> r.next.failures == s.failures + 1 && r.next.lastFailure == Some(settledAt)
    ensures var r := ExecuteStep(c, s, now, settledAt, outcome);
      outcome.Ok? && s.phase == Closed ==> r.next == s
  {
  }

  /** What holds of every state the breaker reaches from `Initial`: outside
      CLOSED the failure count is at the threshold and a failure time is known;
      in CLOSED no success is counted; a non-zero success count is below the
      half-open threshold. */
  ghost predicate Inv(c: Config, s: State) {
    && (s.phase != Closed ==> s.failures >= c.failureThreshold && s.lastFailure.Some?)
    && (s.phase == Closed ==> s.successCount == 0)
    && (s.successCount == 0 || s.successCount < c.halfOpenSuccess)
  }

  lemma InitialInv(c: Config)
    ensures Inv(c, Initial)
  {
  }

  lemma ExecutePreservesInv<T>(c: Config, s: State, now: Timestamp, settledAt: Timestamp, outcome: Outcome<T>)
    requires Inv(c, s)
    ensures Inv(c, ExecuteStep(c, s, now, settledAt, outcome).next)
  {
  }

  /** Any failure of an admitted call while HALF_OPEN (or of the probe that an
      expired OPEN breaker admits) reopens the breaker, because `failures` was
      never reset on the way to HALF_OPEN. */
  lemma ProbeFailureReopens<T>(c: Config, s: State, now: Timestamp, settledAt: Timestamp, t: Thrown)
    requires Inv(c, s) && s.phase != Closed && !Blocked(c, s, now)
    ensures ExecuteStep<T>(c, s, now, settledAt, Fail(t)).next.phase == Open
    ensures ExecuteStep<T>(c, s, now, settledAt, Fail(t)).next.lastFailure == Some(settledAt)
  {
  }

  /** The phase the last `circuit_breaker_state` gauge of `log` reports, or
      `shown` when `log` holds none. */
  function Reported(log: seq<Metric>, shown: Phase): Phase
    decreases |log|
  {
    if log == [] then shown
    else
      var m := log[|log| - 1];
      if m.Gauge? && m.name == "circuit_breaker_state" then
        (if m.value == 0 then Closed else if m.value == 1 then HalfOpen else Open)
      else Reported(log[..|log| - 1], shown)
  }

  lemma {:induction false} ReportedAppend(a: seq<Metric>, b: seq<Metric>, shown: Phase)
    ensures Reported(a + b, shown) == Reported(b, Reported(a, shown))
    decreases |b|
  {
    if b == [] {
      assert a + b == a;
    } else {
      assert (a + b)[..|a + b| - 1] == a + b[..|b| - 1];
      ReportedAppend(a, b[..|b| - 1], shown);
    }
  }

  /** The state gauge always shows the phase: every `execute` that changes the
      phase reports the new one, and the last gauge a call emits is the phase
      it leaves the breaker in. */
  lemma ExecuteReportsPhase<T>(c: Config, s: State, now: Timestamp, settledAt: Timestamp, outcome: Outcome<T>)
    ensures var r := ExecuteStep(c, s, now, settledAt, outcome);
      Reported(r.metrics, s.phase) == r.next.phase
  {
    var r := ExecuteStep(c, s, now, settledAt, outcome);
    var (rejected, admitted) := Gate(c, s, now);
    var gated := GateMetrics(c, s, now);
    assert Reported(gated, s.phase) == admitted.phase;
    if !rejected {
      var tail := if outcome.Ok? then SuccessMetrics(c, admitted) else FailureMetrics(c, admitted);
      assert r.metrics == gated + tail;
      ReportedAppend(gated, tail, s.phase);
      if outcome.Fail? && tail != [] {
        assert tail[..1] == [StateGauge(Open)];
      }
    }
  }

  /** A trip is counted exactly when an admitted call fails and leaves the
      breaker OPEN, whether it trips a CLOSED breaker or reopens a HALF_OPEN one;
      a refused call reports nothing. */
  lemma TripIffReopened<T>(c: Config, s: State, now: Timestamp, settledAt: Timestamp, outcome: Outcome<T>)
    ensures var r := ExecuteStep(c, s, now, settledAt, outcome);
      Trip in r.metrics <==> r.invoked && outcome.Fail? && r.next.phase == Open
    ensures var r := ExecuteStep(c, s, now, settledAt, outcome);
      !r.invoked ==> r.metrics == []
  {
  }

  /** The monitoring calls of a sequence of calls, first call first. */
  function RunMetrics(c: Config, s: State, calls: seq<Call>): seq<Metric>
    decreases |calls|
  {
    if calls == [] then []
    else
      var r := ExecuteStep(c, s, calls[0].now, calls[0].settledAt, OutcomeOf(calls[0]));
      r.metrics + RunMetrics(c, r.next, calls[1..])
  }

  /** Over any sequence of calls from a breaker whose gauge shows its phase
      (the initial CLOSED breaker before any gauge, say), the gauge goes on
      showing the phase. */
  lemma {:induction false} GaugeTracksPhase(c: Config, s: State, calls: seq<Call>, shown: Phase)
    requires shown == s.phase
    ensures Reported(RunMetrics(c, s, calls), shown) == Run(c, s, calls).phase
    decreases |calls|
  {
    if calls != [] {
      var r := ExecuteStep(c, s, calls[0].now, calls[0].settledAt, OutcomeOf(calls[0]));
      ExecuteReportsPhase(c, s, calls[0].now, calls[0].settledAt, OutcomeOf(calls[0]));
      ReportedAppend(r.metrics, RunMetrics(c, r.next, calls[1..]), shown);
      GaugeTracksPhase(c, r.next, calls[1..], r.next.phase);
    }
  }

  /** One call of a sequence: the two clock readings and how the operation settles. */
  datatype Call = Call(now: Timestamp, settledAt: Timestamp, succeeds: bool)

  function OutcomeOf(call: Call): Outcome<()> {
    if call.succeeds then Ok(()) else Fail(ThrownError(NewError("operation failed")))
  }

  /** The state after a sequence of calls, first call first. */
  function Run(c: Config, s: State, calls: seq<Call>): State
    decreases |calls|
  {
    if calls == [] then s
    else Run(c, ExecuteStep(c, s, calls[0].now, calls[0].settledAt, OutcomeOf(calls[0])).next, calls[1..])
  }

  function Failures(calls: seq<Call>): nat {
    if calls == [] then 0 else (if calls[0].succeeds then 0 else 1) + Failures(calls[1..])
  }

  /** While CLOSED, `failures` counts every failed call so far: successes in
      between do not reset it, so the count is cumulative, not consecutive. */
  lemma {:induction false} ClosedCountsEveryFailure(c: Config, s: State, calls: seq<Call>)
    requires s.phase == Closed
    requires s.failures + Failures(calls) < c.failureThreshold
    ensures Run(c, s, calls).phase == Closed
    ensures Run(c, s, calls).failures == s.failures + Failures(calls)
    decreases |calls|
  {
    if calls != [] {
      var next := ExecuteStep(c, s, calls[0].now, calls[0].settledAt, OutcomeOf(calls[0])).next;
      ClosedCountsEveryFailure(c, next, calls[1..]);
    }
  }

  /** The failure that brings the cumulative count to `failureThreshold` opens
      the breaker, however many successes came between the failures. */
  lemma TripsAtThreshold(c: Config, s: State, calls: seq<Call>, last: Call)
    requires s.phase == Closed && !last.succeeds
    requires s.failures + Failures(calls) + 1 == c.failureThreshold
    ensures Run(c, s, calls + [last]).phase == Open
    ensures Run(c, s, calls + [last]).failures == c.failureThreshold
  {
    ClosedCountsEveryFailure(c, s, calls);
    RunAppend(c, s, calls, last);
  }

  lemma {:induction false} RunAppend(c: Config, s: State, calls: seq<Call>, last: Call)
    ensures Run(c, s, calls + [last])
         == ExecuteStep(c, Run(c, s, calls), last.now, last.settledAt, OutcomeOf(last)).next
    decreases |calls|
  {
    if calls == [] {
      assert calls + [last] == [last];
    } else {
      assert (calls + [last])[1..] == calls[1..] + [last];
      var next := ExecuteStep(c, s, calls[0].now, calls[0].settledAt, OutcomeOf(calls[0])).next;
      RunAppend(c, next, calls[1..], last);
    }
  }

  predicate AllSucceed(calls: seq<Call>) {
    forall i :: 0 <= i < |calls| ==> calls[i].succeeds
  }

  /** In HALF_OPEN, `halfOpenSuccess - successCount` successful calls close the
      breaker, and closing resets both counters; one call fewer leaves it HALF_OPEN. */
  lemma {:induction false} ProbeSuccessesClose(c: Config, s: State, calls: seq<Call>)
    requires s.phase == HalfOpen && AllSucceed(calls)
    requires 1 <= |calls| == c.halfOpenSuccess - s.successCount
    ensures Run(c, s, calls) == State(Closed, 0, s.lastFailure, 0)
    ensures Run(c, s, calls[..|calls| - 1]).phase == HalfOpen
    decreases |calls|
  {
    var next := ExecuteStep(c, s, calls[0].now, calls[0].settledAt, OutcomeOf(calls[0])).next;
    if |calls| == 1 {
      assert calls[..0] == [];
    } else {
      assert next == s.(successCount := s.successCount + 1);
      assert calls[1..][..|calls[1..]| - 1] == calls[..|calls| - 1][1..];
      ProbeSuccessesClose(c, next, calls[1..]);
    }
  }

  /** As written, a HALF_OPEN failure keeps `successCount`, so after the breaker
      reopens the next half-open period starts part-way: with halfOpenSuccess 2,
      a single successful probe closes it. */
  lemma ProbeCountSurvivesReopen()
    ensures var c := Config(1, 100, 2, 5000);
      var calls := [Call(0, 0, false), Call(200, 200, true), Call(210, 210, false), Call(400, 400, true)];
      Run(c, Initial, calls[..3]) == State(Open, 2, Some(210), 1)
      && Run(c, Initial, calls).phase == Closed
  {
    var c := Config(1, 100, 2, 5000);
    var calls := [Call(0, 0, false), Call(200, 200, true), Call(210, 210, false), Call(400, 400, true)];
    var s1 := Run(c, Initial, calls[..1]);
    assert calls[..1] == [calls[0]];
    assert calls[..2] == calls[..1] + [calls[1]];
    assert calls[..3] == calls[..2] + [calls[2]];
    assert calls == calls[..3] + [calls[3]];
    RunAppend(c, Initial, [], calls[0]);
    RunAppend(c, Initial, calls[..1], calls[1]);
    RunAppend(c, Initial, calls[..2], calls[2]);
    RunAppend(c, Initial, calls[..3], calls[3]);
  }

  /** The evidently intended gate: an expired OPEN breaker enters HALF_OPEN with
      a fresh success count. */
  function GateFixed(c: Config, s: State, now: Timestamp): (bool, State) {
    if s.phase == Open then
      if s.lastFailure.Some? && now - s.lastFailure.value > c.resetTimeout then (false, s.(phase := HalfOpen, successCount := 0))
      else (true, s)
    else (false, s)
  }

  function ExecuteFixed<T>(c: Config, s: State, now: Timestamp, settledAt: Timestamp, outcome: Outcome<T>): Step<T> {
    var (rejected, admitted) := GateFixed(c, s, now);
    var gated := GateMetrics(c, s, now);
    if rejected then Step(Fail(ThrownError(OpenError)), false, admitted, gated)
    else if outcome.Ok? then Step(outcome, true, AfterSuccess(c, admitted), gated + SuccessMetrics(c, admitted))
    else Step(outcome, true, AfterFailure(c, admitted, settledAt), gated + FailureMetrics(c, admitted))
  }

  function RunFixed(c: Config, s: State, calls: seq<Call>): State
    decreases |calls|
  {
    if calls == [] then s
    else RunFixed(c, ExecuteFixed(c, s, calls[0].now, calls[0].settledAt, OutcomeOf(calls[0])).next, calls[1..])
  }

  /** With the fixed gate, every half-open period needs `halfOpenSuccess`
      successes of its own: from an expired OPEN breaker, the admitted probe and
      the calls after it close the breaker only once `halfOpenSuccess` of them
      have succeeded in a row, whatever count an earlier period left behind. */
  lemma {:induction false} FixedPeriodNeedsAllProbes(c: Config, s: State, calls: seq<Call>)
    requires s.phase == Open && s.lastFailure.Some? && AllSucceed(calls)
    requires forall i :: 0 <= i < |calls| ==> calls[i].now - s.lastFailure.value > c.resetTimeout
    requires 1 <= |calls| <= c.halfOpenSuccess
    ensures RunFixed(c, s, calls).phase == (if |calls| == c.halfOpenSuccess then Closed else HalfOpen)
  {
    var next := ExecuteFixed(c, s, calls[0].now, calls[0].settledAt, OutcomeOf(calls[0])).next;
    if |calls| == c.halfOpenSuccess {
      if |calls| > 1 {
        assert next == s.(phase := HalfOpen, successCount := 1);
        FixedHalfOpenRun(c, next, calls[1..]);
      }
    } else {
      assert next == s.(phase := HalfOpen, successCount := 1);
      FixedHalfOpenRun(c, next, calls[1..]);
    }
  }

  lemma {:induction false} FixedHalfOpenRun(c: Config, s: State, calls: seq<Call>)
    requires s.phase == HalfOpen && AllSucceed(calls)
    requires s.successCount + |calls| <= c.halfOpenSuccess
    ensures RunFixed(c, s, calls).phase
         == (if calls != [] && s.successCount + |calls| == c.halfOpenSuccess then Closed else HalfOpen)
    decreases |calls|
  {
    if calls != [] {
      var next := ExecuteFixed(c, s, calls[0].now, calls[0].settledAt, OutcomeOf(calls[0])).next;
      if |calls| > 1 {
        assert next == s.(successCount := s.successCount + 1);
        FixedHalfOpenRun(c, next, calls[1..]);
      }
    }
  }

  /** The breaker object of `CircuitBreakerService`: its fields are updated in
      place by `isOpen`, `onSuccess` and `onFailure`. */
  class Breaker {
    const config: Config
    var phase: Phase
    var failures: nat
    var lastFailure: Option<Timestamp>
    var successCount: nat
    /** The calls made on the monitoring service, in order. */
    var log: seq<Metric>

    function Snapshot(): State
      reads this
    {
      State(phase, failures, lastFailure, successCount)
    }

    constructor (options: Options)
      ensures config == ConfigOf(options) && Snapshot() == Initial && log == []
    {
      config := ConfigOf(options);
      phase, failures, lastFailure, successCount := Closed, 0, None, 0;
      log := [];
    }

    method IsOpen(now: Timestamp) returns (open: bool)
      modifies this
      ensures (open, Snapshot()) == Gate(config, old(Snapshot()), now)
      ensures log == old(log) + GateMetrics(config, old(Snapshot()), now)
    {
      open := false;
      if phase == Open {
        if lastFailure.Some? && now - lastFailure.value > config.resetTimeout {
          phase := HalfOpen;
          log := log + [StateGauge(HalfOpen)];
        } else {
          open := true;
        }
      }
    }

    method OnSuccess()
      modifies this
      ensures Snapshot() == AfterSuccess(config, old(Snapshot()))
      ensures log == old(log) + SuccessMetrics(config, old(Snapshot()))
    {
      if phase == HalfOpen {
        successCount := successCount + 1;
        if successCount >= config.halfOpenSuccess {
          phase, failures, successCount := Closed, 0, 0;
          log := log + [StateGauge(Closed)];
        }
      }
    }

    method OnFailure(now: Timestamp)
      modifies this
      ensures Snapshot() == AfterFailure(config, old(Snapshot()), now)
      ensures log == old(log) + FailureMetrics(config, old(Snapshot()))
    {
      failures := failures + 1;
      lastFailure := Some(now);
      if failures >= config.failureThreshold {
        phase := Open;
        log := log + [StateGauge(Open), Trip];
      }
    }

    method Execute<T>(now: Timestamp, settledAt: Timestamp, outcome: Outcome<T>) returns (result: Outcome<T>, invoked: bool)
      modifies this
      ensures var step := ExecuteStep(config, old(Snapshot()), now, settledAt, outcome);
        result == step.result && invoked == step.invoked && Snapshot() == step.next
      ensures log == old(log) + ExecuteStep(config, old(Snapshot()), now, settledAt, outcome).metrics
    {
      var open := IsOpen(now);
      if open {
        return Fail(ThrownError(OpenError)), false;
      }
      invoked := true;
      result := outcome;
      if outcome.Ok? {
        OnSuccess();
      } else {
        OnFailure(settledAt);
      }
    }
  }
}

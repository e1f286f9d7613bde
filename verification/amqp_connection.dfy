/** `RabbitConnectionManager` of src/infrastructure/amqp/connection.ts: a cache
    holding one connection/channel pair, a `connecting` flag and the pending
    connection attempt, driven by four events: a caller asks for the connection,
    the physical attempt succeeds, it fails, or the connection or its channel
    reports an error or close. Concurrent callers are sequential interleavings
    of these events. */
module AmqpConnection {
  import opened Base

  /** An object reference as the validity check sees it. */
  datatype Ref = Null | Undefined | Object(id: nat, closeIsFunction: bool)

  datatype RabbitConnection = RabbitConnection(connection: Ref, channel: Ref)

  /** `validateConnection`: the connection is non-null and has a `close`
      function and the channel is non-null. (`typeof undefined.close` throws,
      which `validateConnection` turns into false; an undefined channel is not null.) */
  predicate ValidConnection(h: RabbitConnection) {
    h.connection.Object? && h.connection.closeIsFunction && h.channel != Null
  }

  /** `prefetchCount` is applied only when truthy: given and non-zero. */
  predicate AppliesPrefetch(prefetchCount: Option<int>) {
    prefetchCount.Some? && prefetchCount.value != 0
  }

  /** `createChannel(connection)`: the channel and whether `prefetch` was
      called. Any failure becomes RetryableError("Failed to create channel", cause). */
  function CreateChannel(prefetchCount: Option<int>, created: Outcome<Ref>, prefetched: Outcome<()>): (r: (Outcome<Ref>, bool))
    ensures r.1 <==> created.Ok? && AppliesPrefetch(prefetchCount)
    ensures r.0.Ok? <==> created.Ok? && (r.1 ==> prefetched.Ok?)
    ensures r.0.Ok? ==> r.0 == created
    ensures r.0.Fail? ==>
      && r.0.thrown.ThrownError? && r.0.thrown.error.kind == RetryableError
      && r.0.thrown.error.message == "Failed to create channel"
      && r.0.thrown.error.cause == CauseOf(if created.Fail? then created.thrown else prefetched.thrown)
  {
    if created.Fail? then (Fail(ThrownError(Error(RetryableError, "Failed to create channel", CauseOf(created.thrown)))), false)
    else if !AppliesPrefetch(prefetchCount) then (created, false)
    else if prefetched.Fail? then (Fail(ThrownError(Error(RetryableError, "Failed to create channel", CauseOf(prefetched.thrown)))), true)
    else (created, true)
  }

  const EstablishFailed := "Failed to establish RabbitMQ connection"

  /** `initConnection`, one physical attempt: connect, create a channel, apply
      the prefetch when configured. Any failure becomes
      RetryableError("Failed to establish RabbitMQ connection", cause). */
  function InitConnection(prefetchCount: Option<int>, connected: Outcome<Ref>, channel: Outcome<Ref>, prefetched: Outcome<()>): (r: Outcome<RabbitConnection>)
    ensures r.Ok? <==> connected.Ok? && channel.Ok? && (AppliesPrefetch(prefetchCount) ==> prefetched.Ok?)
    ensures r.Ok? ==> r.value == RabbitConnection(connected.value, channel.value)
    ensures r.Fail? ==> r.thrown.ThrownError? && r.thrown.error.kind == RetryableError
                        && r.thrown.error.message == EstablishFailed
    ensures connected.Fail? ==>
      r == Fail(ThrownError(Error(RetryableError, EstablishFailed, CauseOf(connected.thrown))))
    ensures connected.Ok? && channel.Fail? ==>
      r == Fail(ThrownError(Error(RetryableError, EstablishFailed, CauseOf(channel.thrown))))
    ensures connected.Ok? && channel.Ok? && AppliesPrefetch(prefetchCount) && prefetched.Fail? ==>
      r == Fail(ThrownError(Error(RetryableError, EstablishFailed, CauseOf(prefetched.thrown))))
  {
    var fail := (t: Thrown) => Fail(ThrownError(Error(RetryableError, EstablishFailed, CauseOf(t))));
    if connected.Fail? then fail(connected.thrown)
    else if channel.Fail? then fail(channel.thrown)
    else if AppliesPrefetch(prefetchCount) && prefetched.Fail? then fail(prefetched.thrown)
    else Ok(RabbitConnection(connected.value, channel.value))
  }

  /** The `catch` of `connect()`: a RetryableError passes through unchanged,
      anything else becomes RetryableError("Connection failed", cause). */
  function ConnectError(t: Thrown): (e: Error)
    ensures e.kind == RetryableError
    ensures t.ThrownError? && t.error.kind == RetryableError ==> e == t.error
    ensures !(t.ThrownError? && t.error.kind == RetryableError) ==> e == Error(RetryableError, "Connection failed", CauseOf(t))
  {
    if t.ThrownError? && t.error.kind == RetryableError then t.error
    else Error(RetryableError, "Connection failed", CauseOf(t))
  }

  /** `connect()`: the connection of the handle `getConnection` settles with,
      or the error it rejects with, always a RetryableError. */
  function Connect(settled: Outcome<RabbitConnection>): (r: Outcome<Ref>)
    ensures settled.Ok? <==> r.Ok?
    ensures r.Ok? ==> r.value == settled.value.connection
    ensures r.Fail? ==> r.thrown.ThrownError? && r.thrown.error.kind == RetryableError
  {
    if settled.Ok? then Ok(settled.value.connection) else Fail(ThrownError(ConnectError(settled.thrown)))
  }

  /** Every way `connect()` can fail through an attempt keeps that attempt's own
      error, because `initConnection` only ever rejects with a RetryableError. */
  lemma ConnectKeepsAttemptError(prefetchCount: Option<int>, connected: Outcome<Ref>, channel: Outcome<Ref>, prefetched: Outcome<()>)
    ensures var attempt := InitConnection(prefetchCount, connected, channel, prefetched);
      attempt.Fail? ==> Connect(attempt) == Fail(attempt.thrown)
  {
  }

  /** The manager's fields, with two counters that are part of the model only:
      `started` numbers the physical attempts, `inFlight` holds those not yet
      settled, and `established` counts the connections whose close and error
      listeners are registered. `pending` names the attempt whose promise is
      cached in `connectionPromise`. */
  datatype State = State(
    connection: Option<RabbitConnection>,
    connecting: bool,
    pending: Option<nat>,
    started: nat,
    inFlight: set<nat>,
    established: nat)

  const Initial := State(None, false, None, 0, {}, 0)

  /** What a caller of `getConnection` gets: the cached handle at once, or the
      promise of a physical attempt it joins or that it starts. */
  datatype Reply = Cached(handle: RabbitConnection) | Joined(attempt: nat) | Started(attempt: nat)

  datatype Event =
    | Request
    | AttemptSucceeded(attempt: nat, handle: RabbitConnection)
    | AttemptFailed(attempt: nat, error: Error)
    | Disconnect

  /** An attempt settles only while in flight; close and error events only come
      from a connection or channel that was established. */
  predicate Enabled(s: State, e: Event) {
    match e
    case Request => true
    case AttemptSucceeded(a, _) => a in s.inFlight
    case AttemptFailed(a, _) => a in s.inFlight
    case Disconnect => s.established > 0
  }

  /** `getConnection`. */
  function GetConnectionStep(s: State): (Reply, State) {
    if s.connection.Some? && ValidConnection(s.connection.value) then (Cached(s.connection.value), s)
    else if s.connecting && s.pending.Some? then (Joined(s.pending.value), s)
    else (Started(s.started),
          s.(connecting := true, pending := Some(s.started), started := s.started + 1, inFlight := s.inFlight + {s.started}))
  }

  /** `handleDisconnect`: drop the handle, the flag and the pending attempt. */
  function DisconnectStep(s: State): State {
    s.(connection := None, connecting := false, pending := None)
  }

  function Step(s: State, e: Event): State {
    match e
    case Request => GetConnectionStep(s).1
    // the `.then` callback of the attempt's promise
    case AttemptSucceeded(a, h) =>
      s.(connection := Some(h), connecting := false, inFlight := s.inFlight - {a}, established := s.established + 1)
    // the `.catch` callback, which rethrows to every caller holding that promise
    case AttemptFailed(a, _) => s.(connecting := false, pending := None, inFlight := s.inFlight - {a})
    case Disconnect => DisconnectStep(s)
  }

  predicate EnabledTrace(s: State, events: seq<Event>)
    decreases |events|
  {
    events == [] || (Enabled(s, events[0]) && EnabledTrace(Step(s, events[0]), events[1..]))
  }

  function Run(s: State, events: seq<Event>): State
    decreases |events|
  {
    if events == [] then s else Run(Step(s, events[0]), events[1..])
  }

  /** A valid cached handle is returned as it is and starts nothing, so
      repeated calls yield the same connection. */
  lemma CachedHandleIsReused(s: State)
    requires s.connection.Some? && ValidConnection(s.connection.value)
    ensures GetConnectionStep(s) == (Cached(s.connection.value), s)
    ensures GetConnectionStep(GetConnectionStep(s).1) == GetConnectionStep(s)
  {
  }

  /** While an attempt is pending, every further caller receives that same
      attempt and nothing new is started. */
  lemma CallersJoinPendingAttempt(s: State)
    requires !(s.connection.Some? && ValidConnection(s.connection.value))
    requires s.connecting && s.pending.Some?
    ensures GetConnectionStep(s) == (Joined(s.pending.value), s)
  {
  }

  /** A success caches the handle and clears `connecting`; a failure clears
      `connecting` and the pending attempt, so the next caller (with no valid
      handle cached) starts a fresh attempt. */
  lemma SettlementUpdatesCache(s: State, a: nat, h: RabbitConnection, err: Error)
    ensures var s' := Step(s, AttemptSucceeded(a, h)); s'.connection == Some(h) && !s'.connecting
    ensures var s' := Step(s, AttemptFailed(a, err));
      !s'.connecting && s'.pending == None
      && (s'.connection.None? || !ValidConnection(s'.connection.value) ==> GetConnectionStep(s').0 == Started(s.started))
  {
  }

  /** A close or error event drops the handle, and the next caller starts a new
      physical attempt. */
  lemma DisconnectForcesReconnect(s: State)
    ensures GetConnectionStep(DisconnectStep(s)).0 == Started(s.started)
    ensures GetConnectionStep(DisconnectStep(s)).1.started == s.started + 1
  {
  }

  /** What every reachable state satisfies: the pending attempt is one that was
      started, and while `connecting` it is still in flight. */
  ghost predicate Inv(s: State) {
    && (forall a :: a in s.inFlight ==> a < s.started)
    && (s.pending.Some? ==> s.pending.value < s.started)
    && (s.connecting ==> s.pending.Some? && s.pending.value in s.inFlight)
  }

  lemma {:induction false} RunKeepsInv(s: State, events: seq<Event>)
    requires Inv(s) && EnabledTrace(s, events)
    ensures Inv(Run(s, events))
    decreases |events|
  {
    if events != [] {
      RunKeepsInv(Step(s, events[0]), events[1..]);
    }
  }

  /** As written, a second physical attempt can start while the first is still in
      flight: an established connection fires both 'error' and 'close', each of
      which clears the pending attempt, so a caller arriving in between and
      another after the second event each start one. */
  lemma StaleCloseBreaksSingleFlight(h: RabbitConnection)
    ensures var events := [Request, AttemptSucceeded(0, h), Disconnect, Request, Disconnect, Request];
      EnabledTrace(Initial, events) && Run(Initial, events).inFlight == {1, 2}
  {
    var rest5 := [Request];
    var rest4 := [Disconnect] + rest5;
    var rest3 := [Request] + rest4;
    var rest2 := [Disconnect] + rest3;
    var rest1 := [AttemptSucceeded(0, h)] + rest2;
    var events := [Request] + rest1;
    var s1 := State(None, true, Some(0), 1, {0}, 0);
    var s2 := State(Some(h), false, Some(0), 1, {}, 1);
    var s3 := State(None, false, None, 1, {}, 1);
    var s4 := State(None, true, Some(1), 2, {1}, 1);
    var s5 := State(None, false, None, 2, {1}, 1);
    var s6 := State(None, true, Some(2), 3, {1, 2}, 1);
    assert Step(Initial, Request) == s1 && Step(s1, AttemptSucceeded(0, h)) == s2;
    assert Step(s2, Disconnect) == s3 && Step(s3, Request) == s4;
    assert Step(s4, Disconnect) == s5 && Step(s5, Request) == s6;
    assert Run(s6, []) == s6 && EnabledTrace(s6, []);
    RunCons(s5, Request, []);
    assert [Request] + [] == rest5;
    RunCons(s4, Disconnect, rest5);
    RunCons(s3, Request, rest4);
    RunCons(s2, Disconnect, rest3);
    RunCons(s1, AttemptSucceeded(0, h), rest2);
    RunCons(Initial, Request, rest1);
    assert events == [Request, AttemptSucceeded(0, h), Disconnect, Request, Disconnect, Request];
  }

  lemma RunCons(s: State, e: Event, rest: seq<Event>)
    ensures Run(s, [e] + rest) == Run(Step(s, e), rest)
    ensures EnabledTrace(s, [e] + rest) <==> Enabled(s, e) && EnabledTrace(Step(s, e), rest)
  {
    assert ([e] + rest)[1..] == rest;
  }

  /** The evidently intended `handleDisconnect`: the handle is dropped, but an
      attempt already in flight stays the one callers join. */
  function StepFixed(s: State, e: Event): State {
    if e.Disconnect? then s.(connection := None) else Step(s, e)
  }

  /** Single flight: at most one physical attempt is in flight, and it is the
      pending one exactly while `connecting`. */
  ghost predicate SingleFlight(s: State) {
    && (forall a :: a in s.inFlight ==> a < s.started)
    && (s.connecting <==> s.inFlight != {})
    && (s.connecting ==> s.pending.Some? && s.inFlight == {s.pending.value})
  }

  function RunFixed(s: State, events: seq<Event>): State
    decreases |events|
  {
    if events == [] then s else RunFixed(StepFixed(s, events[0]), events[1..])
  }

  predicate EnabledFixedTrace(s: State, events: seq<Event>)
    decreases |events|
  {
    events == [] || (Enabled(s, events[0]) && EnabledFixedTrace(StepFixed(s, events[0]), events[1..]))
  }

  lemma StepFixedKeepsSingleFlight(s: State, e: Event)
    requires SingleFlight(s) && Enabled(s, e)
    ensures SingleFlight(StepFixed(s, e))
  {
    if e.AttemptSucceeded? || e.AttemptFailed? {
      assert s.inFlight == {s.pending.value};
    }
  }

  /** With the fixed disconnect, no interleaving of callers, settlements and
      close events ever has two physical attempts in flight. */
  lemma {:induction false} FixedKeepsSingleFlight(s: State, events: seq<Event>)
    requires SingleFlight(s) && EnabledFixedTrace(s, events)
    ensures SingleFlight(RunFixed(s, events))
    ensures |RunFixed(s, events).inFlight| <= 1
    decreases |events|
  {
    if events == [] {
      if s.connecting {
        assert s.inFlight == {s.pending.value};
      }
    } else {
      StepFixedKeepsSingleFlight(s, events[0]);
      FixedKeepsSingleFlight(StepFixed(s, events[0]), events[1..]);
    }
  }

  /** The manager object: `getConnection`, the attempt's callbacks and
      `handleDisconnect` update its fields in place. */
  class ConnectionManager {
    const prefetchCount: Option<int>
    var connection: Option<RabbitConnection>
    var connecting: bool
    var pending: Option<nat>
    var started: nat
    ghost var inFlight: set<nat>
    ghost var established: nat

    ghost function Snapshot(): State
      reads this
    {
      State(connection, connecting, pending, started, inFlight, established)
    }

    constructor (prefetchCount: Option<int>)
      ensures Snapshot() == Initial && this.prefetchCount == prefetchCount
    {
      this.prefetchCount := prefetchCount;
      connection, connecting, pending, started := None, false, None, 0;
      inFlight, established := {}, 0;
    }

    method GetConnection() returns (reply: Reply)
      modifies this
      ensures (reply, Snapshot()) == GetConnectionStep(old(Snapshot()))
    {
      if connection.Some? && ValidConnection(connection.value) {
        return Cached(connection.value);
      }
      if connecting && pending.Some? {
        return Joined(pending.value);
      }
      reply := Started(started);
      connecting := true;
      pending := Some(started);
      inFlight := inFlight + {started};
      started := started + 1;
    }

    /** The attempt's `.then` callback. */
    method AttemptResolved(attempt: nat, handle: RabbitConnection)
      requires attempt in inFlight
      modifies this
      ensures Snapshot() == Step(old(Snapshot()), AttemptSucceeded(attempt, handle))
    {
      connection := Some(handle);
      connecting := false;
      inFlight := inFlight - {attempt};
      established := established + 1;
    }

    /** The attempt's `.catch` callback; the error goes on to every caller of that attempt. */
    method AttemptRejected(attempt: nat, error: Error)
      requires attempt in inFlight
      modifies this
      ensures Snapshot() == Step(old(Snapshot()), AttemptFailed(attempt, error))
    {
      connecting := false;
      pending := None;
      inFlight := inFlight - {attempt};
    }

    method HandleDisconnect()
      requires established > 0
      modifies this
      ensures Snapshot() == DisconnectStep(old(Snapshot()))
    {
      connection := None;
      connecting := false;
      pending := None;
    }
  }
}

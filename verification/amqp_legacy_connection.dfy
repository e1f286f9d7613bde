/** The older `RabbitConnectionManager` of src/infrastructure/amqp/messaging.service.ts.
    Its cache, flag and pending attempt behave as in the newer manager; it
    differs in two places: the cached handle is checked without the channel,
    and a close or error event drops the handle and at once asks for the
    connection again instead of forgetting the pending attempt. */
module AmqpLegacyConnection {
  import opened Base
  import opened AmqpConnection

  /** `validateConnection`: the connection is truthy and has a `close` function. */
  predicate LegacyValid(h: RabbitConnection) {
    h.connection.Object? && h.connection.closeIsFunction
  }

  /** The newer check only adds the channel condition: every handle it accepts
      the older one accepts, and a handle with a null channel separates them. */
  lemma NewerCheckIsStricter(h: RabbitConnection)
    ensures ValidConnection(h) ==> LegacyValid(h)
    ensures var bare := RabbitConnection(Object(0, true), Null); LegacyValid(bare) && !ValidConnection(bare)
  {
  }

  /** `getConnection`. */
  function LegacyGetConnection(s: State): (Reply, State) {
    if s.connection.Some? && LegacyValid(s.connection.value) then (Cached(s.connection.value), s)
    else if s.connecting && s.pending.Some? then (Joined(s.pending.value), s)
    else (Started(s.started),
          s.(connecting := true, pending := Some(s.started), started := s.started + 1, inFlight := s.inFlight + {s.started}))
  }

  /** `handleDisconnect`: drop the handle and call `getConnection` again, whose
      rejection is swallowed. */
  function LegacyDisconnect(s: State): State {
    LegacyGetConnection(s.(connection := None)).1
  }

  function LegacyStep(s: State, e: Event): State {
    match e
    case Request => LegacyGetConnection(s).1
    case AttemptSucceeded(a, h) =>
      s.(connection := Some(h), connecting := false, inFlight := s.inFlight - {a}, established := s.established + 1)
    case AttemptFailed(a, _) => s.(connecting := false, pending := None, inFlight := s.inFlight - {a})
    case Disconnect => LegacyDisconnect(s)
  }

  predicate LegacyEnabledTrace(s: State, events: seq<Event>)
    decreases |events|
  {
    events == [] || (Enabled(s, events[0]) && LegacyEnabledTrace(LegacyStep(s, events[0]), events[1..]))
  }

  function LegacyRun(s: State, events: seq<Event>): State
    decreases |events|
  {
    if events == [] then s else LegacyRun(LegacyStep(s, events[0]), events[1..])
  }

  /** After a close or error event a physical attempt is under way: either the
      one already pending or a new one, never a second beside it. */
  lemma DisconnectReconnects(s: State)
    requires SingleFlight(s)
    ensures var s' := LegacyDisconnect(s);
      s'.connection == None && s'.connecting && s'.pending.Some? && s'.inFlight == {s'.pending.value}
    ensures s.connecting ==> LegacyDisconnect(s).inFlight == s.inFlight
    ensures !s.connecting ==> LegacyDisconnect(s).inFlight == {s.started}
  {
    if !s.connecting {
      assert s.inFlight == {};
    }
  }

  lemma LegacyStepKeepsSingleFlight(s: State, e: Event)
    requires SingleFlight(s) && Enabled(s, e)
    ensures SingleFlight(LegacyStep(s, e))
  {
    match e
    case AttemptSucceeded(_, _) =>
      assert s.inFlight == {s.pending.value};
    case AttemptFailed(_, _) =>
      assert s.inFlight == {s.pending.value};
    case Disconnect =>
      DisconnectReconnects(s);
    case Request =>
  }

  /** The older manager keeps a single physical attempt in flight under every
      interleaving of callers, settlements and close events. */
  lemma {:induction false} RunKeepsSingleFlight(s: State, events: seq<Event>)
    requires SingleFlight(s) && LegacyEnabledTrace(s, events)
    ensures SingleFlight(LegacyRun(s, events))
    ensures |LegacyRun(s, events).inFlight| <= 1
    decreases |events|
  {
    if events == [] {
      if s.connecting {
        assert s.inFlight == {s.pending.value};
      }
    } else {
      LegacyStepKeepsSingleFlight(s, events[0]);
      RunKeepsSingleFlight(LegacyStep(s, events[0]), events[1..]);
    }
  }

  class ConnectionManager {
    var connection: Option<RabbitConnection>
    var connecting: bool
    var pending: Option<nat>
    var started: nat
    ghost var inFlight: set<nat>
    ghost var established: nat

    ghost function Snapshot(): State
      reads this
    {
      State(connection, connecting, pending, started, inFlight, established)
    }

    constructor ()
      ensures Snapshot() == Initial
    {
      connection, connecting, pending, started := None, false, None, 0;
      inFlight, established := {}, 0;
    }

    method GetConnection() returns (reply: Reply)
      modifies this
      ensures (reply, Snapshot()) == LegacyGetConnection(old(Snapshot()))
    {
      if connection.Some? && LegacyValid(connection.value) {
        return Cached(connection.value);
      }
      if connecting && pending.Some? {
        return Joined(pending.value);
      }
      reply := Started(started);
      connecting := true;
      pending := Some(started);
      inFlight := inFlight + {started};
      started := started + 1;
    }

    method AttemptResolved(attempt: nat, handle: RabbitConnection)
      requires attempt in inFlight
      modifies this
      ensures Snapshot() == LegacyStep(old(Snapshot()), AttemptSucceeded(attempt, handle))
    {
      connection := Some(handle);
      connecting := false;
      inFlight := inFlight - {attempt};
      established := established + 1;
    }

    method AttemptRejected(attempt: nat, error: Error)
      requires attempt in inFlight
      modifies this
      ensures Snapshot() == LegacyStep(old(Snapshot()), AttemptFailed(attempt, error))
    {
      connecting := false;
      pending := None;
      inFlight := inFlight - {attempt};
    }

    method HandleDisconnect()
      requires established > 0
      modifies this
      ensures Snapshot() == LegacyDisconnect(old(Snapshot()))
    {
      connection := None;
      var _ := GetConnection();
    }
  }
}

/** `RabbitMessagingService` (src/services/messaging/RabbitMessagingService.ts):
    the transport that opens a connection and a channel for every send, hands
    each message to `sendToQueue` once, and closes both in a `finally` block.
    What the broker answers is given by a `Broker` value. */
module RabbitMessaging {
  import opened Base
  import opened Attempts
  import opened Lifecycle

  /** How each call on the connection manager and the broker settles. */
  datatype Broker = Broker(
    connected: Outcome<nat>,
    created: Outcome<nat>,
    asserted: Outcome<()>,
    send: nat -> Outcome<bool>,
    channelClosed: Outcome<()>,
    connectionClosed: Outcome<()>)

  /** A handle the `finally` block closes. */
  datatype Handle = ChannelOf(channel: nat) | ConnectionOf(connection: nat)

  /** What `processMessages` did: how it settled, what it handed the channel,
      what it reported and what it closed, in order. */
  datatype Processed = Processed(result: Outcome<()>, sent: seq<Message>, metrics: seq<Metric>, closed: seq<Handle>)

  /** `{ destination: queue, batch: String(isBatch) }`. */
  function BatchLabels(queue: string, isBatch: bool): seq<Label> {
    [Defined("destination", queue), Defined("batch", if isBatch then "true" else "false")]
  }

  /** `error instanceof Error ? error.message : 'Unknown error'`. */
  function ErrorText(t: Thrown): string {
    MessageOr(t, "Unknown error")
  }

  /** The error `processMessages` rethrows. */
  function Wrapped(queue: string, t: Thrown): Thrown {
    ThrownError(NewError("Failed to process messages in queue \"" + queue + "\": " + ErrorText(t)))
  }

  /** `batches_sent` with the batch's labels and its size as `count`. */
  function BatchSent(labels: seq<Label>, count: nat): (m: Metric)
  {
    Increment("batches_sent", Some(labels + [Defined("count", Decimal(count))]))
  }

  /** The index of the first message whose `sendToQueue` throws, from i on, or
      the length of the list when none does. */
  function FirstThrow(messages: seq<Message>, send: nat -> Outcome<bool>, i: nat): (n: nat)
    requires i <= |messages|
    ensures i <= n <= |messages|
    ensures forall j :: i <= j < n ==> send(j).Ok?
    ensures n < |messages| ==> send(n).Fail?
    decreases |messages| - i
  {
    if i == |messages| || send(i).Fail? then i else FirstThrow(messages, send, i + 1)
  }

  /** The `try` block: the handles it obtained, how it ended, the messages it
      handed over and what it reported. */
  datatype Attempted = Attempted(
    outcome: Outcome<()>, connection: Option<nat>, channel: Option<nat>, sent: seq<Message>, metrics: seq<Metric>)

  function TryBlock(queue: string, messages: seq<Message>, isBatch: bool, b: Broker): (a: Attempted)
    // a handle is held exactly when it was obtained
    ensures a.connection.Some? <==> b.connected.Ok?
    ensures a.channel.Some? <==> b.connected.Ok? && b.created.Ok?
    // messages are handed over in order up to and including the first that throws
    ensures a.sent == (if b.connected.Ok? && b.created.Ok? && b.asserted.Ok?
                       then messages[..if FirstThrow(messages, b.send, 0) < |messages| then FirstThrow(messages, b.send, 0) + 1 else |messages|]
                       else [])
  {
    var labels := BatchLabels(queue, isBatch);
    if b.connected.Fail? then Attempted(Fail(b.connected.thrown), None, None, [], [])
    else if b.created.Fail? then Attempted(Fail(b.created.thrown), Some(b.connected.value), None, [], [])
    else
      var held := Attempted(Ok(()), Some(b.connected.value), Some(b.created.value), [], []);
      if b.asserted.Fail? then held.(outcome := Fail(b.asserted.thrown))
      else
        var n := FirstThrow(messages, b.send, 0);
        var sent := Increment("messages_sent", Some(labels));
        if n < |messages| then
          held.(outcome := Fail(b.send(n).thrown), sent := messages[..n + 1], metrics := Repeat(sent, n))
        else
          held.(sent := messages, metrics := Repeat(sent, n)
            + (if isBatch then [BatchSent(labels, |messages|)] else []))
  }

  /** The `catch` block: a failure is counted with its text and rethrown wrapped. */
  function Catch(queue: string, isBatch: bool, a: Attempted): (r: (Outcome<()>, seq<Metric>))
    ensures a.outcome.Ok? ==> r == (Ok(()), a.metrics)
    ensures a.outcome.Fail? ==>
      && r.0 == Fail(Wrapped(queue, a.outcome.thrown))
      && r.1 == a.metrics + [Increment("connection_errors", Some(BatchLabels(queue, isBatch) + [Defined("error", ErrorText(a.outcome.thrown))]))]
  {
    if a.outcome.Ok? then (Ok(()), a.metrics)
    else
      (Fail(Wrapped(queue, a.outcome.thrown)),
       a.metrics + [Increment("connection_errors", Some(BatchLabels(queue, isBatch) + [Defined("error", ErrorText(a.outcome.thrown))]))])
  }

  /** The `finally` block: closes the channel, then the connection, each if
      held; a close that throws replaces the pending outcome and skips what
      follows. */
  function Finally(pending: Outcome<()>, connection: Option<nat>, channel: Option<nat>, b: Broker): (r: (Outcome<()>, seq<Handle>))
    ensures channel.Some? ==> |r.1| >= 1 && r.1[0] == ChannelOf(channel.value)
    ensures channel.Some? && b.channelClosed.Fail? ==> r == (b.channelClosed, [ChannelOf(channel.value)])
    ensures (channel.None? || b.channelClosed.Ok?) && connection.Some? ==> ConnectionOf(connection.value) in r.1
    ensures (channel.None? || b.channelClosed.Ok?) && (connection.None? || b.connectionClosed.Ok?) ==> r.0 == pending
  {
    var closing := if channel.Some? then [ChannelOf(channel.value)] else [];
    if channel.Some? && b.channelClosed.Fail? then (b.channelClosed, closing)
    else if connection.None? then (pending, closing)
    else if b.connectionClosed.Fail? then (b.connectionClosed, closing + [ConnectionOf(connection.value)])
    else (pending, closing + [ConnectionOf(connection.value)])
  }

  /** `processMessages(queue, messages, isBatch)`. */
  function Process(queue: string, messages: seq<Message>, isBatch: bool, b: Broker): Processed {
    var a := TryBlock(queue, messages, isBatch, b);
    var (caught, metrics) := Catch(queue, isBatch, a);
    var (result, closed) := Finally(caught, a.connection, a.channel, b);
    Processed(result, a.sent, metrics, closed)
  }

  /** A send succeeds exactly when the connection, the channel, the queue, every
      `sendToQueue` and both closes succeed. */
  lemma ProcessSucceeds(queue: string, messages: seq<Message>, isBatch: bool, b: Broker)
    ensures Process(queue, messages, isBatch, b).result.Ok? <==>
      && b.connected.Ok? && b.created.Ok? && b.asserted.Ok?
      && (forall i :: 0 <= i < |messages| ==> b.send(i).Ok?)
      && b.channelClosed.Ok? && b.connectionClosed.Ok?
  {
    var n := FirstThrow(messages, b.send, 0);
    if n < |messages| {
      assert b.send(n).Fail?;
    }
  }

  /** A successful send hands every message over, closes the channel and then
      the connection, counts each message once and a batch once with its size. */
  lemma ProcessDeliversAll(queue: string, messages: seq<Message>, isBatch: bool, b: Broker)
    requires b.connected.Ok? && b.created.Ok? && b.asserted.Ok?
    requires forall i :: 0 <= i < |messages| ==> b.send(i).Ok?
    requires b.channelClosed.Ok? && b.connectionClosed.Ok?
    ensures var p := Process(queue, messages, isBatch, b);
      var labels := BatchLabels(queue, isBatch);
      && p.sent == messages
      && p.closed == [ChannelOf(b.created.value), ConnectionOf(b.connected.value)]
      && Increments(p.metrics, "messages_sent", Some(labels)) == |messages|
      && Increments(p.metrics, "batches_sent", BatchSent(labels, |messages|).labels) == (if isBatch then 1 else 0)
  {
    var labels := BatchLabels(queue, isBatch);
    var one := Increment("messages_sent", Some(labels));
    var batch := BatchSent(labels, |messages|);
    var countLabels := batch.labels;
    TryDeliversAll(queue, messages, isBatch, b);
    assert one != batch by {
      assert |one.name| != |batch.name|;
    }
    RunCounts(one, batch, |messages|, isBatch, "messages_sent", Some(labels));
    RunCounts(one, batch, |messages|, isBatch, "batches_sent", countLabels);
  }

  /** The `try` block of a send in which nothing throws. */
  lemma TryDeliversAll(queue: string, messages: seq<Message>, isBatch: bool, b: Broker)
    requires b.connected.Ok? && b.created.Ok? && b.asserted.Ok?
    requires forall i :: 0 <= i < |messages| ==> b.send(i).Ok?
    ensures var a := TryBlock(queue, messages, isBatch, b);
      var labels := BatchLabels(queue, isBatch);
      && a == Attempted(Ok(()), Some(b.connected.value), Some(b.created.value), messages,
           Repeat(Increment("messages_sent", Some(labels)), |messages|)
           + (if isBatch then [BatchSent(labels, |messages|)] else []))
  {
    assert FirstThrow(messages, b.send, 0) == |messages|;
  }

  /** Counting in `n` copies of one metric followed, for a batch, by another. */
  lemma RunCounts(one: Metric, last: Metric, n: nat, withLast: bool, name: string, labels: Option<seq<Label>>)
    ensures Increments(Repeat(one, n) + (if withLast then [last] else []), name, labels)
         == (if one == Increment(name, labels) then n else 0) + (if withLast && last == Increment(name, labels) then 1 else 0)
  {
    var tail := if withLast then [last] else [];
    IncrementsRepeat(one, n, name, labels);
    IncrementsAppend(Repeat(one, n), tail, name, labels);
    if withLast {
      assert [last][..0] == [];
    }
  }

  /** Every failure is reported: when the closes succeed, a failed send
      surfaces as the wrapped error naming the queue and the cause's text, after
      one `connection_errors` carrying that text. */
  lemma FailureIsWrappedAndCounted(queue: string, messages: seq<Message>, isBatch: bool, b: Broker)
    requires b.channelClosed.Ok? && b.connectionClosed.Ok?
    ensures var p := Process(queue, messages, isBatch, b);
      var a := TryBlock(queue, messages, isBatch, b);
      p.result.Fail? ==>
        && a.outcome.Fail?
        && p.result == Fail(Wrapped(queue, a.outcome.thrown))
        && p.metrics[|p.metrics| - 1]
           == Increment("connection_errors", Some(BatchLabels(queue, isBatch) + [Defined("error", ErrorText(a.outcome.thrown))]))
  {
  }

  /** Whatever happens, the `finally` block closes every handle the `try` block
      obtained — the channel first — unless closing the channel itself throws. */
  lemma HandlesAreClosed(queue: string, messages: seq<Message>, isBatch: bool, b: Broker)
    ensures var p := Process(queue, messages, isBatch, b);
      && (b.connected.Ok? && b.created.Ok? ==> |p.closed| >= 1 && p.closed[0] == ChannelOf(b.created.value))
      && (b.connected.Ok? && (b.created.Fail? || b.channelClosed.Ok?) ==> ConnectionOf(b.connected.value) in p.closed)
      && (b.connected.Fail? ==> p.closed == [])
  {
  }

  class RabbitMessagingService {
    const base: BaseMessagingService
    /** The messages handed to `sendToQueue`, with their queue. */
    var sent: seq<(string, Message)>
    /** The handles closed, in order. */
    var closed: seq<Handle>

    constructor ()
      ensures fresh(base) && base.serviceName == "rabbitmq" && !base.isInitialized && base.metrics == []
      ensures sent == [] && closed == []
    {
      base := new BaseMessagingService("rabbitmq");
      sent, closed := [], [];
    }

    method SendMessage(queue: string, message: Message, b: Broker) returns (result: Outcome<()>)
      modifies this, base
      ensures base.isInitialized
      ensures var p := Process(queue, [message], false, b);
        && result == p.result
        && base.metrics == old(base.metrics) + Toggle(base.serviceName, old(base.isInitialized), true).1 + p.metrics
        && sent == old(sent) + Queued(queue, p.sent) && closed == old(closed) + p.closed
    {
      base.Initialize();
      result := ProcessMessages(queue, [message], false, b);
    }

    method SendBatch(queue: string, messages: seq<Message>, b: Broker) returns (result: Outcome<()>)
      modifies this, base
      ensures base.isInitialized
      ensures var p := Process(queue, messages, true, b);
        && result == p.result
        && base.metrics == old(base.metrics) + Toggle(base.serviceName, old(base.isInitialized), true).1 + p.metrics
        && sent == old(sent) + Queued(queue, p.sent) && closed == old(closed) + p.closed
    {
      base.Initialize();
      result := ProcessMessages(queue, messages, true, b);
    }

    method ProcessMessages(queue: string, messages: seq<Message>, isBatch: bool, b: Broker) returns (result: Outcome<()>)
      modifies this, base
      ensures base.isInitialized == old(base.isInitialized)
      ensures var p := Process(queue, messages, isBatch, b);
        && result == p.result && base.metrics == old(base.metrics) + p.metrics
        && sent == old(sent) + Queued(queue, p.sent) && closed == old(closed) + p.closed
    {
      var labels := BatchLabels(queue, isBatch);
      var failure, connection, channel := TryPart(queue, messages, isBatch, b);
      // catch
      if failure.Some? {
        var text := ErrorText(failure.value);
        base.metrics := base.metrics + [Increment("connection_errors", Some(labels + [Defined("error", text)]))];
        result := Fail(Wrapped(queue, failure.value));
      } else {
        result := Ok(());
      }
      result := CloseHandles(result, connection, channel, b);
    }

    /** The `finally` block. */
    method CloseHandles(pending: Outcome<()>, connection: Option<nat>, channel: Option<nat>, b: Broker) returns (result: Outcome<()>)
      modifies this
      ensures sent == old(sent)
      ensures (result, closed) == (Finally(pending, connection, channel, b).0, old(closed) + Finally(pending, connection, channel, b).1)
    {
      result := pending;
      if channel.Some? {
        closed := closed + [ChannelOf(channel.value)];
        if b.channelClosed.Fail? {
          return b.channelClosed;
        }
      }
      if connection.Some? {
        closed := closed + [ConnectionOf(connection.value)];
        assert closed == old(closed) + Finally(pending, connection, channel, b).1;
        if b.connectionClosed.Fail? {
          return b.connectionClosed;
        }
      } else {
        assert closed == old(closed) + Finally(pending, connection, channel, b).1;
      }
    }

    /** The `try` block: the handles obtained and the error thrown, if any. */
    method TryPart(queue: string, messages: seq<Message>, isBatch: bool, b: Broker)
      returns (failure: Option<Thrown>, connection: Option<nat>, channel: Option<nat>)
      modifies this, base
      ensures base.isInitialized == old(base.isInitialized) && closed == old(closed)
      ensures var a := TryBlock(queue, messages, isBatch, b);
        && failure == (if a.outcome.Fail? then Some(a.outcome.thrown) else None)
        && connection == a.connection && channel == a.channel
        && sent == old(sent) + Queued(queue, a.sent) && base.metrics == old(base.metrics) + a.metrics
    {
      connection, channel, failure := None, None, None;
      if b.connected.Fail? {
        return Some(b.connected.thrown), connection, channel;
      }
      connection := Some(b.connected.value);
      if b.created.Fail? {
        return Some(b.created.thrown), connection, channel;
      }
      channel := Some(b.created.value);
      if b.asserted.Fail? {
        return Some(b.asserted.thrown), connection, channel;
      }
      failure := SendEach(queue, messages, isBatch, b.send);
    }

    /** The `for (const message of messages)` loop and the batch count that follows it. */
    method SendEach(queue: string, messages: seq<Message>, isBatch: bool, send: nat -> Outcome<bool>) returns (failure: Option<Thrown>)
      modifies this, base
      ensures base.isInitialized == old(base.isInitialized) && closed == old(closed)
      ensures var n := FirstThrow(messages, send, 0);
        var labels := BatchLabels(queue, isBatch);
        var one := Increment("messages_sent", Some(labels));
        && (n < |messages| ==>
              && failure == Some(send(n).thrown)
              && sent == old(sent) + Queued(queue, messages[..n + 1])
              && base.metrics == old(base.metrics) + Repeat(one, n))
        && (n == |messages| ==>
              && failure == None
              && sent == old(sent) + Queued(queue, messages)
              && base.metrics == old(base.metrics) + Repeat(one, n)
                 + (if isBatch then [BatchSent(labels, |messages|)] else []))
    {
      var labels := BatchLabels(queue, isBatch);
      var i := 0;
      while i < |messages|
        invariant 0 <= i <= |messages| && i <= FirstThrow(messages, send, 0)
        invariant base.isInitialized == old(base.isInitialized) && closed == old(closed)
        invariant sent == old(sent) + Queued(queue, messages[..i])
        invariant base.metrics == old(base.metrics) + Repeat(Increment("messages_sent", Some(labels)), i)
      {
        QueuedAppend(queue, messages[..i], [messages[i]]);
        assert messages[..i + 1] == messages[..i] + [messages[i]];
        sent := sent + [(queue, messages[i])];
        if send(i).Fail? {
          return Some(send(i).thrown);
        }
        base.metrics := base.metrics + [Increment("messages_sent", Some(labels))];
        i := i + 1;
      }
      assert messages[..i] == messages;
      if isBatch {
        base.metrics := base.metrics + [BatchSent(labels, |messages|)];
      }
      failure := None;
    }
  }

  /** Messages handed to one queue, as (queue, message) pairs. */
  function Queued(queue: string, ms: seq<Message>): (r: seq<(string, Message)>)
    ensures |r| == |ms| && forall i :: 0 <= i < |ms| ==> r[i] == (queue, ms[i])
  {
    seq(|ms|, i requires 0 <= i < |ms| => (queue, ms[i]))
  }

  lemma QueuedAppend(queue: string, a: seq<Message>, b: seq<Message>)
    ensures Queued(queue, a + b) == Queued(queue, a) + Queued(queue, b)
  {
  }
}

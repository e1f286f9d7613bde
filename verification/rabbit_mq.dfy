/** `RabbitMqMessagingService` (src/RabbitMqMessagingService.ts): a transport
    that keeps one AMQP connection and one channel, declares the queue, and
    publishes each message up to three times, waiting k seconds after the k-th
    failed try. The broker is given by the outcome of each call on it: opening
    the connection or the channel, declaring the queue, `sendToQueue` (which
    may return false or throw) and closing. */
module RabbitMq {
  import opened Base
  import opened Attempts

  /** `private retryCount = 3`. */
  const RetryCount := 3

  const SendFailed := "Failed to send message"

  /** The connection and the channel held, by identity; `None` is `null`. */
  datatype Link = Link(connection: Option<nat>, channel: Option<nat>)

  const Closed := Link(None, None)

  /** `connect()`: opens the connection if none is held, then the channel if
      none is held; any failure drops both and is rethrown. */
  function ConnectStep(s: Link, connected: Outcome<nat>, created: Outcome<nat>): (r: (Outcome<()>, Link))
    // on success both are held, so `if (!this.channel) throw ...` never fires
    ensures r.0.Ok? ==> r.1.connection.Some? && r.1.channel.Some?
    // a held connection is kept
    ensures r.0.Ok? && s.connection.Some? ==> r.1.connection == s.connection
    ensures r.0.Ok? && s.channel.Some? ==> r.1.channel == s.channel
    // a failure forgets both
    ensures r.0.Fail? ==> r.1 == Closed
    // the failure is the broker's own error
    ensures r.0.Fail? ==>
      || (s.connection.None? && connected.Fail? && r.0 == Fail(connected.thrown))
      || (created.Fail? && r.0 == Fail(created.thrown))
  {
    if s.connection.None? && connected.Fail? then (Fail(connected.thrown), Closed)
    else
      var connection := if s.connection.Some? then s.connection else Some(connected.value);
      if s.channel.Some? then (Ok(()), Link(connection, s.channel))
      else if created.Fail? then (Fail(created.thrown), Closed)
      else (Ok(()), Link(connection, Some(created.value)))
  }

  /** Once connected, `connect()` opens nothing more, whatever the broker would answer. */
  lemma ConnectIsCached(s: Link, connected: Outcome<nat>, created: Outcome<nat>, connected': Outcome<nat>, created': Outcome<nat>)
    requires ConnectStep(s, connected, created).0.Ok?
    ensures var t := ConnectStep(s, connected, created).1;
      ConnectStep(t, connected', created').0 == Ok(()) && ConnectStep(t, connected', created').1 == t
  {
  }

  /** `close()`: the channel first, then the connection; a close that throws
      leaves that handle (and the later one) held. */
  function CloseStep(s: Link, channelClosed: Outcome<()>, connectionClosed: Outcome<()>): (r: (Outcome<()>, Link))
    ensures r.0.Ok? ==> r.1 == Closed
    ensures r.0.Fail? ==> r.1.connection == s.connection
    ensures s.channel.Some? && channelClosed.Fail? ==> r == (channelClosed, s)
    ensures s == Closed ==> r == (Ok(()), Closed)
  {
    if s.channel.Some? && channelClosed.Fail? then (channelClosed, s)
    else if s.connection.Some? && connectionClosed.Fail? then (connectionClosed, s.(channel := None))
    else (Ok(()), Closed)
  }

  /** `metadata?.[key]`: `undefined` when there is no metadata or no such key. */
  function MetadataField(m: Message, key: string): (v: Json)
    ensures m.metadata.None? ==> v == JUndefined
    ensures m.metadata.Some? && key in m.metadata.value ==> v == m.metadata.value[key]
  {
    if m.metadata.Some? && key in m.metadata.value then m.metadata.value[key] else JUndefined
  }

  /** `{ priority: metadata?.priority, headers: { 'x-delay': metadata?.delay } }`. */
  datatype SendOptions = SendOptions(priority: Json, xDelay: Json)

  /** One `sendToQueue(queue, buffer, options)`, with the message the buffer
      serialises. */
  datatype Publish = Publish(queue: string, content: Message, options: SendOptions)

  /** What a message becomes once `preprocessMessage` has stamped it at `now`. */
  function PublishOf(queue: string, m: Message, now: Timestamp): (p: Publish)
    ensures p.content == Restamp(m, now)
    ensures p.options.priority == MetadataField(m, "priority") && p.options.xDelay == MetadataField(m, "delay")
  {
    var processed := Restamp(m, now);
    Publish(queue, processed, SendOptions(MetadataField(processed, "priority"), MetadataField(processed, "delay")))
  }

  /** How one `sendToQueue` try settles: `false` becomes a thrown
      "Failed to send message", a throw is kept. */
  function Settle(o: Outcome<bool>): (r: Outcome<()>)
    ensures r.Ok? <==> o == Ok(true)
    ensures o == Ok(false) ==> r == Fail(ThrownError(NewError(SendFailed)))
    ensures o.Fail? ==> r == Fail(o.thrown)
  {
    match o
    case Ok(true) => Ok(())
    case Ok(false) => Fail(ThrownError(NewError(SendFailed)))
    case Fail(t) => Fail(t)
  }

  /** What publishing does: how it settles, what it hands the channel, what it
      reports and how long it waits. */
  datatype Delivery = Delivery(result: Outcome<()>, sends: seq<Publish>, metrics: seq<Metric>, delays: seq<int>)

  const Nothing := Delivery(Ok(()), [], [], [])

  /** One delivery after a successful one. */
  function Then(a: Delivery, b: Delivery): Delivery {
    Delivery(b.result, a.sends + b.sends, a.metrics + b.metrics, a.delays + b.delays)
  }

  /** The tries from the k-th on, out of `limit`, where try j settles as `send(j)`. */
  function TriesFrom(p: Publish, labels: Option<seq<Label>>, send: nat -> Outcome<bool>, k: nat, limit: nat): Delivery
    requires 1 <= k <= limit
    decreases limit - k
  {
    var settled := Settle(send(k));
    if settled.Ok? then Delivery(Ok(()), [p], [Increment("messages_sent", labels)], [])
    else if k == limit then Delivery(settled, [p], [Increment("messages_failed", labels)], [])
    else
      var rest := TriesFrom(p, labels, send, k + 1, limit);
      Delivery(rest.result, [p] + rest.sends, [Increment("messages_failed", labels)] + rest.metrics, [k * 1000] + rest.delays)
  }

  /** The retry loop around `sendToQueue`. */
  function Tries(p: Publish, labels: Option<seq<Label>>, send: nat -> Outcome<bool>): Delivery {
    TriesFrom(p, labels, send, 1, RetryCount)
  }

  /** A message is published when one of its three tries returns true, and the
      third try's error is rethrown otherwise. Every try hands the channel the
      same buffer, stamped once before the loop; each failed try counts one
      `messages_failed` and is followed, unless it was the last, by a wait of
      k seconds; a success counts one `messages_sent`. */
  lemma TriesOutcome(p: Publish, labels: Option<seq<Label>>, send: nat -> Outcome<bool>)
    ensures var r := Tries(p, labels, send);
      && (r.result.Ok? <==> send(1) == Ok(true) || send(2) == Ok(true) || send(3) == Ok(true))
      && (r.result.Fail? ==> r.result == Settle(send(3)) && |r.sends| == RetryCount)
      && 1 <= |r.sends| <= RetryCount && (forall i :: 0 <= i < |r.sends| ==> r.sends[i] == p)
      && Increments(r.metrics, "messages_sent", labels) == (if r.result.Ok? then 1 else 0)
      && Increments(r.metrics, "messages_failed", labels) == |r.sends| - (if r.result.Ok? then 1 else 0)
      && r.delays == LinearWaits(1000, |r.sends| - 1)
  {
    TriesFromCounts(p, labels, send, 1, RetryCount);
  }

  /** From try k on, one `messages_failed` per failed try and one
      `messages_sent` if a try succeeds. */
  lemma {:induction false} TriesFromCounts(p: Publish, labels: Option<seq<Label>>, send: nat -> Outcome<bool>, k: nat, limit: nat)
    requires 1 <= k <= limit
    ensures var r := TriesFrom(p, labels, send, k, limit);
      && |r.metrics| == |r.sends|
      && Increments(r.metrics, "messages_sent", labels) == (if r.result.Ok? then 1 else 0)
      && Increments(r.metrics, "messages_failed", labels) == |r.sends| - (if r.result.Ok? then 1 else 0)
    decreases limit - k
  {
    var failed := Increment("messages_failed", labels);
    assert [failed][..0] == [] && [Increment("messages_sent", labels)][..0] == [];
    if Settle(send(k)).Fail? && k < limit {
      var rest := TriesFrom(p, labels, send, k + 1, limit);
      TriesFromCounts(p, labels, send, k + 1, limit);
      IncrementsAppend([failed], rest.metrics, "messages_sent", labels);
      IncrementsAppend([failed], rest.metrics, "messages_failed", labels);
    }
  }

  /** The `for (const message of messages)` loop of `sendBatch`, from message
      i on: message j is stamped at `clock(j)` and tried as `send(j)`; the
      first message whose tries all fail ends the batch. */
  function BatchFrom(queue: string, messages: seq<Message>, clock: nat -> Timestamp, send: nat -> nat -> Outcome<bool>, i: nat): Delivery
    decreases |messages| - i
  {
    if i >= |messages| then Nothing
    else
      var d := Tries(PublishOf(queue, messages[i], clock(i)), BatchLabels(queue), send(i));
      if d.result.Fail? then d else Then(d, BatchFrom(queue, messages, clock, send, i + 1))
  }

  function SingleLabels(queue: string): Option<seq<Label>> {
    Some([Defined("destination", queue)])
  }

  function BatchLabels(queue: string): Option<seq<Label>> {
    Some([Defined("destination", queue), Defined("batch", "true")])
  }

  /** The tries of message j of a batch on their own. */
  function MessageTries(queue: string, messages: seq<Message>, clock: nat -> Timestamp, send: nat -> nat -> Outcome<bool>, j: nat): Delivery
    requires j < |messages|
  {
    Tries(PublishOf(queue, messages[j], clock(j)), BatchLabels(queue), send(j))
  }

  /** Message i either ends the batch with its failure or is followed by the rest. */
  lemma BatchFromStep(queue: string, messages: seq<Message>, clock: nat -> Timestamp, send: nat -> nat -> Outcome<bool>, i: nat)
    requires i < |messages|
    ensures var d := MessageTries(queue, messages, clock, send, i);
      BatchFrom(queue, messages, clock, send, i) == if d.result.Fail? then d else Then(d, BatchFrom(queue, messages, clock, send, i + 1))
  {
  }

  /** A batch is published exactly when every message from i on is. */
  lemma {:induction false} BatchPublishedIffAll(queue: string, messages: seq<Message>, clock: nat -> Timestamp,
                                                send: nat -> nat -> Outcome<bool>, i: nat)
    ensures BatchFrom(queue, messages, clock, send, i).result.Ok?
        <==> forall j :: i <= j < |messages| ==> MessageTries(queue, messages, clock, send, j).result.Ok?
    decreases |messages| - i
  {
    if i < |messages| {
      var d := MessageTries(queue, messages, clock, send, i);
      assert BatchFrom(queue, messages, clock, send, i)
          == if d.result.Fail? then d else Then(d, BatchFrom(queue, messages, clock, send, i + 1));
      BatchPublishedIffAll(queue, messages, clock, send, i + 1);
    }
  }

  /** A batch that is not published fails with the error of the first message
      that could not be. */
  lemma {:induction false} BatchFailsAsFirstFailure(queue: string, messages: seq<Message>, clock: nat -> Timestamp,
                                                    send: nat -> nat -> Outcome<bool>, i: nat, j: nat)
    requires i <= j < |messages| && MessageTries(queue, messages, clock, send, j).result.Fail?
    requires forall l :: i <= l < j ==> MessageTries(queue, messages, clock, send, l).result.Ok?
    ensures BatchFrom(queue, messages, clock, send, i).result == MessageTries(queue, messages, clock, send, j).result
    decreases j - i
  {
    var d := MessageTries(queue, messages, clock, send, i);
    assert BatchFrom(queue, messages, clock, send, i)
        == if d.result.Fail? then d else Then(d, BatchFrom(queue, messages, clock, send, i + 1));
    if i < j {
      BatchFailsAsFirstFailure(queue, messages, clock, send, i + 1, j);
    }
  }

  /** Nothing after the first message that could not be published is handed
      to the channel: every send is a try of a message up to that one. */
  lemma {:induction false} BatchSendsStopAtFailure(queue: string, messages: seq<Message>, clock: nat -> Timestamp,
                                                   send: nat -> nat -> Outcome<bool>, i: nat, j: nat)
    requires i <= j < |messages| && MessageTries(queue, messages, clock, send, j).result.Fail?
    requires forall l :: i <= l < j ==> MessageTries(queue, messages, clock, send, l).result.Ok?
    ensures forall s :: s in BatchFrom(queue, messages, clock, send, i).sends ==>
      exists l :: i <= l <= j && s == PublishOf(queue, messages[l], clock(l))
    decreases j - i
  {
    var d := MessageTries(queue, messages, clock, send, i);
    TriesOutcome(PublishOf(queue, messages[i], clock(i)), BatchLabels(queue), send(i));
    if i < j {
      BatchSendsStopAtFailure(queue, messages, clock, send, i + 1, j);
    }
  }

  /** The retry loop of `sendMessage` and of each message of `sendBatch`. */
  method TryLoop(p: Publish, labels: Option<seq<Label>>, send: nat -> Outcome<bool>, retryCount: nat)
    returns (result: Outcome<()>, sends: seq<Publish>, metrics: seq<Metric>, delays: seq<int>)
    requires retryCount >= 1
    ensures Delivery(result, sends, metrics, delays) == TriesFrom(p, labels, send, 1, retryCount)
  {
    sends, metrics, delays := [], [], [];
    var attempt := 1;
    while attempt <= retryCount
      invariant 1 <= attempt <= retryCount
      invariant TriesFrom(p, labels, send, 1, retryCount) == Prefixed(sends, metrics, delays, TriesFrom(p, labels, send, attempt, retryCount))
      decreases retryCount - attempt
    {
      sends := sends + [p];
      var settled := Settle(send(attempt));
      if settled.Ok? {
        metrics := metrics + [Increment("messages_sent", labels)];
        return Ok(()), sends, metrics, delays;
      }
      metrics := metrics + [Increment("messages_failed", labels)];
      if attempt == retryCount {
        return settled, sends, metrics, delays;
      }
      PrefixedStep(sends[..|sends| - 1], metrics[..|metrics| - 1], delays, p, Increment("messages_failed", labels), attempt * 1000,
                   TriesFrom(p, labels, send, attempt + 1, retryCount));
      delays := delays + [attempt * 1000];
      attempt := attempt + 1;
    }
    assert false;
  }

  /** A delivery after the tries already recorded. */
  function Prefixed(sends: seq<Publish>, metrics: seq<Metric>, delays: seq<int>, d: Delivery): Delivery {
    Delivery(d.result, sends + d.sends, metrics + d.metrics, delays + d.delays)
  }

  lemma PrefixedStep(sends: seq<Publish>, metrics: seq<Metric>, delays: seq<int>, p: Publish, m: Metric, w: int, d: Delivery)
    ensures Prefixed(sends, metrics, delays, Delivery(d.result, [p] + d.sends, [m] + d.metrics, [w] + d.delays))
         == Prefixed(sends + [p], metrics + [m], delays + [w], d)
  {
    assert sends + ([p] + d.sends) == sends + [p] + d.sends;
    assert metrics + ([m] + d.metrics) == metrics + [m] + d.metrics;
    assert delays + ([w] + d.delays) == delays + [w] + d.delays;
  }

  /** A transport's record of monitoring calls, sends and waits. */
  datatype Trail = Trail(metrics: seq<Metric>, sends: seq<Publish>, delays: seq<int>) {
    function Extend(d: Delivery): Trail {
      Trail(metrics + d.metrics, sends + d.sends, delays + d.delays)
    }
  }

  lemma ExtendThen(t: Trail, a: Delivery, b: Delivery)
    ensures t.Extend(a).Extend(b) == t.Extend(Then(a, b))
  {
    assert t.metrics + a.metrics + b.metrics == t.metrics + (a.metrics + b.metrics);
    assert t.sends + a.sends + b.sends == t.sends + (a.sends + b.sends);
    assert t.delays + a.delays + b.delays == t.delays + (a.delays + b.delays);
  }

  lemma ThenAssociates(a: Delivery, b: Delivery, c: Delivery)
    ensures Then(Then(a, b), c) == Then(a, Then(b, c))
  {
    assert a.sends + b.sends + c.sends == a.sends + (b.sends + c.sends);
    assert a.metrics + b.metrics + c.metrics == a.metrics + (b.metrics + c.metrics);
    assert a.delays + b.delays + c.delays == a.delays + (b.delays + c.delays);
  }

  class RabbitMqMessagingService {
    var connection: Option<nat>
    var channel: Option<nat>
    var metrics: seq<Metric>
    var sends: seq<Publish>
    var delays: seq<int>
    /** The queues declared with `assertQueue`, in order, each with
        `{ durable: true, arguments: { 'x-max-priority': 10 } }`. */
    var declared: seq<string>

    function Held(): Link
      reads this
    {
      Link(connection, channel)
    }

    function Record(): Trail
      reads this
    {
      Trail(metrics, sends, delays)
    }

    constructor ()
      ensures Held() == Closed && Record() == Trail([], [], []) && declared == []
    {
      connection, channel := None, None;
      metrics, sends, delays, declared := [], [], [], [];
    }

    method Connect(connected: Outcome<nat>, created: Outcome<nat>) returns (result: Outcome<()>)
      modifies this
      ensures (result, Held()) == ConnectStep(old(Held()), connected, created)
      ensures Record() == old(Record()) && declared == old(declared)
    {
      if connection.None? {
        if connected.Fail? {
          connection, channel := None, None;
          return Fail(connected.thrown);
        }
        connection := Some(connected.value);
      }
      if channel.None? {
        if created.Fail? {
          connection, channel := None, None;
          return Fail(created.thrown);
        }
        channel := Some(created.value);
      }
      result := Ok(());
    }

    /** The `'error'` listener installed on the connection. */
    method OnConnectionError()
      modifies this
      ensures Held() == Closed && Record() == old(Record()) && declared == old(declared)
    {
      connection, channel := None, None;
    }

    method SendMessage(queue: string, message: Message, now: Timestamp,
                       connected: Outcome<nat>, created: Outcome<nat>, asserted: Outcome<()>,
                       send: nat -> Outcome<bool>) returns (result: Outcome<()>)
      modifies this
      ensures var (c, held) := ConnectStep(old(Held()), connected, created);
        && Held() == held
        && (c.Fail? ==> result == c && Record() == old(Record()) && declared == old(declared))
        && (c.Ok? && asserted.Fail? ==> result == asserted && Record() == old(Record()) && declared == old(declared))
        && (c.Ok? && asserted.Ok? ==>
              var d := Tries(PublishOf(queue, message, now), SingleLabels(queue), send);
              result == d.result && Record() == old(Record()).Extend(d) && declared == old(declared) + [queue])
    {
      result := Connect(connected, created);
      if result.Fail? {
        return;
      }
      if asserted.Fail? {
        return asserted;
      }
      declared := declared + [queue];
      var p := PublishOf(queue, message, now);
      var sent, reported, waited;
      result, sent, reported, waited := TryLoop(p, SingleLabels(queue), send, RetryCount);
      metrics, sends, delays := metrics + reported, sends + sent, delays + waited;
    }

    method SendBatch(queue: string, messages: seq<Message>, clock: nat -> Timestamp,
                     connected: Outcome<nat>, created: Outcome<nat>, asserted: Outcome<()>,
                     send: nat -> nat -> Outcome<bool>) returns (result: Outcome<()>)
      modifies this
      ensures var (c, held) := ConnectStep(old(Held()), connected, created);
        && Held() == held
        && (c.Fail? ==> result == c && Record() == old(Record()) && declared == old(declared))
        && (c.Ok? && asserted.Fail? ==> result == asserted && Record() == old(Record()) && declared == old(declared))
        && (c.Ok? && asserted.Ok? ==>
              var d := BatchFrom(queue, messages, clock, send, 0);
              result == d.result && Record() == old(Record()).Extend(d) && declared == old(declared) + [queue])
    {
      result := Connect(connected, created);
      if result.Fail? {
        return;
      }
      if asserted.Fail? {
        return asserted;
      }
      declared := declared + [queue];
      result := PublishEach(queue, messages, clock, send);
    }

    /** The `for (const message of messages)` loop of `sendBatch`. */
    method PublishEach(queue: string, messages: seq<Message>, clock: nat -> Timestamp, send: nat -> nat -> Outcome<bool>)
      returns (result: Outcome<()>)
      modifies this
      ensures var d := BatchFrom(queue, messages, clock, send, 0);
        result == d.result && Record() == old(Record()).Extend(d)
      ensures Held() == old(Held()) && declared == old(declared)
    {
      ghost var done := Nothing;
      assert old(Record()).Extend(done) == old(Record());
      var i := 0;
      while i < |messages|
        invariant 0 <= i <= |messages|
        invariant done.result.Ok? && BatchFrom(queue, messages, clock, send, 0) == Then(done, BatchFrom(queue, messages, clock, send, i))
        invariant Record() == old(Record()).Extend(done)
        invariant Held() == old(Held()) && declared == old(declared)
      {
        ghost var d := MessageTries(queue, messages, clock, send, i);
        BatchFromStep(queue, messages, clock, send, i);
        ExtendThen(old(Record()), done, d);
        result := PublishOne(queue, messages, clock, send, i);
        if result.Fail? {
          return;
        }
        ThenAssociates(done, d, BatchFrom(queue, messages, clock, send, i + 1));
        done := Then(done, d);
        i := i + 1;
      }
      result := Ok(());
    }

    /** One message of the batch, with its retries. */
    method PublishOne(queue: string, messages: seq<Message>, clock: nat -> Timestamp, send: nat -> nat -> Outcome<bool>, i: nat)
      returns (result: Outcome<()>)
      requires i < |messages|
      modifies this
      ensures var d := MessageTries(queue, messages, clock, send, i);
        result == d.result && Record() == old(Record()).Extend(d)
      ensures Held() == old(Held()) && declared == old(declared)
    {
      var p := PublishOf(queue, messages[i], clock(i));
      var sent, reported, waited;
      result, sent, reported, waited := TryLoop(p, BatchLabels(queue), send(i), RetryCount);
      metrics, sends, delays := metrics + reported, sends + sent, delays + waited;
    }

    method Close(channelClosed: Outcome<()>, connectionClosed: Outcome<()>) returns (result: Outcome<()>)
      modifies this
      ensures (result, Held()) == CloseStep(old(Held()), channelClosed, connectionClosed)
      ensures Record() == old(Record()) && declared == old(declared)
    {
      if channel.Some? {
        if channelClosed.Fail? {
          return channelClosed;
        }
        channel := None;
      }
      if connection.Some? {
        if connectionClosed.Fail? {
          return connectionClosed;
        }
        connection := None;
      }
      result := Ok(());
    }
  }
}

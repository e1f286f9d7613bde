/** `MessagingContext` (src/MessagingContext.ts): the primary/fallback switch in
    front of two transports. A transport is known by a handle; what a call on
    it does is given by `respond`, and the context records every call it makes. */
module Dispatcher {
  import opened Base

  /** A messaging service object, by identity. */
  datatype Strategy = Strategy(id: nat)

  /** A call on a messaging service. */
  datatype Op =
    | Init
    | Dispose
    | SendMessage(destination: string, message: Message)
    | SendBatch(destination: string, messages: seq<Message>)

  datatype Call = Call(target: Strategy, op: Op)

  /** How a call on a service settles. */
  type Responder = (Strategy, Op) -> Outcome<()>

  const BothFailed := "Primary and fallback strategies failed"

  function AggregateError(): Outcome<()> {
    Fail(ThrownError(NewError(BothFailed)))
  }

  /** The shared body of `sendMessage` and `sendBatch`: the primary, then on its
      failure the fallback with the same arguments. Returns how the send settles
      and the calls made, in order. */
  function Dispatch(primary: Strategy, fallback: Option<Strategy>, op: Op, respond: Responder): (r: (Outcome<()>, seq<Call>))
    requires op.SendMessage? || op.SendBatch?
    // the primary is always called first, with the caller's arguments
    ensures 1 <= |r.1| <= 2 && r.1[0] == Call(primary, op)
    // a primary success settles the send and the fallback is never called
    ensures respond(primary, op).Ok? ==> r == (Ok(()), [Call(primary, op)])
    // after a primary failure the fallback, if any, is called once with the same arguments
    ensures respond(primary, op).Fail? ==>
      if fallback.Some? then
        && r.1 == [Call(primary, op), Call(fallback.value, op)]
        && (r.0.Ok? <==> respond(fallback.value, op).Ok?)
      else r.1 == [Call(primary, op)]
    // every failure is the one aggregate error; the primary's error is never surfaced
    ensures r.0.Fail? ==> r.0 == AggregateError()
    ensures r.0.Ok? <==> respond(primary, op).Ok? || (fallback.Some? && respond(fallback.value, op).Ok?)
  {
    if respond(primary, op).Ok? then (Ok(()), [Call(primary, op)])
    else if fallback.None? then (AggregateError(), [Call(primary, op)])
    else if respond(fallback.value, op).Ok? then (Ok(()), [Call(primary, op), Call(fallback.value, op)])
    else (AggregateError(), [Call(primary, op), Call(fallback.value, op)])
  }

  /** `init` and `dispose`: the primary first, then the fallback if there is one
      and the primary did not throw; an error passes through unchanged. */
  function Lifecycle(primary: Strategy, fallback: Option<Strategy>, op: Op, respond: Responder): (r: (Outcome<()>, seq<Call>))
    requires op.Init? || op.Dispose?
    ensures r.1 == [Call(primary, op)] + (if respond(primary, op).Ok? && fallback.Some? then [Call(fallback.value, op)] else [])
    ensures respond(primary, op).Fail? ==> r.0 == respond(primary, op)
    ensures respond(primary, op).Ok? ==> r.0 == if fallback.Some? then respond(fallback.value, op) else Ok(())
  {
    var first := respond(primary, op);
    if first.Fail? then (first, [Call(primary, op)])
    else if fallback.None? then (Ok(()), [Call(primary, op)])
    else (respond(fallback.value, op), [Call(primary, op), Call(fallback.value, op)])
  }

  /** A single send and a batch follow the same decision: what one does to its
      message the other does to its list, given the same responses. */
  lemma BatchMirrorsSingle(primary: Strategy, fallback: Option<Strategy>, destination: string,
                           m: Message, ms: seq<Message>, respond: Responder)
    requires respond(primary, SendMessage(destination, m)) == respond(primary, SendBatch(destination, ms))
    requires fallback.Some? ==> respond(fallback.value, SendMessage(destination, m)) == respond(fallback.value, SendBatch(destination, ms))
    ensures Dispatch(primary, fallback, SendMessage(destination, m), respond).0 == Dispatch(primary, fallback, SendBatch(destination, ms), respond).0
    ensures |Dispatch(primary, fallback, SendMessage(destination, m), respond).1| == |Dispatch(primary, fallback, SendBatch(destination, ms), respond).1|
  {
  }

  class MessagingContext {
    var strategy: Strategy
    var fallbackStrategy: Option<Strategy>
    /** Every call made on a service, in order. */
    var calls: seq<Call>

    constructor (strategy: Strategy, fallbackStrategy: Option<Strategy>)
      ensures this.strategy == strategy && this.fallbackStrategy == fallbackStrategy && calls == []
    {
      this.strategy := strategy;
      this.fallbackStrategy := fallbackStrategy;
      calls := [];
    }

    method SetStrategy(s: Strategy)
      modifies this
      ensures strategy == s && fallbackStrategy == old(fallbackStrategy) && calls == old(calls)
    {
      strategy := s;
    }

    /** `setFallbackStrategy(fallback)`; passing `undefined` (`None`) clears the fallback. */
    method SetFallbackStrategy(f: Option<Strategy>)
      modifies this
      ensures fallbackStrategy == f && strategy == old(strategy) && calls == old(calls)
    {
      fallbackStrategy := f;
    }

    method Init(respond: Responder) returns (result: Outcome<()>)
      modifies this
      ensures strategy == old(strategy) && fallbackStrategy == old(fallbackStrategy)
      ensures var (r, made) := Lifecycle(strategy, fallbackStrategy, Op.Init, respond);
        result == r && calls == old(calls) + made
    {
      result := RunLifecycle(Op.Init, respond);
    }

    method Dispose(respond: Responder) returns (result: Outcome<()>)
      modifies this
      ensures strategy == old(strategy) && fallbackStrategy == old(fallbackStrategy)
      ensures var (r, made) := Lifecycle(strategy, fallbackStrategy, Op.Dispose, respond);
        result == r && calls == old(calls) + made
    {
      result := RunLifecycle(Op.Dispose, respond);
    }

    method RunLifecycle(op: Op, respond: Responder) returns (result: Outcome<()>)
      requires op.Init? || op.Dispose?
      modifies this
      ensures strategy == old(strategy) && fallbackStrategy == old(fallbackStrategy)
      ensures var (r, made) := Lifecycle(strategy, fallbackStrategy, op, respond);
        result == r && calls == old(calls) + made
    {
      calls := calls + [Call(strategy, op)];
      result := respond(strategy, op);
      if result.Fail? {
        return;
      }
      if fallbackStrategy.Some? {
        calls := calls + [Call(fallbackStrategy.value, op)];
        result := respond(fallbackStrategy.value, op);
      } else {
        result := Ok(());
      }
    }

    method SendMessage(destination: string, message: Message, respond: Responder) returns (result: Outcome<()>)
      modifies this
      ensures strategy == old(strategy) && fallbackStrategy == old(fallbackStrategy)
      ensures var (r, made) := Dispatch(strategy, fallbackStrategy, Op.SendMessage(destination, message), respond);
        result == r && calls == old(calls) + made
    {
      result := Send(Op.SendMessage(destination, message), respond);
    }

    method SendBatch(destination: string, messages: seq<Message>, respond: Responder) returns (result: Outcome<()>)
      modifies this
      ensures strategy == old(strategy) && fallbackStrategy == old(fallbackStrategy)
      ensures var (r, made) := Dispatch(strategy, fallbackStrategy, Op.SendBatch(destination, messages), respond);
        result == r && calls == old(calls) + made
    {
      result := Send(Op.SendBatch(destination, messages), respond);
    }

    /** The try/catch shared by `sendMessage` and `sendBatch`. */
    method Send(op: Op, respond: Responder) returns (result: Outcome<()>)
      requires op.SendMessage? || op.SendBatch?
      modifies this
      ensures strategy == old(strategy) && fallbackStrategy == old(fallbackStrategy)
      ensures var (r, made) := Dispatch(strategy, fallbackStrategy, op, respond);
        result == r && calls == old(calls) + made
    {
      calls := calls + [Call(strategy, op)];
      var primary := respond(strategy, op);
      if primary.Ok? {
        return Ok(());
      }
      if fallbackStrategy.None? {
        return AggregateError();
      }
      calls := calls + [Call(fallbackStrategy.value, op)];
      var second := respond(fallbackStrategy.value, op);
      if second.Ok? {
        return Ok(());
      }
      result := AggregateError();
    }
  }

  /** After `setStrategy`, sends go to the new primary and never to the old one
      (unless it is also the fallback). */
  method SwappedStrategyIsUsed(previous: Strategy, replacement: Strategy, destination: string, m: Message, respond: Responder)
    returns (made: seq<Call>)
    requires previous != replacement
    ensures |made| >= 1 && made[0] == Call(replacement, Op.SendMessage(destination, m))
    ensures forall c :: c in made ==> c.target != previous
  {
    var context := new MessagingContext(previous, None);
    context.SetStrategy(replacement);
    var _ := context.SendMessage(destination, m, respond);
    made := context.calls;
  }

  /** After the fallback is cleared with `setFallbackStrategy(undefined)`, a send
      calls the primary alone, and a primary failure rejects with the aggregate
      error. */
  method ClearedFallbackIsNotCalled(primary: Strategy, previous: Strategy, destination: string, m: Message, respond: Responder)
    returns (result: Outcome<()>, made: seq<Call>)
    ensures made == [Call(primary, Op.SendMessage(destination, m))]
    ensures result.Ok? <==> respond(primary, Op.SendMessage(destination, m)).Ok?
    ensures result.Fail? ==> result == AggregateError()
  {
    var context := new MessagingContext(primary, Some(previous));
    context.SetFallbackStrategy(None);
    result := context.SendMessage(destination, m, respond);
    made := context.calls;
  }
}

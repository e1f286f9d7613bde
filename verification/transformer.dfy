/** `MessageTransformerService` (src/core/services/message-transformer.service.ts):
    an ordered list of message transformers applied one after another. A
    transformer either returns the next message or throws, which ends the
    run. */
module Transformer {
  import opened Base

  /** `TransformFunction`: settles with the transformed message or a thrown error. */
  type TransformFunction = Message -> Outcome<Message>

  /** The result of running transformers in order on a message. */
  function Pipeline(ts: seq<TransformFunction>, m: Message): Outcome<Message>
    decreases |ts|
  {
    if ts == [] then Ok(m)
    else
      match ts[0](m)
      case Fail(e) => Fail(e)
      case Ok(next) => Pipeline(ts[1..], next)
  }

  /** The messages the transformers that run receive, in order: each gets the
      previous one's output, and none runs after one throws. */
  function Received(ts: seq<TransformFunction>, m: Message): (r: seq<Message>)
    ensures |r| <= |ts|
    ensures ts != [] ==> |r| >= 1 && r[0] == m
    decreases |ts|
  {
    if ts == [] then []
    else
      match ts[0](m)
      case Fail(_) => [m]
      case Ok(next) => [m] + Received(ts[1..], next)
  }

  /** With no transformers the result is a copy equal to the input. */
  lemma EmptyPipelineCopies(m: Message)
    ensures Pipeline([], m) == Ok(m) && Received([], m) == []
  {
  }

  /** Registering more transformers composes: the later ones run on the
      earlier ones' result, and only when the earlier ones succeed. */
  lemma {:induction false} PipelineAppend(a: seq<TransformFunction>, b: seq<TransformFunction>, m: Message)
    ensures Pipeline(a + b, m) == match Pipeline(a, m) case Ok(x) => Pipeline(b, x) case Fail(e) => Fail(e)
    decreases |a|
  {
    if a == [] {
      assert a + b == b;
    } else {
      assert (a + b)[0] == a[0] && (a + b)[1..] == a[1..] + b;
      match a[0](m)
      case Fail(e) =>
      case Ok(next) => PipelineAppend(a[1..], b, next);
    }
  }

  /** Each transformer that runs gets the previous one's output; every one but
      the last that runs succeeds; a message as the result means every
      transformer ran and the result is the last one's output, and an error
      is the one the last transformer that ran threw, so none after it ran. */
  lemma {:induction false} ReceivedChain(ts: seq<TransformFunction>, m: Message)
    ensures var r := Received(ts, m);
      && (forall k :: 0 <= k < |r| - 1 ==> ts[k](r[k]) == Ok(r[k + 1]))
      && (Pipeline(ts, m).Ok? <==> |r| == |ts| && (ts == [] || ts[|ts| - 1](r[|ts| - 1]).Ok?))
      && (Pipeline(ts, m).Ok? && ts != [] ==> Pipeline(ts, m) == ts[|ts| - 1](r[|ts| - 1]))
      && (Pipeline(ts, m).Fail? ==> r != [] && Pipeline(ts, m) == ts[|r| - 1](r[|r| - 1]))
    decreases |ts|
  {
    if ts != [] {
      match ts[0](m)
      case Fail(_) =>
      case Ok(next) =>
        ReceivedChain(ts[1..], next);
        var r := Received(ts, m);
        var rest := Received(ts[1..], next);
        assert r == [m] + rest;
        forall k | 0 <= k < |r| - 1
          ensures ts[k](r[k]) == Ok(r[k + 1])
        {
          if k > 0 {
            assert r[k] == rest[k - 1] && r[k + 1] == rest[k] && ts[k] == ts[1..][k - 1];
          }
        }
        if ts[1..] != [] && |rest| == |ts[1..]| {
          assert ts[|ts| - 1] == ts[1..][|ts[1..]| - 1];
        }
        if Pipeline(ts, m).Fail? {
          assert ts[|r| - 1] == ts[1..][|rest| - 1];
        }
    }
  }

  class MessageTransformerService {
    var transformers: seq<TransformFunction>

    constructor ()
      ensures transformers == []
    {
      transformers := [];
    }

    method RegisterTransformer(transform: TransformFunction)
      modifies this
      ensures transformers == old(transformers) + [transform]
    {
      transformers := transformers + [transform];
    }

    /** `transform(message)`: the `for` loop over the registered transformers. */
    method Transform(message: Message) returns (result: Outcome<Message>, ghost received: seq<Message>)
      ensures result == Pipeline(transformers, message)
      ensures received == Received(transformers, message)
    {
      var transformed := message;
      received := [];
      var i := 0;
      while i < |transformers|
        invariant 0 <= i <= |transformers|
        invariant Pipeline(transformers, message) == Pipeline(transformers[i..], transformed)
        invariant Received(transformers, message) == received + Received(transformers[i..], transformed)
      {
        assert transformers[i..][0] == transformers[i] && transformers[i..][1..] == transformers[i + 1..];
        received := received + [transformed];
        var out := transformers[i](transformed);
        if out.Fail? {
          return Fail(out.thrown), received;
        }
        transformed := out.value;
        i := i + 1;
      }
      result := Ok(transformed);
    }
  }
}

/** `BaseMessagingService` (src/services/base/BaseMessagingService.ts): the
    initialized flag a transport toggles on its first send and on cleanup,
    with one metric per transition. */
module Lifecycle {
  import opened Base

  function InitializedMetric(serviceName: string): Metric {
    Increment(serviceName + "_initialized", Some([Defined("state", "init")]))
  }

  function DisposedMetric(serviceName: string): Metric {
    Increment(serviceName + "_disposed", Some([Defined("state", "disposed")]))
  }

  /** What `initialize` (`init` true) or `cleanup` (`init` false) emits from a
      given flag: a metric exactly when the flag changes. */
  function Toggle(serviceName: string, initialized: bool, init: bool): (r: (bool, seq<Metric>))
    ensures r.0 == init
    ensures r.1 == if initialized == init then [] else [if init then InitializedMetric(serviceName) else DisposedMetric(serviceName)]
  {
    if init && !initialized then (true, [InitializedMetric(serviceName)])
    else if !init && initialized then (false, [DisposedMetric(serviceName)])
    else (initialized, [])
  }

  /** The flag and the metrics after a run of `initialize`/`cleanup` calls. */
  function Replay(serviceName: string, initialized: bool, calls: seq<bool>): (bool, seq<Metric>)
    decreases |calls|
  {
    if calls == [] then (initialized, [])
    else
      var step := Toggle(serviceName, initialized, calls[0]);
      var rest := Replay(serviceName, step.0, calls[1..]);
      (rest.0, step.1 + rest.1)
  }

  /** However often `initialize` and `cleanup` are called, the initialized and
      disposed metrics alternate, starting with the one that leaves the initial
      state, and the flag ends as the last call left it. */
  lemma {:induction false} MetricsAlternate(serviceName: string, initialized: bool, calls: seq<bool>)
    ensures var (f, ms) := Replay(serviceName, initialized, calls);
      && (forall i :: 0 <= i < |ms| ==> ms[i] == (if (i % 2 == 0) != initialized then InitializedMetric(serviceName) else DisposedMetric(serviceName)))
      && (f == (if |ms| % 2 == 0 then initialized else !initialized))
      && (calls != [] ==> f == calls[|calls| - 1])
    decreases |calls|
  {
    if calls != [] {
      var (f, ms) := Toggle(serviceName, initialized, calls[0]);
      MetricsAlternate(serviceName, f, calls[1..]);
      var (g, rest) := Replay(serviceName, f, calls[1..]);
      if calls[1..] == [] {
        assert g == f;
      } else {
        assert calls[1..][|calls[1..]| - 1] == calls[|calls| - 1];
      }
      if ms != [] {
        assert f == !initialized;
        forall i | 0 <= i < |ms + rest|
          ensures (ms + rest)[i] == (if (i % 2 == 0) != initialized then InitializedMetric(serviceName) else DisposedMetric(serviceName))
        {
          if i > 0 {
            assert (ms + rest)[i] == rest[i - 1];
          }
        }
      } else {
        assert ms + rest == rest;
      }
    }
  }

  /** A repeated `initialize` emits nothing; `initialize` after `cleanup` emits again. */
  lemma InitializeOncePerCleanup(serviceName: string)
    ensures Replay(serviceName, false, [true, true]).0
    ensures Replay(serviceName, false, [true, true]).1 == [InitializedMetric(serviceName)]
    ensures Replay(serviceName, false, [true, false, true]).1
         == [InitializedMetric(serviceName), DisposedMetric(serviceName), InitializedMetric(serviceName)]
  {
    assert [true, true][1..] == [true];
    assert [true, false, true][1..] == [false, true];
    assert [false, true][1..] == [true];
    assert [true][1..] == [];
    assert Replay(serviceName, true, [true]).0 && Replay(serviceName, true, [true]).1 == [];
    assert Replay(serviceName, false, [true]).1 == [InitializedMetric(serviceName)];
    assert Replay(serviceName, true, [false, true]).1 == [DisposedMetric(serviceName), InitializedMetric(serviceName)];
  }

  class BaseMessagingService {
    const serviceName: string
    var isInitialized: bool
    /** The calls made on the monitoring service, shared with the subclass. */
    var metrics: seq<Metric>

    constructor (serviceName: string)
      ensures this.serviceName == serviceName && !isInitialized && metrics == []
    {
      this.serviceName := serviceName;
      isInitialized := false;
      metrics := [];
    }

    method Initialize()
      modifies this
      ensures isInitialized && metrics == old(metrics) + Toggle(serviceName, old(isInitialized), true).1
    {
      if !isInitialized {
        metrics := metrics + [InitializedMetric(serviceName)];
        isInitialized := true;
      }
    }

    method Cleanup()
      modifies this
      ensures !isInitialized && metrics == old(metrics) + Toggle(serviceName, old(isInitialized), false).1
    {
      if isInitialized {
        metrics := metrics + [DisposedMetric(serviceName)];
        isInitialized := false;
      }
    }
  }
}

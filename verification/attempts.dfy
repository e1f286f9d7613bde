/** The shape every transport's send loop shares: try attempts 1, 2, ... up to
    a limit, and stop at the first that succeeds. */
module Attempts {
  import opened Base

  /** The attempt at which a loop of at most `limit` tries stops, counting from
      `k`: the first that succeeds, or the last one. */
  function SettlingFrom(ok: nat -> bool, k: nat, limit: nat): (n: nat)
    requires 1 <= k <= limit
    ensures k <= n <= limit
    ensures forall j :: k <= j < n ==> !ok(j)
    ensures ok(n) || n == limit
    decreases limit - k
  {
    if ok(k) || k == limit then k else SettlingFrom(ok, k + 1, limit)
  }

  function Settling(ok: nat -> bool, limit: nat): (n: nat)
    requires limit >= 1
    ensures 1 <= n <= limit
    ensures forall j :: 1 <= j < n ==> !ok(j)
    ensures ok(n) || n == limit
  {
    SettlingFrom(ok, 1, limit)
  }

  /** If some attempt within the limit succeeds, the loop stops at a success,
      and no later than that attempt. */
  lemma SettlingFindsSuccess(ok: nat -> bool, limit: nat, k: nat)
    requires 1 <= k <= limit && ok(k)
    ensures ok(Settling(ok, limit)) && Settling(ok, limit) <= k
  {
  }

  /** Exactly when every attempt fails, the loop uses all of them. */
  lemma SettlingExhausts(ok: nat -> bool, limit: nat)
    requires limit >= 1
    ensures (Settling(ok, limit) == limit && !ok(limit)) <==> forall j :: 1 <= j <= limit ==> !ok(j)
  {
  }

  /** `n` copies of `x`. */
  function Repeat<T>(x: T, n: nat): (r: seq<T>)
    ensures |r| == n && forall i :: 0 <= i < n ==> r[i] == x
  {
    seq(n, _ => x)
  }

  /** Counting one kind of increment in `n` copies of a metric. */
  lemma {:induction false} IncrementsRepeat(m: Metric, n: nat, name: string, labels: Option<seq<Label>>)
    ensures Increments(Repeat(m, n), name, labels) == if m == Increment(name, labels) then n else 0
  {
    if n > 0 {
      assert Repeat(m, n)[..n - 1] == Repeat(m, n - 1);
      IncrementsRepeat(m, n - 1, name, labels);
    }
  }

  /** The waits after failed attempts 1..n of a loop whose k-th wait is `unit * k`. */
  function LinearWaits(unit: int, n: nat): (r: seq<int>)
    ensures |r| == n && forall i :: 0 <= i < n ==> r[i] == unit * (i + 1)
  {
    seq(n, i => unit * (i + 1))
  }

  /** The number of attempts a loop `for (attempt = 1; attempt <= retryCount; attempt++)`
      makes when it stops at the first success and rethrows after the last try. */
  function AttemptsMade(post: nat -> Outcome<()>, retryCount: int): (n: nat)
    ensures retryCount < 1 ==> n == 0
    ensures retryCount >= 1 ==> 1 <= n <= retryCount && (post(n).Ok? || n == retryCount)
    ensures forall k :: 1 <= k < n ==> post(k).Fail?
  {
    if retryCount < 1 then 0
    else
      var ok := (k: nat) => post(k).Ok?;
      var n := Settling(ok, retryCount);
      assert forall k :: 1 <= k < n ==> post(k).Fail? by {
        forall k | 1 <= k < n ensures post(k).Fail? {
          assert !ok(k);
        }
      }
      n
  }
}

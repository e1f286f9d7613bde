/** Values shared by every part of the dispatcher: JavaScript values, messages,
    errors, settled promises and the calls made to the monitoring sink. */
module Base {

  datatype Option<+T> = None | Some(value: T)

  /** A JavaScript value as it can occur in a payload or in message metadata.
      Numbers are integers here; arrays, dates and functions do not occur. */
  datatype Json =
    | JUndefined
    | JNull
    | JBool(b: bool)
    | JNum(n: int)
    | JStr(s: string)
    | JObj(fields: map<string, Json>)

  /** JavaScript truthiness: `x || y` yields `y` exactly when `x` is not truthy. */
  predicate Truthy(v: Json) {
    match v
    case JUndefined => false
    case JNull => false
    case JBool(b) => b
    case JNum(n) => n != 0
    case JStr(s) => s != ""
    case JObj(_) => true
  }

  /** A `Date`, as the number of milliseconds `getTime()` returns. */
  type Timestamp = int

  datatype Message = Message(
    id: string,
    timestamp: Timestamp,
    payload: map<string, Json>,
    metadata: Option<map<string, Json>>)

  /** `Error` and its subclass `RetryableError`, which may carry a cause. */
  datatype ErrorKind = PlainError | RetryableError
  datatype Error = Error(kind: ErrorKind, message: string, cause: Option<Error>)

  function NewError(message: string): Error {
    Error(PlainError, message, None)
  }

  /** What a rejected promise or a `throw` carries: an `Error`, some other
      value (kept as `String(value)`), or `undefined`. */
  datatype Thrown = ThrownError(error: Error) | ThrownValue(text: string) | ThrownUndefined

  /** `error instanceof Error ? error : undefined`, the cause a wrapper records. */
  function CauseOf(t: Thrown): (c: Option<Error>)
    ensures c.Some? <==> t.ThrownError?
  {
    if t.ThrownError? then Some(t.error) else None
  }

  /** `error instanceof Error ? error.message : fallback`, the text a failure
      label or a wrapping message shows. */
  function MessageOr(t: Thrown, fallback: string): (text: string)
    ensures t.ThrownError? ==> text == t.error.message
    ensures !t.ThrownError? ==> text == fallback
  {
    if t.ThrownError? then t.error.message else fallback
  }

  /** A settled promise. */
  datatype Outcome<+T> = Ok(value: T) | Fail(thrown: Thrown)

  /** The `{ ...message, timestamp: new Date() }` copy made before a message
      is sent: every field but the timestamp is kept. */
  function Restamp(m: Message, now: Timestamp): (r: Message)
    ensures r.id == m.id && r.payload == m.payload && r.metadata == m.metadata
    ensures r.timestamp == now
  {
    m.(timestamp := now)
  }

  /** Restamping forgets the previous timestamp: only the last one counts, and
      a message is left as it is exactly when it already carries that time. */
  lemma RestampLastWins(m: Message, t1: Timestamp, t2: Timestamp)
    ensures Restamp(Restamp(m, t1), t2) == Restamp(m, t2)
    ensures Restamp(m, t1) == m <==> m.timestamp == t1
  {
  }

  /** Two messages restamped with the same time are equal exactly when they
      agree on every field other than the timestamp. */
  lemma RestampIdentifies(m1: Message, m2: Message, now: Timestamp)
    ensures Restamp(m1, now) == Restamp(m2, now)
        <==> m1.id == m2.id && m1.payload == m2.payload && m1.metadata == m2.metadata
  {
    if m1.id == m2.id && m1.payload == m2.payload && m1.metadata == m2.metadata {
      assert Restamp(m1, now) == Message(m1.id, now, m1.payload, m1.metadata);
    }
  }

  /** `String(n)` for a natural number: its decimal digits. */
  function Decimal(n: nat): (s: string)
    ensures |s| >= 1
    ensures forall i :: 0 <= i < |s| ==> '0' <= s[i] <= '9'
  {
    if n < 10 then [(n as int + '0' as int) as char] else Decimal(n / 10) + Decimal(n % 10)
  }

  /** A metric label; an undefined value is `None`. */
  datatype Label = Label(name: string, value: Option<string>)

  function Defined(name: string, value: string): Label {
    Label(name, Some(value))
  }

  /** One call to the monitoring sink; `labels == None` when none were passed. */
  datatype Metric =
    | Increment(name: string, labels: Option<seq<Label>>)
    | Gauge(name: string, value: int, labels: Option<seq<Label>>)
    | Histogram(name: string, value: int, labels: Option<seq<Label>>)

  /** The number of `increment(name, labels)` calls in a log of sink calls. */
  function Increments(log: seq<Metric>, name: string, labels: Option<seq<Label>>): (n: nat)
    ensures n <= |log|
  {
    if log == [] then 0
    else Increments(log[..|log| - 1], name, labels)
         + (if log[|log| - 1] == Increment(name, labels) then 1 else 0)
  }

  lemma {:induction false} IncrementsAppend(a: seq<Metric>, b: seq<Metric>, name: string, labels: Option<seq<Label>>)
    ensures Increments(a + b, name, labels) == Increments(a, name, labels) + Increments(b, name, labels)
    decreases |b|
  {
    if b == [] {
      assert a + b == a;
    } else {
      assert (a + b)[..|a + b| - 1] == a + b[..|b| - 1];
      IncrementsAppend(a, b[..|b| - 1], name, labels);
    }
  }
}

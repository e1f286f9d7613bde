/** The middleware chain (src/middleware/implementation/middleware-chain.ts),
    the handler every `BaseMiddleware` installs (src/middleware/base.middleware.ts)
    and the three built-in middlewares: headers, basic and validation. A
    middleware mutates the message of a shared context; the chain runs the
    middlewares in descending priority, each one deciding whether to go on. */
module Middleware {
  import opened Base
  import opened Schema

  // ---------------------------------------------------------------- dates

  const MsPerDay := 86_400_000

  /** `n` in decimal, left-padded with zeros to at least `width` digits. */
  function Padded(n: nat, width: nat): (s: string)
    ensures |s| >= width
  {
    ZeroPad(Decimal(n), width)
  }

  function ZeroPad(digits: string, width: nat): (s: string)
    ensures |s| >= width && |s| >= |digits|
    decreases width - |digits|
  {
    if |digits| >= width then digits else ZeroPad("0" + digits, width)
  }

  /** The proleptic Gregorian (year, month, day) of a day number counted from
      1970-01-01: days are counted in 400-year eras of 146097 days from
      0000-03-01, and within an era by year of era and day of year. */
  function CivilFromDays(days: int): (ymd: (int, int, int))
    ensures 1 <= ymd.1 <= 12 && 1 <= ymd.2 <= 31
  {
    var z := days + 719468;
    var era := z / 146097;
    var doe := z - era * 146097;
    EraBounds(doe);
    DateInEra(era, YearOfEra(doe), doe - DaysBeforeYear(YearOfEra(doe)))
  }

  /** The year of era (from March) holding day `doe` of a 400-year era. */
  function YearOfEra(doe: int): int {
    (doe - doe / 1460 + doe / 36524 - doe / 146096) / 365
  }

  /** The days of an era before its year `yoe`. */
  function DaysBeforeYear(yoe: int): int {
    365 * yoe + yoe / 4 - yoe / 100
  }

  /** The date of day `doy` (counted from March 1) of year `yoe` of an era. */
  function DateInEra(era: int, yoe: int, doy: int): (ymd: (int, int, int))
    requires 0 <= doy <= 365
    ensures 1 <= ymd.1 <= 12 && 1 <= ymd.2 <= 31
  {
    var mp := (5 * doy + 2) / 153;
    var d := doy - (153 * mp + 2) / 5 + 1;
    var m := if mp < 10 then mp + 3 else mp - 9;
    (yoe + era * 400 + (if m <= 2 then 1 else 0), m, d)
  }

  /** The reference inverse: the day number, counted from 1970-01-01, of a
      proleptic Gregorian date. */
  function DaysFromCivil(year: int, month: int, day: int): int {
    var y := if month <= 2 then year - 1 else year;
    var era := y / 400;
    var yoe := y - era * 400;
    var mp := if month > 2 then month - 3 else month + 9;
    var doy := (153 * mp + 2) / 5 + day - 1;
    var doe := yoe * 365 + yoe / 4 - yoe / 100 + doy;
    era * 146097 + doe - 719468
  }

  /** Within an era, the year of era lies in 0..399 and the day of year in
      0..365 (the 366th day is the leap day that ends a leap year). */
  lemma EraBounds(doe: int)
    requires 0 <= doe <= 146096
    ensures 0 <= YearOfEra(doe) <= 399
    ensures 0 <= doe - DaysBeforeYear(YearOfEra(doe)) <= 365
  {
    if doe == 146096 {
      assert 146096 / 1460 == 100 && 146096 / 36524 == 4 && 146096 / 146096 == 1;
      assert 145999 / 365 == 399 && 399 / 4 == 99 && 399 / 100 == 3;
    } else {
      // doe is c centuries of 36524 days, q four-year cycles of 1461 days and s days
      var c := doe / 36524;
      var r := doe % 36524;
      var q := r / 1461;
      var s := r % 1461;
      assert c <= 3 && q <= 24 && s <= 1460;
      assert doe == 1460 * (25 * c + q) + (24 * c + q + s);
      var e := (24 * c + q + s) / 1460;
      assert e == 0 || e == 1;
      assert doe / 1460 == 25 * c + q + e;
      assert doe / 36524 == c && doe / 146096 == 0;
      var p := if s == 1460 then 3 else s / 365;
      assert (s - e) / 365 == p;
      assert doe - doe / 1460 + doe / 36524 - doe / 146096 == 365 * (100 * c + 4 * q) + (s - e);
      var yoe := 100 * c + 4 * q + p;
      assert YearOfEra(doe) == yoe;
      assert yoe / 4 == 25 * c + q && yoe / 100 == c;
    }
  }

  /** `DaysFromCivil` undoes `DateInEra`. */
  lemma DaysOfEraDate(era: int, yoe: int, doy: int)
    requires 0 <= yoe <= 399 && 0 <= doy <= 365
    ensures var ymd := DateInEra(era, yoe, doy);
      DaysFromCivil(ymd.0, ymd.1, ymd.2) == era * 146097 + DaysBeforeYear(yoe) + doy - 719468
  {
    var mp := (5 * doy + 2) / 153;
    assert 0 <= mp <= 11;
    var m := if mp < 10 then mp + 3 else mp - 9;
    assert (if m > 2 then m - 3 else m + 9) == mp;
    var y := yoe + era * 400;
    assert y / 400 == era;
    assert y - era * 400 == yoe;
  }

  /** The calendar date determines the day: `DaysFromCivil` undoes `CivilFromDays`. */
  lemma CivilRoundTrip(days: int)
    ensures var ymd := CivilFromDays(days); DaysFromCivil(ymd.0, ymd.1, ymd.2) == days
  {
    var era := (days + 719468) / 146097;
    var doe := days + 719468 - era * 146097;
    EraBounds(doe);
    var yoe := YearOfEra(doe);
    var doy := doe - DaysBeforeYear(yoe);
    assert CivilFromDays(days) == DateInEra(era, yoe, doy);
    DaysOfEraDate(era, yoe, doy);
  }

  /** The fields `toISOString` renders, in UTC. */
  datatype DateTime = DateTime(year: int, month: int, day: int, hour: int, minute: int, second: int, millisecond: int)

  /** The UTC date and time of an epoch-millisecond time value. */
  function FieldsOf(t: Timestamp): (f: DateTime)
    ensures 1 <= f.month <= 12 && 1 <= f.day <= 31
    ensures 0 <= f.hour < 24 && 0 <= f.minute < 60 && 0 <= f.second < 60 && 0 <= f.millisecond < 1000
  {
    var (year, month, day) := CivilFromDays(t / MsPerDay);
    var ms := t % MsPerDay;
    DateTime(year, month, day, ms / 3_600_000, ms / 60_000 % 60, ms / 1000 % 60, ms % 1000)
  }

  /** The time value a set of fields stands for. */
  function TimeOf(f: DateTime): int {
    DaysFromCivil(f.year, f.month, f.day) * MsPerDay
      + f.hour * 3_600_000 + f.minute * 60_000 + f.second * 1000 + f.millisecond
  }

  lemma TimeOfDayRoundTrip(ms: int)
    requires 0 <= ms < MsPerDay
    ensures (ms / 3_600_000) * 3_600_000 + (ms / 60_000 % 60) * 60_000 + (ms / 1000 % 60) * 1000 + ms % 1000 == ms
  {
    var secs := ms / 1000;
    var mins := secs / 60;
    assert ms / 60_000 == mins;
    assert ms / 3_600_000 == mins / 60;
    assert ms == secs * 1000 + ms % 1000;
    assert secs == mins * 60 + secs % 60;
    assert mins == (mins / 60) * 60 + mins % 60;
  }

  /** The rendered fields determine the time: reading them back as a day number
      and a time of day gives `t` again, so distinct times never render the
      same fields. */
  lemma FieldsDetermineTime(t: Timestamp)
    ensures TimeOf(FieldsOf(t)) == t
  {
    CivilRoundTrip(t / MsPerDay);
    TimeOfDayRoundTrip(t % MsPerDay);
  }

  /** `Date.prototype.toISOString` for a valid time value: the fields of
      `FieldsOf(t)` as `YYYY-MM-DDTHH:mm:ss.sssZ`, with a signed six-digit year
      outside 0..9999. */
  function IsoString(t: Timestamp): (s: string)
    ensures |s| >= 24
  {
    var f := FieldsOf(t);
    DatePart((f.year, f.month, f.day)) + TimePart(f)
  }

  /** `YYYY-MM-DD`. */
  function DatePart(ymd: (int, int, int)): (s: string)
    requires 1 <= ymd.1 <= 12 && 1 <= ymd.2 <= 31
    ensures |s| >= 10
  {
    var year := ymd.0;
    var yearText :=
      if 0 <= year <= 9999 then Padded(year, 4)
      else (if year < 0 then "-" else "+") + Padded(if year < 0 then -year else year, 6);
    yearText + "-" + Padded(ymd.1, 2) + "-" + Padded(ymd.2, 2)
  }

  /** `THH:mm:ss.sssZ`. */
  function TimePart(f: DateTime): (s: string)
    requires 0 <= f.hour && 0 <= f.minute && 0 <= f.second && 0 <= f.millisecond
    ensures |s| >= 14
  {
    "T" + Padded(f.hour, 2) + ":" + Padded(f.minute, 2) + ":" + Padded(f.second, 2)
      + "." + Padded(f.millisecond, 3) + "Z"
  }

  lemma EpochCivilDate()
    ensures CivilFromDays(0) == (1970, 1, 1)
  {
    // 1970-01-01 is day 306 of year 369 of the fifth 400-year era from 0000-03-01
    assert 719468 / 146097 == 4 && 719468 - 4 * 146097 == 135080;
    assert 135080 / 1460 == 92 && 135080 / 36524 == 3 && 135080 / 146096 == 0;
    assert 134991 / 365 == 369 && YearOfEra(135080) == 369;
    assert 369 / 4 == 92 && 369 / 100 == 3 && 135080 - DaysBeforeYear(369) == 306;
    assert (5 * 306 + 2) / 153 == 10 && (153 * 10 + 2) / 5 == 306;
  }

  lemma EpochDate()
    ensures DatePart((1970, 1, 1)) == "1970-01-01"
  {
    assert Decimal(1) == "1" && Decimal(9) == "9" && Decimal(7) == "7" && Decimal(0) == "0";
    assert Decimal(19) == "19";
    assert Decimal(197) == "197";
    assert Padded(1970, 4) == "1970" && Padded(1, 2) == "01";
  }

  lemma MidnightTime()
    ensures TimePart(DateTime(1970, 1, 1, 0, 0, 0, 0)) == "T00:00:00.000Z"
  {
    assert Decimal(0) == "0";
    assert Padded(0, 2) == "00";
    assert Padded(0, 3) == "000";
  }

  /** Time 0 renders as the Unix epoch. */
  lemma EpochIsoString()
    ensures IsoString(0) == "1970-01-01T00:00:00.000Z"
  {
    EpochCivilDate();
    EpochDate();
    MidnightTime();
    assert 0 / MsPerDay == 0 && 0 % MsPerDay == 0;
    assert FieldsOf(0) == DateTime(1970, 1, 1, 0, 0, 0, 0);
  }

  // ---------------------------------------------------------------- actions

  /** Code of a user-written middleware: it rewrites the message for a
      destination, or throws. */
  type Code = (string, Message) -> Outcome<Message>

  /** What a middleware does to the message: the three built-in `execute`s, or
      any other rewriting of (destination, message) that may throw. */
  datatype Action =
    | AddHeaders
    | MarkProcessed
    | Validate
    | Rewrite(f: Code)

  /** `context.message.metadata || {}`. */
  function MetadataOrEmpty(m: Message): map<string, Json> {
    if m.metadata.Some? then m.metadata.value else map[]
  }

  /** The three entries the headers middleware assigns. */
  function HeaderEntries(m: Message, destination: string): map<string, Json>
    requires ValidDate(m.timestamp)
  {
    map["x-message-id" := JStr(m.id),
        "x-timestamp" := JStr(IsoString(m.timestamp)),
        "x-destination" := JStr(destination)]
  }

  /** `metadata.headers = metadata.headers || {}; Object.assign(metadata.headers, added)`.
      A truthy header value that is not an object is left as it is (the
      assignment lands on a temporary wrapper). */
  function MergeHeaders(meta: map<string, Json>, added: map<string, Json>): map<string, Json> {
    var current := HeadersOf(meta);
    var headers :=
      if current.JObj? then JObj(current.fields + added)
      else if Truthy(current) then current
      else JObj(added);
    meta["headers" := headers]
  }

  /** `HeadersMiddleware.execute` on a valid date. */
  function WithHeaders(m: Message, destination: string): Message
    requires ValidDate(m.timestamp)
  {
    m.(metadata := Some(MergeHeaders(MetadataOrEmpty(m), HeaderEntries(m, destination))))
  }

  /** `BasicMiddleware.execute`: `processed` is set on the (possibly new) metadata. */
  function Marked(m: Message): (r: Message) {
    m.(metadata := Some(MetadataOrEmpty(m)["processed" := JBool(true)]))
  }

  const ValidationPrefix := "Message validation failed: "

  /** The error a failed parse throws: a plain `Error` whose message starts
      with "Message validation failed: "; the list of failing keys, each followed
      by ";", stands for the parser's own message text. */
  function ValidationError(issues: seq<string>): (e: Error)
    ensures e.kind == PlainError && e.cause == None
    ensures |e.message| >= |ValidationPrefix| && e.message[..|ValidationPrefix|] == ValidationPrefix
    ensures issues != [] ==> e.message[|e.message| - 1] == ';'
    decreases |issues|
  {
    if issues == [] then NewError(ValidationPrefix)
    else NewError(ValidationError(issues[..|issues| - 1]).message + issues[|issues| - 1] + ";")
  }

  /** `metadata.headers = metadata.headers || {}` on the message's own metadata
      object, the first thing the headers middleware changes. Without metadata
      the fresh `{}` is only attached at the end, so nothing changes. */
  function HeadersDefaulted(m: Message): Message {
    if m.metadata.Some? && !Truthy(HeadersOf(m.metadata.value)) then
      m.(metadata := Some(m.metadata.value["headers" := JObj(map[])]))
    else m
  }

  /** The message as an action leaves it when it throws: the headers middleware
      throws from `toISOString` after defaulting the headers in place; the other
      actions throw before they change anything. */
  function LeftByThrow(a: Action, m: Message): Message {
    if a.AddHeaders? then HeadersDefaulted(m) else m
  }

  /** Running one action against the message; when it throws, `LeftByThrow`
      gives the message it leaves behind. */
  function Apply(a: Action, destination: string, m: Message): (r: Outcome<Message>)
    ensures a.AddHeaders? ==>
      if ValidDate(m.timestamp) then r == Ok(WithHeaders(m, destination))
      else r == Fail(ThrownError(NewError("Invalid time value")))
    ensures a.MarkProcessed? ==> r == Ok(Marked(m))
    ensures a.Validate? ==> (r.Ok? <==> ValidMessage(m)) && (r.Ok? ==> r.value == m)
    ensures a.Validate? && r.Fail? ==> r == Fail(ThrownError(ValidationError(Issues(m))))
  {
    match a
    case AddHeaders =>
      if ValidDate(m.timestamp) then Ok(WithHeaders(m, destination))
      // `toISOString` throws a RangeError on an Invalid Date
      else Fail(ThrownError(NewError("Invalid time value")))
    case MarkProcessed => Ok(Marked(m))
    case Validate =>
      NoIssuesIffValid(m);
      if ValidMessage(m) then Ok(m) else Fail(ThrownError(ValidationError(Issues(m))))
    case Rewrite(f) => f(destination, m)
  }

  /** `metadata.headers`, undefined when absent. */
  function HeadersOf(meta: map<string, Json>): Json {
    if "headers" in meta then meta["headers"] else JUndefined
  }

  /** Merging keeps every metadata entry other than the headers. */
  lemma MergeKeepsRest(meta: map<string, Json>, added: map<string, Json>)
    ensures MergeHeaders(meta, added).Keys == meta.Keys + {"headers"}
    ensures forall k :: k in meta && k != "headers" ==> MergeHeaders(meta, added)[k] == meta[k]
  {
  }

  /** Unless the headers are a truthy non-object, merging leaves an object
      holding the added entries over the previous ones; a truthy non-object is
      left as it is. */
  lemma MergeStamps(meta: map<string, Json>, added: map<string, Json>)
    ensures var before := HeadersOf(meta);
            var after := HeadersOf(MergeHeaders(meta, added));
      && (before.JObj? || !Truthy(before) ==>
            && after.JObj?
            && (forall k :: k in added ==> k in after.fields && after.fields[k] == added[k])
            && (before.JObj? ==> forall k :: k in before.fields && k !in added ==> k in after.fields && after.fields[k] == before.fields[k])
            && (!before.JObj? ==> after.fields == added))
      && (!before.JObj? && Truthy(before) ==> MergeHeaders(meta, added) == meta)
  {
    var before := HeadersOf(meta);
    if !before.JObj? && Truthy(before) {
      assert "headers" in meta;
      assert meta["headers" := before] == meta;
    }
  }

  /** Merging the same entries twice is the same as merging them once. */
  lemma MergeIdempotent(meta: map<string, Json>, added: map<string, Json>)
    ensures MergeHeaders(MergeHeaders(meta, added), added) == MergeHeaders(meta, added)
  {
    var once := MergeHeaders(meta, added);
    var h := HeadersOf(once);
    if h.JObj? {
      assert h.fields + added == h.fields;
    }
    assert once["headers" := once["headers"]] == once;
  }

  /** Merging never turns metadata the schema accepts into metadata it rejects:
      the headers end as an object or as they were. */
  lemma MergeKeepsValidity(meta: map<string, Json>, added: map<string, Json>)
    requires forall i :: 0 <= i < |MetadataRules| ==> FieldOk(meta, MetadataRules[i].0, MetadataRules[i].1)
    ensures forall i :: 0 <= i < |MetadataRules| ==> FieldOk(MergeHeaders(meta, added), MetadataRules[i].0, MetadataRules[i].1)
  {
    var meta2 := MergeHeaders(meta, added);
    forall i | 0 <= i < |MetadataRules|
      ensures FieldOk(meta2, MetadataRules[i].0, MetadataRules[i].1)
    {
      if MetadataRules[i].0 == "headers" {
        assert i == 4;
        assert FieldOk(meta, MetadataRules[4].0, MetadataRules[4].1);
      } else {
        assert FieldOk(meta, MetadataRules[i].0, MetadataRules[i].1);
      }
    }
  }

  /** The headers middleware stamps the message id, its time and the
      destination, keeps the id, time, payload and every other metadata entry,
      is idempotent, and keeps a message the schema accepts acceptable. */
  lemma HeadersProperties(m: Message, destination: string)
    requires ValidDate(m.timestamp)
    ensures var r := WithHeaders(m, destination);
      && r.id == m.id && r.timestamp == m.timestamp && r.payload == m.payload
      && (var h := HeadersOf(MetadataOrEmpty(m)); h.JObj? || !Truthy(h) ==>
            var h2 := HeadersOf(MetadataOrEmpty(r));
            && h2.JObj?
            && h2.fields["x-message-id"] == JStr(m.id)
            && h2.fields["x-timestamp"] == JStr(IsoString(m.timestamp))
            && h2.fields["x-destination"] == JStr(destination))
      && (forall k :: k in MetadataOrEmpty(m) && k != "headers" ==> MetadataOrEmpty(r)[k] == MetadataOrEmpty(m)[k])
      && WithHeaders(r, destination) == r
      && (ValidMessage(m) ==> ValidMessage(r))
  {
    var meta := MetadataOrEmpty(m);
    var added := HeaderEntries(m, destination);
    MergeKeepsRest(meta, added);
    MergeStamps(meta, added);
    var r := WithHeaders(m, destination);
    assert HeaderEntries(r, destination) == added;
    MergeIdempotent(meta, added);
    if ValidMessage(m) && m.metadata.Some? {
      MergeKeepsValidity(meta, added);
    } else if ValidMessage(m) {
      MergeKeepsValidity(map[], added);
    }
  }

  /** The basic middleware sets `processed`, keeps every other metadata entry, is
      idempotent, and never affects the schema verdict. */
  lemma MarkedProperties(m: Message)
    ensures var r := Marked(m);
      && r.id == m.id && r.timestamp == m.timestamp && r.payload == m.payload
      && r.metadata.Some? && r.metadata.value["processed"] == JBool(true)
      && (forall k :: k in MetadataOrEmpty(m) && k != "processed" ==> k in r.metadata.value && r.metadata.value[k] == MetadataOrEmpty(m)[k])
      && Marked(r) == r
      && (ValidMessage(r) <==> ValidMessage(m.(metadata := Some(MetadataOrEmpty(m)))))
  {
    assert !Known("processed");
    UnknownKeysIgnored(m, "processed", JBool(true));
    var meta := MetadataOrEmpty(Marked(m));
    assert meta["processed" := JBool(true)] == meta;
  }

  // ---------------------------------------------------------------- handlers

  /** A middleware's handler. `Base` is `BaseMiddleware.handler`: run the action,
      then the rest of the chain. `Custom` is any other handler function: its own
      code, the rest of the chain when it calls `next()`, and its code after
      that; a throw in its code leaves the message as it was. */
  datatype Handler =
    | Base(action: Action)
    | Custom(before: Code, callsNext: bool, after: Code)

  datatype Middleware = Middleware(priority: Option<int>, handler: Handler)

  const HeadersMiddleware := Middleware(Some(100), Base(AddHeaders))
  const BasicMiddleware := Middleware(Some(100), Base(MarkProcessed))
  const ValidationMiddleware := Middleware(Some(300), Base(Validate))

  /** `priority || 0`. */
  function Prio(mw: Middleware): int {
    if mw.priority.Some? then mw.priority.value else 0
  }

  /** Descending priority, as the comparator `(b.priority || 0) - (a.priority || 0)` orders. */
  predicate Sorted(s: seq<Middleware>) {
    forall i, j :: 0 <= i < j < |s| ==> Prio(s[i]) >= Prio(s[j])
  }

  lemma SortedCons(a: Middleware, s: seq<Middleware>)
    requires Sorted(s) && (s != [] ==> Prio(a) >= Prio(s[0]))
    ensures Sorted([a] + s)
  {
    var r := [a] + s;
    forall i, j | 0 <= i < j < |r|
      ensures Prio(r[i]) >= Prio(r[j])
    {
      if i == 0 && j > 1 {
        assert Prio(s[0]) >= Prio(s[j - 1]);
      }
    }
  }

  /** Places `x` after every element of priority at least its own. */
  function Insert(s: seq<Middleware>, x: Middleware): (r: seq<Middleware>)
    requires Sorted(s)
    ensures Sorted(r)
    ensures multiset(r) == multiset(s) + multiset{x}
    ensures |r| == |s| + 1
    ensures r[0] == x || (s != [] && r[0] == s[0])
    decreases |s|
  {
    if s == [] then [x]
    else if Prio(x) > Prio(s[0]) then
      SortedCons(x, s);
      [x] + s
    else
      assert s == [s[0]] + s[1..];
      SortedTail(s);
      var rest := Insert(s[1..], x);
      assert |s| > 1 ==> Prio(s[0]) >= Prio(s[1]);
      SortedCons(s[0], rest);
      assert multiset([s[0]] + rest) == multiset{s[0]} + multiset(s[1..]) + multiset{x};
      [s[0]] + rest
  }

  lemma SortedTail(s: seq<Middleware>)
    requires Sorted(s) && s != []
    ensures Sorted(s[1..])
  {
    forall i, j | 0 <= i < j < |s| - 1
      ensures Prio(s[1..][i]) >= Prio(s[1..][j])
    {
      assert s[1..][i] == s[i + 1] && s[1..][j] == s[j + 1];
    }
  }

  /** `Array.prototype.sort` with that comparator: a stable sort. */
  function SortByPriority(s: seq<Middleware>): (r: seq<Middleware>)
    ensures Sorted(r)
    ensures multiset(r) == multiset(s)
    ensures |r| == |s|
  {
    if s == [] then []
    else
      assert s == s[..|s| - 1] + [s[|s| - 1]];
      Insert(SortByPriority(s[..|s| - 1]), s[|s| - 1])
  }

  /** The middlewares of priority `p`, in order. */
  function WithPriority(s: seq<Middleware>, p: int): seq<Middleware> {
    if s == [] then []
    else (if Prio(s[0]) == p then [s[0]] else []) + WithPriority(s[1..], p)
  }

  lemma {:induction false} WithPriorityAppend(a: seq<Middleware>, b: seq<Middleware>, p: int)
    ensures WithPriority(a + b, p) == WithPriority(a, p) + WithPriority(b, p)
    decreases |a|
  {
    if a == [] {
      assert a + b == b;
    } else {
      var head := if Prio(a[0]) == p then [a[0]] else [];
      assert (a + b)[0] == a[0] && (a + b)[1..] == a[1..] + b;
      assert WithPriority(a + b, p) == head + WithPriority(a[1..] + b, p);
      WithPriorityAppend(a[1..], b, p);
      assert head + (WithPriority(a[1..], p) + WithPriority(b, p)) == (head + WithPriority(a[1..], p)) + WithPriority(b, p);
    }
  }

  lemma {:induction false} InsertIsStable(s: seq<Middleware>, x: Middleware, p: int)
    requires Sorted(s)
    ensures WithPriority(Insert(s, x), p) == WithPriority(s, p) + WithPriority([x], p)
    decreases |s|
  {
    if s == [] {
    } else if Prio(x) > Prio(s[0]) {
      if Prio(x) == p {
        assert forall i :: 0 <= i < |s| ==> Prio(s[i]) < p;
        NoneWithPriority(s, p);
      }
      WithPriorityAppend([x], s, p);
    } else {
      InsertIsStable(s[1..], x, p);
      WithPriorityAppend([s[0]], Insert(s[1..], x), p);
      WithPriorityAppend([s[0]], s[1..], p);
      assert [s[0]] + s[1..] == s;
    }
  }

  lemma {:induction false} NoneWithPriority(s: seq<Middleware>, p: int)
    requires forall i :: 0 <= i < |s| ==> Prio(s[i]) != p
    ensures WithPriority(s, p) == []
    decreases |s|
  {
    if s != [] {
      NoneWithPriority(s[1..], p);
    }
  }

  /** The sort is stable: middlewares of equal priority keep the order in which
      they were added. */
  lemma {:induction false} SortIsStable(s: seq<Middleware>, p: int)
    ensures WithPriority(SortByPriority(s), p) == WithPriority(s, p)
    decreases |s|
  {
    if s != [] {
      var init, last := s[..|s| - 1], s[|s| - 1];
      SortIsStable(init, p);
      InsertIsStable(SortByPriority(init), last, p);
      WithPriorityAppend(init, [last], p);
      assert init + [last] == s;
    }
  }

  /** The validation middleware runs before the headers and basic middlewares in
      every chain that holds them. */
  lemma ValidationComesFirst(s: seq<Middleware>, i: nat, j: nat)
    requires i < |s| && j < |s|
    requires SortByPriority(s)[i] == ValidationMiddleware
    requires SortByPriority(s)[j] == HeadersMiddleware || SortByPriority(s)[j] == BasicMiddleware
    ensures i < j
  {
    HigherPriorityFirst(SortByPriority(s), i, j);
  }

  lemma HigherPriorityFirst(r: seq<Middleware>, i: nat, j: nat)
    requires Sorted(r) && i < |r| && j < |r|
    requires Prio(r[i]) > Prio(r[j])
    ensures i < j
  {
  }

  // ---------------------------------------------------------------- the chain

  /** `executeChain(0)` on a context whose message is `m`: the message the context
      ends with, and the error the chain rejects with, if any. */
  function Chain(hs: seq<Handler>, destination: string, m: Message): (Message, Option<Thrown>)
    decreases |hs|
  {
    if hs == [] then (m, None)
    else match hs[0]
      case Base(a) =>
        (match Apply(a, destination, m)
         case Fail(t) => (LeftByThrow(a, m), Some(t))
         case Ok(m1) => Chain(hs[1..], destination, m1))
      case Custom(before, callsNext, after) =>
        (match before(destination, m)
         case Fail(t) => (m, Some(t))
         case Ok(m1) => AfterNext(after, destination, if callsNext then Chain(hs[1..], destination, m1) else (m1, None)))
  }

  /** A custom middleware's work after `next()` has settled with `inner`. */
  function AfterNext(after: Code, destination: string, inner: (Message, Option<Thrown>)): (Message, Option<Thrown>) {
    var (m2, err) := inner;
    if err.Some? then (m2, err)
    else match after(destination, m2)
      case Fail(t) => (m2, Some(t))
      case Ok(m3) => (m3, None)
  }

  /** One step of the chain through a custom middleware. */
  lemma ChainCustomStep(h: Handler, rest: seq<Handler>, destination: string, m: Message)
    requires h.Custom?
    ensures h.before(destination, m).Fail? ==>
      Chain([h] + rest, destination, m) == (m, Some(h.before(destination, m).thrown))
    ensures h.before(destination, m).Ok? ==>
      var m1 := h.before(destination, m).value;
      Chain([h] + rest, destination, m) == AfterNext(h.after, destination, if h.callsNext then Chain(rest, destination, m1) else (m1, None))
  {
    assert ([h] + rest)[0] == h && ([h] + rest)[1..] == rest;
  }

  /** One step of the chain through a base middleware. */
  lemma ChainBaseStep(hs: seq<Handler>, destination: string, m: Message)
    requires hs != [] && hs[0].Base?
    ensures Apply(hs[0].action, destination, m).Fail? ==>
      Chain(hs, destination, m) == (LeftByThrow(hs[0].action, m), Some(Apply(hs[0].action, destination, m).thrown))
    ensures Apply(hs[0].action, destination, m).Ok? ==>
      Chain(hs, destination, m) == Chain(hs[1..], destination, Apply(hs[0].action, destination, m).value)
  {
  }

  function Handlers(s: seq<Middleware>): (hs: seq<Handler>)
    ensures |hs| == |s| && forall i :: 0 <= i < |s| ==> hs[i] == s[i].handler
  {
    if s == [] then [] else [s[0].handler] + Handlers(s[1..])
  }

  /** Running `Base` actions in turn, stopping at the first that throws. */
  function Actions(acts: seq<Action>, destination: string, m: Message): (Message, Option<Thrown>)
    decreases |acts|
  {
    if acts == [] then (m, None)
    else match Apply(acts[0], destination, m)
      case Fail(t) => (LeftByThrow(acts[0], m), Some(t))
      case Ok(m1) => Actions(acts[1..], destination, m1)
  }

  function BaseOf(acts: seq<Action>): (hs: seq<Handler>)
    ensures |hs| == |acts| && forall i :: 0 <= i < |acts| ==> hs[i] == Base(acts[i])
  {
    if acts == [] then [] else [Base(acts[0])] + BaseOf(acts[1..])
  }

  /** A chain of base middlewares runs their actions in order and stops at the
      first that throws, leaving the message as the actions before it, and the
      throwing one, made it. */
  lemma {:induction false} BaseChainRunsActionsInOrder(acts: seq<Action>, destination: string, m: Message)
    ensures Chain(BaseOf(acts), destination, m) == Actions(acts, destination, m)
    decreases |acts|
  {
    if acts != [] {
      assert BaseOf(acts)[1..] == BaseOf(acts[1..]);
      match Apply(acts[0], destination, m)
      case Fail(t) =>
      case Ok(m1) => BaseChainRunsActionsInOrder(acts[1..], destination, m1);
    }
  }

  /** Nothing after a middleware that throws runs: appending middlewares behind
      a prefix that fails changes nothing. */
  lemma {:induction false} FailureStopsChain(hs: seq<Handler>, rest: seq<Handler>, destination: string, m: Message)
    requires forall i :: 0 <= i < |hs| ==> hs[i].Base?
    requires Chain(hs, destination, m).1.Some?
    ensures Chain(hs + rest, destination, m) == Chain(hs, destination, m)
    decreases |hs|
  {
    assert hs != [];
    assert (hs + rest)[1..] == hs[1..] + rest;
    match Apply(hs[0].action, destination, m)
    case Fail(t) =>
    case Ok(m1) => FailureStopsChain(hs[1..], rest, destination, m1);
  }

  /** A middleware that does not call `next` hides the rest of the chain. */
  lemma NotCallingNextStops(before: Code, after: Code, rest: seq<Handler>, destination: string, m: Message)
    ensures Chain([Custom(before, false, after)] + rest, destination, m) == Chain([Custom(before, false, after)], destination, m)
  {
    assert ([Custom(before, false, after)] + rest)[1..] == rest;
  }

  /** Onion order: an outer middleware's `after` action sees the message the
      inner ones produced. */
  lemma OuterAfterSeesInner(before: Code, after: Code, inner: seq<Handler>, destination: string, m: Message)
    requires before(destination, m).Ok?
    ensures var m1 := before(destination, m).value;
            var (m2, err) := Chain(inner, destination, m1);
      err.None? ==>
        Chain([Custom(before, true, after)] + inner, destination, m)
          == (match after(destination, m2) case Ok(m3) => (m3, None) case Fail(t) => (m2, Some(t)))
  {
    assert ([Custom(before, true, after)] + inner)[1..] == inner;
  }

  /** The built-in chain (validation, headers, basic): a message the schema
      rejects, an Invalid Date included, is left untouched with the validation
      error, so the headers middleware never sees an Invalid Date; any other
      message gets its headers and then `processed`. */
  lemma BuiltInChain(destination: string, m: Message)
    ensures var (r, err) := Chain(BaseOf([Validate, AddHeaders, MarkProcessed]), destination, m);
      && (err.None? <==> ValidMessage(m))
      && (err.Some? ==> r == m && err == Some(ThrownError(ValidationError(Issues(m)))))
      && (!ValidDate(m.timestamp) ==> err.Some? && Issues(m)[0] == "timestamp")
      && (err.None? ==> r == Marked(WithHeaders(m, destination)) && ValidMessage(WithHeaders(m, destination)))
  {
    BaseChainRunsActionsInOrder([Validate, AddHeaders, MarkProcessed], destination, m);
    var acts := [Validate, AddHeaders, MarkProcessed];
    assert acts[1..] == [AddHeaders, MarkProcessed];
    assert acts[1..][1..] == [MarkProcessed];
    assert acts[1..][1..][1..] == [];
    if ValidMessage(m) {
      HeadersProperties(m, destination);
    } else if !ValidDate(m.timestamp) {
      IssuesAreReal(m, "timestamp");
    }
  }

  /** Run without validation in front of it, the headers middleware throws
      "Invalid time value" on an Invalid Date, after it has already given the
      message's own metadata an object for its headers; nothing else changes. */
  lemma HeadersThrowOnInvalidDate(destination: string, m: Message)
    requires !ValidDate(m.timestamp)
    ensures var (r, err) := Chain(BaseOf([AddHeaders]), destination, m);
      && err == Some(ThrownError(NewError("Invalid time value")))
      && r.id == m.id && r.timestamp == m.timestamp && r.payload == m.payload
      && (m.metadata.None? ==> r == m)
      && (m.metadata.Some? ==>
            && r.metadata.Some? && Truthy(HeadersOf(r.metadata.value))
            && (Truthy(HeadersOf(m.metadata.value)) ==> r == m)
            && forall k :: k in m.metadata.value && k != "headers" ==> k in r.metadata.value && r.metadata.value[k] == m.metadata.value[k])
  {
    assert BaseOf([AddHeaders]) == [Base(AddHeaders)];
  }

  // ---------------------------------------------------------------- objects

  /** The context handed along the chain; middlewares replace its message. */
  class Context {
    const destination: string
    var message: Message
    var metadata: map<string, Json>

    constructor (destination: string, message: Message)
      ensures this.destination == destination && this.message == message && metadata == map[]
    {
      this.destination := destination;
      this.message := message;
      metadata := map[];
    }
  }

  class MiddlewareChain {
    var middlewares: seq<Middleware>

    constructor ()
      ensures middlewares == []
    {
      middlewares := [];
    }

    /** `add`: push, then re-sort. */
    method Add(mw: Middleware)
      modifies this
      ensures middlewares == SortByPriority(old(middlewares) + [mw])
      ensures Sorted(middlewares) && multiset(middlewares) == multiset(old(middlewares)) + multiset{mw}
    {
      middlewares := SortByPriority(middlewares + [mw]);
    }

    /** `execute(context)`: the context's message ends as the chain leaves it;
        the returned error is the one `execute` rejects with. */
    method Execute(context: Context) returns (error: Option<Thrown>)
      modifies context
      ensures (context.message, error) == Chain(Handlers(middlewares), context.destination, old(context.message))
    {
      error := ExecuteFrom(0, context);
      assert Handlers(middlewares)[0..] == Handlers(middlewares);
    }

    /** `executeChain(index)`. */
    method ExecuteFrom(index: nat, context: Context) returns (error: Option<Thrown>)
      requires index <= |middlewares|
      modifies context
      ensures (context.message, error) == Chain(Handlers(middlewares)[index..], context.destination, old(context.message))
      decreases |middlewares| - index, 2
    {
      var hs := Handlers(middlewares);
      if index == |middlewares| {
        assert hs[index..] == [];
        return None;
      }
      match middlewares[index].handler
      case Base(a) =>
        ChainBaseStep(hs[index..], context.destination, context.message);
        assert hs[index..][1..] == hs[index + 1..];
        var r := Apply(a, context.destination, context.message);
        if r.Fail? {
          context.message := LeftByThrow(a, context.message);
          return Some(r.thrown);
        }
        context.message := r.value;
        error := ExecuteFrom(index + 1, context);
      case Custom(_, _, _) =>
        error := ExecuteCustom(index, context);
    }

    /** One custom middleware: its work before `next()`, the rest of the chain
        when it calls `next()`, and its work after. */
    method ExecuteCustom(index: nat, context: Context) returns (error: Option<Thrown>)
      requires index < |middlewares| && middlewares[index].handler.Custom?
      modifies context
      ensures (context.message, error) == Chain(Handlers(middlewares)[index..], context.destination, old(context.message))
      decreases |middlewares| - index, 1
    {
      ghost var hs := Handlers(middlewares);
      var h := middlewares[index].handler;
      assert hs[index..] == [h] + hs[index + 1..];
      ChainCustomStep(h, hs[index + 1..], context.destination, context.message);
      var r := h.before(context.destination, context.message);
      if r.Fail? {
        error := Some(r.thrown);
      } else {
        context.message := r.value;
        error := ContinueCustom(index, context);
      }
    }

    /** A custom middleware after its own code: the rest of the chain when it
        calls `next()`, then its code after that. */
    method ContinueCustom(index: nat, context: Context) returns (error: Option<Thrown>)
      requires index < |middlewares| && middlewares[index].handler.Custom?
      modifies context
      ensures var h := middlewares[index].handler;
        (context.message, error)
          == AfterNext(h.after, context.destination,
                       if h.callsNext then Chain(Handlers(middlewares)[index + 1..], context.destination, old(context.message))
                       else (old(context.message), None))
      decreases |middlewares| - index, 0
    {
      var h := middlewares[index].handler;
      error := None;
      if h.callsNext {
        error := ExecuteFrom(index + 1, context);
      }
      if error.None? {
        error := RunAfter(h.after, context);
      }
    }

    /** A custom middleware's work after `next()` returned without error. */
    method RunAfter(after: Code, context: Context) returns (error: Option<Thrown>)
      modifies context
      ensures (context.message, error) == AfterNext(after, context.destination, (old(context.message), None))
    {
      var r := after(context.destination, context.message);
      if r.Fail? {
        return Some(r.thrown);
      }
      context.message := r.value;
      error := None;
    }
  }
}

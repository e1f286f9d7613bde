/** `messageSchema` of src/config/validation.ts. The id and payload rules hold
    by construction of `Message`. What remains is the timestamp rule, which
    `z.date()` breaks for an Invalid Date, and the optional metadata object,
    whose seven known keys each carry a rule and whose other keys are ignored
    (stripped by the schema). */
module Schema {
  import opened Base

  /** The largest magnitude of a valid `Date`, in milliseconds. A `Date`
      object's time value is NaN (an Invalid Date) when it would lie beyond it;
      the model stands for such a date by a timestamp outside this range. */
  const MaxTime := 8_640_000_000_000_000

  /** Whether the message's `Date` is valid, as `z.date()` requires. */
  predicate ValidDate(t: Timestamp) {
    -MaxTime <= t <= MaxTime
  }

  /** A field rule: a number in a range (upper bound optional), a string, or a
      plain object (`z.record(z.unknown())`). Every rule is `.optional()`, so
      `undefined` passes. */
  datatype Rule = NumberIn(lo: int, hi: Option<int>) | Str | Record

  /** The metadata keys in schema order. */
  const MetadataRules: seq<(string, Rule)> := [
    ("priority", NumberIn(0, Some(10))),
    ("delay", NumberIn(0, None)),
    ("contentType", Str),
    ("correlationId", Str),
    ("headers", Record),
    ("retryCount", NumberIn(0, None)),
    ("deadLetterQueue", Str)
  ]

  predicate Satisfies(v: Json, r: Rule) {
    match v
    case JUndefined => true
    case JNum(n) => r.NumberIn? && r.lo <= n && (r.hi.Some? ==> n <= r.hi.value)
    case JStr(_) => r.Str?
    case JObj(_) => r.Record?
    case _ => false
  }

  predicate FieldOk(meta: map<string, Json>, key: string, r: Rule) {
    key !in meta || Satisfies(meta[key], r)
  }

  /** `messageSchema.safeParse(message).success`. */
  predicate ValidMessage(m: Message) {
    && ValidDate(m.timestamp)
    && (m.metadata.None? ||
        forall i :: 0 <= i < |MetadataRules| ==> FieldOk(m.metadata.value, MetadataRules[i].0, MetadataRules[i].1))
  }

  /** The metadata keys that break their rule, in schema order: the paths of
      the metadata issues the parse reports. */
  function IssuesIn(meta: map<string, Json>, rules: seq<(string, Rule)>): (issues: seq<string>)
    ensures |issues| <= |rules|
    ensures forall k :: k in issues ==> k in meta && exists i :: 0 <= i < |rules| && rules[i].0 == k && !Satisfies(meta[k], rules[i].1)
    ensures issues == [] <==> forall i :: 0 <= i < |rules| ==> FieldOk(meta, rules[i].0, rules[i].1)
  {
    if rules == [] then []
    else
      var rest := IssuesIn(meta, rules[1..]);
      assert forall i :: 1 <= i < |rules| ==> rules[i] == rules[1..][i - 1];
      if FieldOk(meta, rules[0].0, rules[0].1) then rest else [rules[0].0] + rest
  }

  /** The paths of every issue the parse reports, in the schema's key order:
      `timestamp` for an Invalid Date, then the metadata keys. */
  function Issues(m: Message): seq<string> {
    (if ValidDate(m.timestamp) then [] else ["timestamp"])
      + (if m.metadata.None? then [] else IssuesIn(m.metadata.value, MetadataRules))
  }

  /** A message passes the schema exactly when no issue is reported. */
  lemma NoIssuesIffValid(m: Message)
    ensures Issues(m) == [] <==> ValidMessage(m)
  {
  }

  /** Every reported issue is real: `timestamp` names an Invalid Date, and any
      other path names a metadata key the schema knows and whose value breaks
      that key's rule. An Invalid Date is reported first. */
  lemma IssuesAreReal(m: Message, k: string)
    requires k in Issues(m)
    ensures k == "timestamp" ==> !ValidDate(m.timestamp)
    ensures k != "timestamp" ==>
      && m.metadata.Some? && k in m.metadata.value
      && exists i :: 0 <= i < |MetadataRules| && MetadataRules[i].0 == k && !Satisfies(m.metadata.value[k], MetadataRules[i].1)
    ensures !ValidDate(m.timestamp) ==> Issues(m)[0] == "timestamp"
  {
    forall i | 0 <= i < |MetadataRules|
      ensures MetadataRules[i].0 != "timestamp"
    {
      assert MetadataRules[i].0[0] != 't';
    }
  }

  predicate Known(key: string) {
    exists i :: 0 <= i < |MetadataRules| && MetadataRules[i].0 == key
  }

  /** Keys the schema does not name never affect the verdict. */
  lemma UnknownKeysIgnored(m: Message, key: string, v: Json)
    requires !Known(key)
    ensures var meta := if m.metadata.Some? then m.metadata.value else map[];
      ValidMessage(m.(metadata := Some(meta[key := v]))) <==> ValidMessage(m.(metadata := Some(meta)))
  {
    var meta := if m.metadata.Some? then m.metadata.value else map[];
    forall i | 0 <= i < |MetadataRules|
      ensures FieldOk(meta[key := v], MetadataRules[i].0, MetadataRules[i].1) <==> FieldOk(meta, MetadataRules[i].0, MetadataRules[i].1)
    {
      assert MetadataRules[i].0 != key;
    }
  }

  /** The priority bound is inclusive at both ends. */
  lemma PriorityBounds(m: Message, p: int)
    requires m.metadata == Some(map["priority" := JNum(p)])
    ensures ValidMessage(m) <==> ValidDate(m.timestamp) && 0 <= p <= 10
  {
    if !(0 <= p <= 10) {
      assert !FieldOk(m.metadata.value, MetadataRules[0].0, MetadataRules[0].1);
    }
  }
}

/**
 * The wire image of one metric event: a flat JSON object whose field order,
 * metric-name strings and omission of `timeline_id` for tenant-level
 * metrics are fixed, because downstream billing compares the bytes.
 * Timestamp and id formatting (RFC 3339 with nanoseconds, the timestamp's
 * display form, 32-digit hex ids) comes from foreign libraries and is
 * passed in as `Formats`.
 */
module EventImage {
  import opened Wrappers
  import opened MetricsKeys

  datatype Formats = Formats(
    rfc3339: Time -> string,
    display: Time -> string,
    tenantHex: TenantId -> string,
    timelineHex: TimelineId -> string)

  /** The event uploaded for one raw metric. */
  datatype Event = Event(
    kind: EventType,
    metric: Name,
    idempotencyKey: string,
    value: nat,
    tenantId: TenantId,
    timelineId: Option<TimelineId>)

  datatype JsonValue = JString(s: string) | JNumber(n: nat)

  type Field = (string, JsonValue)

  /** The serialized name of each metric. */
  function MetricName(n: Name): (s: string)
    ensures s != [] && forall i | 0 <= i < |s| :: 'a' <= s[i] <= 'z' || s[i] == '_'
  {
    match n
    case WrittenSize => "written_size"
    case WrittenSizeDelta => "written_data_bytes_delta"
    case LogicalSize => "timeline_logical_size"
    case RemoteSize => "remote_storage_size"
    case ResidentSize => "resident_size"
    case SyntheticSize => "synthetic_storage_size"
  }

  /** Distinct metrics are never serialized under the same name. */
  lemma MetricNamesDistinct(a: Name, b: Name)
    ensures MetricName(a) == MetricName(b) ==> a == b
  {
  }

  // ---- decimal numbers ----

  predicate IsDigit(c: char) {
    '0' <= c <= '9'
  }

  function DigitChar(d: nat): char
    requires d < 10
  {
    "0123456789"[d]
  }

  /** The decimal form of `n`: digits only, and no leading zero unless it is "0". */
  function Decimal(n: nat): (s: string)
    ensures |s| >= 1 && (forall i | 0 <= i < |s| :: IsDigit(s[i]))
    ensures |s| > 1 ==> s[0] != '0'
    decreases n
  {
    if n < 10 then [DigitChar(n)] else Decimal(n / 10) + [DigitChar(n % 10)]
  }

  /** The number a string of digits denotes. */
  function DecimalValue(s: string): nat
    requires forall i | 0 <= i < |s| :: IsDigit(s[i])
    decreases |s|
  {
    if s == [] then 0
    else
      assert IsDigit(s[|s| - 1]);
      DecimalValue(s[..|s| - 1]) * 10 + (s[|s| - 1] as int - '0' as int)
  }

  /** Reading back the decimal form of `n` gives `n`. */
  lemma {:induction false} DecimalRoundTrip(n: nat)
    ensures DecimalValue(Decimal(n)) == n
    decreases n
  {
    var s := Decimal(n);
    if n >= 10 {
      DecimalRoundTrip(n / 10);
      assert s[..|s| - 1] == Decimal(n / 10);
    }
  }

  /** Leading zeros do not change the number a digit string denotes. */
  lemma {:induction false} LeadingZerosIgnored(k: nat, s: string)
    requires forall i | 0 <= i < |s| :: IsDigit(s[i])
    ensures forall i | 0 <= i < |Zeros(k) + s| :: IsDigit((Zeros(k) + s)[i])
    ensures DecimalValue(Zeros(k) + s) == DecimalValue(s)
    decreases |s|
  {
    if s == [] {
      assert Zeros(k) + s == Zeros(k);
      ZerosValue(k);
    } else {
      var t := Zeros(k) + s;
      assert t[..|t| - 1] == Zeros(k) + s[..|s| - 1];
      LeadingZerosIgnored(k, s[..|s| - 1]);
    }
  }

  function Zeros(k: nat): (z: string)
    ensures |z| == k && forall i | 0 <= i < k :: z[i] == '0'
  {
    seq(k, _ => '0')
  }

  lemma {:induction false} ZerosValue(k: nat)
    ensures DecimalValue(Zeros(k)) == 0
    decreases k
  {
    if k > 0 {
      assert Zeros(k)[..k - 1] == Zeros(k - 1);
      ZerosValue(k - 1);
    }
  }

  /** `{:04}`: the decimal form of `n`, zero-padded on the left to at least four digits. */
  function Pad4(n: nat): (s: string)
    ensures |s| == if |Decimal(n)| < 4 then 4 else |Decimal(n)|
    ensures forall i | 0 <= i < |s| :: IsDigit(s[i])
    ensures DecimalValue(s) == n
  {
    var d := Decimal(n);
    var z := if |d| < 4 then Zeros(4 - |d|) else Zeros(0);
    LeadingZerosIgnored(|z|, d);
    DecimalRoundTrip(n);
    z + d
  }

  // ---- idempotency key ----

  /**
   * `"<timestamp>-<node>-<seq>"`, where the timestamp's display form ends
   * in " UTC" and the sequence number has at least four digits.
   */
  function IdempotencyKey(timestamp: string, node: string, sequence: nat): (key: string)
    ensures |key| == |timestamp| + |node| + 2 + |Pad4(sequence)|
    ensures |key| >= |timestamp| + |node| + 6
    ensures key[..|timestamp|] == timestamp
    ensures key[|timestamp| .. |timestamp| + |node| + 2] == "-" + node + "-"
    ensures var tail := key[|timestamp| + |node| + 2..];
            (forall i | 0 <= i < |tail| :: IsDigit(tail[i])) && DecimalValue(tail) == sequence
  {
    var k := timestamp + "-" + node + "-" + Pad4(sequence);
    assert k[|timestamp| + |node| + 2..] == Pad4(sequence);
    k
  }

  // ---- event and fields ----

  /** The event uploaded for `m` under a caller-supplied idempotency key. */
  function EventOf(m: RawMetric, idempotencyKey: string): Event {
    Event(m.1.0, m.0.metric, idempotencyKey, m.1.1, m.0.tenantId, m.0.timelineId)
  }

  const AbsoluteFieldOrder: seq<string> :=
    ["type", "time", "metric", "idempotency_key", "value", "tenant_id", "timeline_id"]
  const IncrementalFieldOrder: seq<string> :=
    ["type", "start_time", "stop_time", "metric", "idempotency_key", "value", "tenant_id", "timeline_id"]

  function Names(fields: seq<Field>): (names: seq<string>)
    ensures |names| == |fields| && forall i | 0 <= i < |fields| :: names[i] == fields[i].0
  {
    seq(|fields|, i requires 0 <= i < |fields| => fields[i].0)
  }

  /**
   * The fields of an event's image, in wire order: the fixed order,
   * with `timeline_id` dropped exactly when the event has no timeline.
   */
  function Fields(e: Event, fmt: Formats): (r: seq<Field>)
    ensures var order := if e.kind.Absolute? then AbsoluteFieldOrder else IncrementalFieldOrder;
            Names(r) == if e.timelineId.Some? then order else order[..|order| - 1]
    ensures r[0].1 == JString(if e.kind.Absolute? then "absolute" else "incremental")
  {
    var times := match e.kind
      case Absolute(t) => [("time", JString(fmt.rfc3339(t)))]
      case Incremental(start, stop) =>
        [("start_time", JString(fmt.rfc3339(start))), ("stop_time", JString(fmt.rfc3339(stop)))];
    var r := [("type", JString(if e.kind.Absolute? then "absolute" else "incremental"))]
      + times
      + [ ("metric", JString(MetricName(e.metric))),
          ("idempotency_key", JString(e.idempotencyKey)),
          ("value", JNumber(e.value)),
          ("tenant_id", JString(fmt.tenantHex(e.tenantId))) ]
      + match e.timelineId
        case Some(tl) => [("timeline_id", JString(fmt.timelineHex(tl)))]
        case None => [];
    var order := if e.kind.Absolute? then AbsoluteFieldOrder else IncrementalFieldOrder;
    assert Names(r) == if e.timelineId.Some? then order else order[..|order| - 1];
    r
  }

  /**
   * Whatever the metric, its event's fields are the type tag, the time
   * field(s) of its kind, then its metric name, the key, its value and its
   * tenant, and last its timeline, which is there exactly when the metric
   * has one.
   */
  lemma EventMembers(m: RawMetric, key: string, fmt: Formats)
    ensures var r := Fields(EventOf(m, key), fmt);
            var n := if m.1.0.Absolute? then 2 else 3;
            && |r| == (if m.0.timelineId.Some? then n + 5 else n + 4)
            && r[0] == ("type", JString(if m.1.0.Absolute? then "absolute" else "incremental"))
            && (match m.1.0
                case Absolute(t) => r[1] == ("time", JString(fmt.rfc3339(t)))
                case Incremental(start, stop) =>
                  r[1] == ("start_time", JString(fmt.rfc3339(start))) && r[2] == ("stop_time", JString(fmt.rfc3339(stop))))
            && r[n] == ("metric", JString(MetricName(m.0.metric)))
            && r[n + 1] == ("idempotency_key", JString(key))
            && r[n + 2] == ("value", JNumber(m.1.1))
            && r[n + 3] == ("tenant_id", JString(fmt.tenantHex(m.0.tenantId)))
            && ("timeline_id" in Names(r) <==> m.0.timelineId.Some?)
            && (m.0.timelineId.Some? ==> r[n + 4] == ("timeline_id", JString(fmt.timelineHex(m.0.timelineId.value))))
  {
    var r := Fields(EventOf(m, key), fmt);
    if m.0.timelineId.None? {
      var order := if m.1.0.Absolute? then AbsoluteFieldOrder else IncrementalFieldOrder;
      assert Names(r) == order[..|order| - 1];
      assert "timeline_id" !in order[..|order| - 1];
    }
  }

  /** Every field name appears at most once in either order. */
  lemma FieldNamesUnique()
    ensures forall i, j | 0 <= i < j < |AbsoluteFieldOrder| :: AbsoluteFieldOrder[i] != AbsoluteFieldOrder[j]
    ensures forall i, j | 0 <= i < j < |IncrementalFieldOrder| :: IncrementalFieldOrder[i] != IncrementalFieldOrder[j]
  {
  }

  // ---- rendering (string escaping is not modelled) ----

  /** One `"name":value` member of the object. */
  function Member(f: Field): string {
    match f.1
    case JString(s) => "\"" + f.0 + "\":\"" + s + "\""
    case JNumber(n) => "\"" + f.0 + "\":" + Decimal(n)
  }

  function Members(fields: seq<Field>): (ms: seq<string>)
    ensures |ms| == |fields| && forall i | 0 <= i < |fields| :: ms[i] == Member(fields[i])
  {
    seq(|fields|, i requires 0 <= i < |fields| => Member(fields[i]))
  }

  /** `parts`, separated by commas. */
  function Join(parts: seq<string>): string
    decreases |parts|
  {
    if parts == [] then ""
    else if |parts| == 1 then parts[0]
    else parts[0] + "," + Join(parts[1..])
  }

  /** An object image with the given members, in order. */
  function Image(fields: seq<Field>): string {
    "{" + Join(Members(fields)) + "}"
  }

  /** A comma-separated list starts with its first part. */
  lemma {:induction false} JoinStartsWith(parts: seq<string>)
    requires parts != []
    ensures |Join(parts)| >= |parts[0]| && Join(parts)[..|parts[0]|] == parts[0]
  {
    if |parts| > 1 {
      assert Join(parts) == parts[0] + ("," + Join(parts[1..]));
    }
  }

  /**
   * `serde_json::to_string` of an event: its fields, in order, as one flat
   * object, which opens with the `type` member and closes the brace.
   */
  function Serialize(e: Event, fmt: Formats): (image: string)
    ensures |image| >= 10 && image[..9] == "{\"type\":\"" && image[|image| - 1] == '}'
  {
    var fields := Fields(e, fmt);
    var tag := if e.kind.Absolute? then "absolute" else "incremental";
    var ms := Members(fields);
    JoinStartsWith(ms);
    assert ms[0] == "\"type\":\"" + tag + "\"" by {
      assert "\"" + "type" + "\":\"" == "\"type\":\"";
    }
    var j := Join(ms);
    assert j[..8] == "\"type\":\"" by {
      assert ms[0][..8] == "\"type\":\"";
      assert j[..8] == j[..|ms[0]|][..8];
    }
    assert ("{" + j + "}")[..9] == "{" + j[..8];
    assert "{" + "\"type\":\"" == "{\"type\":\"";
    Image(fields)
  }

  // ---- the fixed images ----

  const AllZeroTenant := TenantId(0)
  const AllOnesTimeline := TimelineId(0xffff_ffff_ffff_ffff_ffff_ffff_ffff_ffff)

  /** The formatting of the fixed ids and instants of the stability fixture. */
  predicate StabilityFixture(fmt: Formats, now: Time, before: Time) {
    && fmt.rfc3339(now) == "2023-09-15T00:00:00.123456789Z"
    && fmt.rfc3339(before) == "2023-09-14T00:00:00.123456789Z"
    && fmt.display(now) == "2023-09-15 00:00:00.123456789 UTC"
    && fmt.tenantHex(AllZeroTenant) == "00000000000000000000000000000000"
    && fmt.timelineHex(AllOnesTimeline) == "ffffffffffffffffffffffffffffffff"
  }

  /** The idempotency key of the fixture: node "1", sequence number 0. */
  lemma FixtureKey(fmt: Formats, now: Time, before: Time)
    requires StabilityFixture(fmt, now, before)
    ensures IdempotencyKey(fmt.display(now), "1", 0) == "2023-09-15 00:00:00.123456789 UTC-1-0000"
  {
    assert Decimal(0) == "0";
    assert Zeros(3) == "000";
  }

  /** The three timeline-level images of the fixture, each carrying `timeline_id` last. */
  lemma TimelineImagesStable(fmt: Formats, now: Time, before: Time)
    requires StabilityFixture(fmt, now, before)
    ensures var key := IdempotencyKey(fmt.display(now), "1", 0);
      && Serialize(EventOf(WrittenSizeOf(AllZeroTenant, AllOnesTimeline).At(now, 0), key), fmt)
         == Image([("type", JString("absolute")),
                   ("time", JString("2023-09-15T00:00:00.123456789Z")),
                   ("metric", JString("written_size")),
                   ("idempotency_key", JString("2023-09-15 00:00:00.123456789 UTC-1-0000")),
                   ("value", JNumber(0)),
                   ("tenant_id", JString("00000000000000000000000000000000")),
                   ("timeline_id", JString("ffffffffffffffffffffffffffffffff"))])
      && Serialize(EventOf(WrittenSizeDeltaOf(AllZeroTenant, AllOnesTimeline).FromPreviousUpTo(before, now, 0), key), fmt)
         == Image([("type", JString("incremental")),
                   ("start_time", JString("2023-09-14T00:00:00.123456789Z")),
                   ("stop_time", JString("2023-09-15T00:00:00.123456789Z")),
                   ("metric", JString("written_data_bytes_delta")),
                   ("idempotency_key", JString("2023-09-15 00:00:00.123456789 UTC-1-0000")),
                   ("value", JNumber(0)),
                   ("tenant_id", JString("00000000000000000000000000000000")),
                   ("timeline_id", JString("ffffffffffffffffffffffffffffffff"))])
      && Serialize(EventOf(TimelineLogicalSizeOf(AllZeroTenant, AllOnesTimeline).At(now, 0), key), fmt)
         == Image([("type", JString("absolute")),
                   ("time", JString("2023-09-15T00:00:00.123456789Z")),
                   ("metric", JString("timeline_logical_size")),
                   ("idempotency_key", JString("2023-09-15 00:00:00.123456789 UTC-1-0000")),
                   ("value", JNumber(0)),
                   ("tenant_id", JString("00000000000000000000000000000000")),
                   ("timeline_id", JString("ffffffffffffffffffffffffffffffff"))])
  {
    FixtureKey(fmt, now, before);
    var key := IdempotencyKey(fmt.display(now), "1", 0);
    assert Fields(EventOf(WrittenSizeOf(AllZeroTenant, AllOnesTimeline).At(now, 0), key), fmt) == [("type", JString("absolute")), ("time", JString("2023-09-15T00:00:00.123456789Z")), ("metric", JString("written_size")), ("idempotency_key", JString("2023-09-15 00:00:00.123456789 UTC-1-0000")), ("value", JNumber(0)), ("tenant_id", JString("00000000000000000000000000000000")), ("timeline_id", JString("ffffffffffffffffffffffffffffffff"))];
    assert Fields(EventOf(WrittenSizeDeltaOf(AllZeroTenant, AllOnesTimeline).FromPreviousUpTo(before, now, 0), key), fmt) == [("type", JString("incremental")), ("start_time", JString("2023-09-14T00:00:00.123456789Z")), ("stop_time", JString("2023-09-15T00:00:00.123456789Z")), ("metric", JString("written_data_bytes_delta")), ("idempotency_key", JString("2023-09-15 00:00:00.123456789 UTC-1-0000")), ("value", JNumber(0)), ("tenant_id", JString("00000000000000000000000000000000")), ("timeline_id", JString("ffffffffffffffffffffffffffffffff"))];
    assert Fields(EventOf(TimelineLogicalSizeOf(AllZeroTenant, AllOnesTimeline).At(now, 0), key), fmt) == [("type", JString("absolute")), ("time", JString("2023-09-15T00:00:00.123456789Z")), ("metric", JString("timeline_logical_size")), ("idempotency_key", JString("2023-09-15 00:00:00.123456789 UTC-1-0000")), ("value", JNumber(0)), ("tenant_id", JString("00000000000000000000000000000000")), ("timeline_id", JString("ffffffffffffffffffffffffffffffff"))];
  }

  /** The three tenant-level images of the fixture, which omit `timeline_id`. */
  lemma TenantImagesStable(fmt: Formats, now: Time, before: Time)
    requires StabilityFixture(fmt, now, before)
    ensures var key := IdempotencyKey(fmt.display(now), "1", 0);
      && Serialize(EventOf(RemoteStorageSizeOf(AllZeroTenant).At(now, 0), key), fmt)
         == Image([("type", JString("absolute")),
                   ("time", JString("2023-09-15T00:00:00.123456789Z")),
                   ("metric", JString("remote_storage_size")),
                   ("idempotency_key", JString("2023-09-15 00:00:00.123456789 UTC-1-0000")),
                   ("value", JNumber(0)),
                   ("tenant_id", JString("00000000000000000000000000000000"))])
      && Serialize(EventOf(ResidentSizeOf(AllZeroTenant).At(now, 0), key), fmt)
         == Image([("type", JString("absolute")),
                   ("time", JString("2023-09-15T00:00:00.123456789Z")),
                   ("metric", JString("resident_size")),
                   ("idempotency_key", JString("2023-09-15 00:00:00.123456789 UTC-1-0000")),
                   ("value", JNumber(0)),
                   ("tenant_id", JString("00000000000000000000000000000000"))])
      && Serialize(EventOf(SyntheticSizeOf(AllZeroTenant).At(now, 1), key), fmt)
         == Image([("type", JString("absolute")),
                   ("time", JString("2023-09-15T00:00:00.123456789Z")),
                   ("metric", JString("synthetic_storage_size")),
                   ("idempotency_key", JString("2023-09-15 00:00:00.123456789 UTC-1-0000")),
                   ("value", JNumber(1)),
                   ("tenant_id", JString("00000000000000000000000000000000"))])
  {
    FixtureKey(fmt, now, before);
    var key := IdempotencyKey(fmt.display(now), "1", 0);
    assert Fields(EventOf(RemoteStorageSizeOf(AllZeroTenant).At(now, 0), key), fmt) == [("type", JString("absolute")), ("time", JString("2023-09-15T00:00:00.123456789Z")), ("metric", JString("remote_storage_size")), ("idempotency_key", JString("2023-09-15 00:00:00.123456789 UTC-1-0000")), ("value", JNumber(0)), ("tenant_id", JString("00000000000000000000000000000000"))];
    assert Fields(EventOf(ResidentSizeOf(AllZeroTenant).At(now, 0), key), fmt) == [("type", JString("absolute")), ("time", JString("2023-09-15T00:00:00.123456789Z")), ("metric", JString("resident_size")), ("idempotency_key", JString("2023-09-15 00:00:00.123456789 UTC-1-0000")), ("value", JNumber(0)), ("tenant_id", JString("00000000000000000000000000000000"))];
    assert Fields(EventOf(SyntheticSizeOf(AllZeroTenant).At(now, 1), key), fmt) == [("type", JString("absolute")), ("time", JString("2023-09-15T00:00:00.123456789Z")), ("metric", JString("synthetic_storage_size")), ("idempotency_key", JString("2023-09-15 00:00:00.123456789 UTC-1-0000")), ("value", JNumber(1)), ("tenant_id", JString("00000000000000000000000000000000"))];
  }
}

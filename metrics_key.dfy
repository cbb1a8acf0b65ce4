/**
 * Identity of a metric stream and the shape of one raw metric: a key paired
 * with an event type (absolute at one instant, or incremental over an
 * interval) and a value. The factories mirror `MetricsKey::written_size(..)`
 * and friends, with `.at(..)` for absolute values and
 * `.from_previous_up_to(..)` for incremental ones.
 */
module MetricsKeys {
  import opened Wrappers

  /** Wall-clock instants, e.g. nanoseconds since the epoch. */
  type Time = int

  /** Identifiers are opaque; their hex encoding is a formatting concern. */
  datatype TenantId = TenantId(raw: nat)
  datatype TimelineId = TimelineId(raw: nat)

  /** A log sequence number; `written_size` is its numeric value. */
  datatype Lsn = Lsn(offset: nat)

  /** The six metric names. */
  datatype Name =
    | WrittenSize
    | WrittenSizeDelta
    | LogicalSize
    | RemoteSize
    | ResidentSize
    | SyntheticSize

  datatype MetricsKey = MetricsKey(tenantId: TenantId, timelineId: Option<TimelineId>, metric: Name)

  datatype EventType =
    | Absolute(time: Time)
    | Incremental(startTime: Time, stopTime: Time)

  /** `(key, (kind, value))`, the element type of the metrics vector and of the cache. */
  type RawMetric = (MetricsKey, (EventType, nat))

  /** The only metric that is incremental is `written_size_delta`. */
  predicate ShapeFits(metric: Name, kind: EventType) {
    (metric == WrittenSizeDelta) == kind.Incremental?
  }

  predicate WellShaped(m: RawMetric) {
    ShapeFits(m.0.metric, m.1.0)
  }

  /** An incremental event's interval must not run backwards. */
  predicate ValidInterval(kind: EventType) {
    kind.Incremental? ==> kind.startTime <= kind.stopTime
  }

  datatype AbsoluteValueFactory = AbsoluteValueFactory(key: MetricsKey) {
    function At(time: Time, value: nat): RawMetric {
      (key, (Absolute(time), value))
    }
  }

  datatype IncrementalValueFactory = IncrementalValueFactory(key: MetricsKey) {
    function FromPreviousUpTo(prevEnd: Time, upTo: Time, value: nat): RawMetric {
      (key, (Incremental(prevEnd, upTo), value))
    }
  }

  function WrittenSizeOf(tenant: TenantId, timeline: TimelineId): AbsoluteValueFactory {
    AbsoluteValueFactory(MetricsKey(tenant, Some(timeline), WrittenSize))
  }

  function WrittenSizeDeltaOf(tenant: TenantId, timeline: TimelineId): IncrementalValueFactory {
    IncrementalValueFactory(MetricsKey(tenant, Some(timeline), WrittenSizeDelta))
  }

  function TimelineLogicalSizeOf(tenant: TenantId, timeline: TimelineId): AbsoluteValueFactory {
    AbsoluteValueFactory(MetricsKey(tenant, Some(timeline), LogicalSize))
  }

  function RemoteStorageSizeOf(tenant: TenantId): AbsoluteValueFactory {
    AbsoluteValueFactory(MetricsKey(tenant, None, RemoteSize))
  }

  function ResidentSizeOf(tenant: TenantId): AbsoluteValueFactory {
    AbsoluteValueFactory(MetricsKey(tenant, None, ResidentSize))
  }

  function SyntheticSizeOf(tenant: TenantId): AbsoluteValueFactory {
    AbsoluteValueFactory(MetricsKey(tenant, None, SyntheticSize))
  }

  /**
   * Every factory produces a well-shaped metric for its key: the delta
   * factory an incremental one, the others absolute ones; tenant-level keys
   * carry no timeline.
   */
  lemma FactoriesWellShaped(tenant: TenantId, timeline: TimelineId, t: Time, s: Time, v: nat)
    ensures WellShaped(WrittenSizeOf(tenant, timeline).At(t, v))
    ensures WellShaped(WrittenSizeDeltaOf(tenant, timeline).FromPreviousUpTo(s, t, v))
    ensures WellShaped(TimelineLogicalSizeOf(tenant, timeline).At(t, v))
    ensures WellShaped(RemoteStorageSizeOf(tenant).At(t, v))
    ensures WellShaped(ResidentSizeOf(tenant).At(t, v))
    ensures WellShaped(SyntheticSizeOf(tenant).At(t, v))
    ensures RemoteStorageSizeOf(tenant).key.timelineId.None?
    ensures ResidentSizeOf(tenant).key.timelineId.None?
    ensures SyntheticSizeOf(tenant).key.timelineId.None?
  {
  }

  /** The six keys of one tenant and timeline are pairwise distinct cache keys. */
  lemma KeysDistinct(tenant: TenantId, timeline: TimelineId)
    ensures |{WrittenSizeOf(tenant, timeline).key, WrittenSizeDeltaOf(tenant, timeline).key,
              TimelineLogicalSizeOf(tenant, timeline).key, RemoteStorageSizeOf(tenant).key,
              ResidentSizeOf(tenant).key, SyntheticSizeOf(tenant).key}| == 6
  {
  }
}

/**
 * The fixed scenarios of the metrics tests, each stated for arbitrary ids
 * and times. A cache built with `HashMap::from([..])` is `Extend(map[], [..])`.
 */
module Scenarios {
  import opened Wrappers
  import opened MetricsKeys
  import opened MetricsCache
  import opened MetricsBuffer
  import opened TimelineMetrics
  import opened TenantMetrics

  /**
   * First round after load with an empty cache: the delta runs from the
   * load time to `now` and is zero, `written_size` is the LSN, and the
   * computed logical size is reported.
   */
  lemma StartupFirstRound(tenant: TenantId, timeline: TimelineId, now: Time, loadedTime: Time, lsn: nat, size: nat)
    ensures TimelineEvents(TimelineSnapshot((Lsn(lsn), loadedTime), Lsn(lsn), Some(size)), tenant, timeline, now, map[])
         == [ WrittenSizeDeltaOf(tenant, timeline).FromPreviousUpTo(loadedTime, now, 0),
              WrittenSizeOf(tenant, timeline).At(now, lsn),
              TimelineLogicalSizeOf(tenant, timeline).At(now, size) ]
  {
  }

  /** Only a cached `written_size` at `before`: the delta runs from `before`. */
  lemma StartupSecondRound(tenant: TenantId, timeline: TimelineId, now: Time, before: Time, init: Time,
                           lsn: nat, size: nat)
    ensures var cache := Extend(map[], [WrittenSizeOf(tenant, timeline).At(before, lsn)]);
            WellFormed(cache)
            && TimelineEvents(TimelineSnapshot((Lsn(lsn), init), Lsn(lsn), Some(size)), tenant, timeline, now, cache)
            == [ WrittenSizeDeltaOf(tenant, timeline).FromPreviousUpTo(before, now, 0),
                 WrittenSizeOf(tenant, timeline).At(now, lsn),
                 TimelineLogicalSizeOf(tenant, timeline).At(now, size) ]
  {
    FactoriesWellShaped(tenant, timeline, before, before, lsn);
  }

  /**
   * A cached delta ending at `justBefore` and a cached `written_size` at
   * `before`: the new delta starts at `justBefore`.
   */
  lemma NthRoundAtSameLsn(tenant: TenantId, timeline: TimelineId, now: Time, justBefore: Time, before: Time,
                          init: Time, lsn: nat, size: nat)
    ensures var cache := Extend(map[], [ WrittenSizeOf(tenant, timeline).At(before, lsn),
                                         WrittenSizeDeltaOf(tenant, timeline).FromPreviousUpTo(before, justBefore, 0) ]);
            WellFormed(cache)
            && TimelineEvents(TimelineSnapshot((Lsn(lsn), init), Lsn(lsn), Some(size)), tenant, timeline, now, cache)
            == [ WrittenSizeDeltaOf(tenant, timeline).FromPreviousUpTo(justBefore, now, 0),
                 WrittenSizeOf(tenant, timeline).At(now, lsn),
                 TimelineLogicalSizeOf(tenant, timeline).At(now, size) ]
  {
    FactoriesWellShaped(tenant, timeline, justBefore, before, lsn);
  }

  /**
   * After a restart that rolled `last_record_lsn` back from 100 to 50,
   * `written_size` stays at 100 and the delta is zero, both in the first
   * round and in the next one fed from the first one's output. The cached
   * delta's value is ignored; only its stop time is used.
   */
  method PostRestartRolledBackLsn(tenant: TenantId, timeline: TimelineId, later: Time, now: Time, atRestart: Time,
                                  beforeRestart: Time, wayBefore: Time)
    returns (first: seq<RawMetric>, second: seq<RawMetric>)
    ensures first == [ WrittenSizeDeltaOf(tenant, timeline).FromPreviousUpTo(beforeRestart, now, 0),
                       WrittenSizeOf(tenant, timeline).At(now, 100) ]
    ensures second == [ WrittenSizeDeltaOf(tenant, timeline).FromPreviousUpTo(now, later, 0),
                        WrittenSizeOf(tenant, timeline).At(later, 100) ]
  {
    var snap := TimelineSnapshot((Lsn(50), atRestart), Lsn(50), None);
    FactoriesWellShaped(tenant, timeline, beforeRestart, wayBefore, 100);
    var cache := Extend(map[], [ WrittenSizeOf(tenant, timeline).At(beforeRestart, 100),
                                 WrittenSizeDeltaOf(tenant, timeline).FromPreviousUpTo(wayBefore, beforeRestart, 999_999_999) ]);
    var deltaKey, writtenKey := WrittenSizeDeltaOf(tenant, timeline).key, WrittenSizeOf(tenant, timeline).key;
    var logicalKey := TimelineLogicalSizeOf(tenant, timeline).key;
    KeysDistinct(tenant, timeline);
    var a := WrittenSizeOf(tenant, timeline).At(beforeRestart, 100);
    var b := WrittenSizeDeltaOf(tenant, timeline).FromPreviousUpTo(wayBefore, beforeRestart, 999_999_999);
    ExtendSnoc(map[], [], a);
    ExtendSnoc(map[], [a], b);
    assert [] + [a] == [a] && [a] + [b] == [a, b];
    assert cache == map[writtenKey := (Absolute(beforeRestart), 100),
                        deltaKey := (Incremental(wayBefore, beforeRestart), 999_999_999)];
    var metrics := new MetricsVec();
    TimelineMetrics.ToMetrics(snap, tenant, timeline, now, metrics, cache);
    first := metrics.items;
    DeltaStartLadder(snap, tenant, timeline, now, cache);
    WrittenSizeNeverRegresses(snap, tenant, timeline, now, cache);
    DeltaMeasuresGrowth(snap, tenant, timeline, now, cache);
    LogicalSizeCarryForward(snap, tenant, timeline, now, cache);
    var before := cache;
    cache := metrics.DrainInto(cache);
    CacheAfterRound(snap, tenant, timeline, now, before);
    TimelineMetrics.ToMetrics(snap, tenant, timeline, later, metrics, cache);
    second := metrics.items;
    DeltaStartLadder(snap, tenant, timeline, later, cache);
    WrittenSizeNeverRegresses(snap, tenant, timeline, later, cache);
    DeltaMeasuresGrowth(snap, tenant, timeline, later, cache);
    LogicalSizeCarryForward(snap, tenant, timeline, later, cache);
  }

  /** No logical size this round, one cached: it is re-emitted with its value at `now`. */
  method PostRestartLogicalSizeUsesCached(tenant: TenantId, timeline: TimelineId, now: Time, atRestart: Time,
                                          beforeRestart: Time)
    returns (logical: seq<RawMetric>)
    ensures logical == [TimelineLogicalSizeOf(tenant, timeline).At(now, 100)]
  {
    var snap := TimelineSnapshot((Lsn(50), atRestart), Lsn(50), None);
    FactoriesWellShaped(tenant, timeline, beforeRestart, beforeRestart, 100);
    var cache := Extend(map[], [TimelineLogicalSizeOf(tenant, timeline).At(beforeRestart, 100)]);
    var logicalKey := TimelineLogicalSizeOf(tenant, timeline).key;
    ExtendSnoc(map[], [], TimelineLogicalSizeOf(tenant, timeline).At(beforeRestart, 100));
    assert [] + [TimelineLogicalSizeOf(tenant, timeline).At(beforeRestart, 100)]
        == [TimelineLogicalSizeOf(tenant, timeline).At(beforeRestart, 100)];
    assert cache == map[logicalKey := (Absolute(beforeRestart), 100)];
    var metrics := new MetricsVec();
    TimelineMetrics.ToMetrics(snap, tenant, timeline, now, metrics, cache);
    LogicalSizeCarryForward(snap, tenant, timeline, now, cache);
    var all := metrics.items;
    var x, y, z := all[0], all[1], all[2];
    assert all == [x, y, z];
    assert z == TimelineLogicalSizeOf(tenant, timeline).At(now, 100);
    OnlyMetricSnoc([], x, LogicalSize);
    OnlyMetricSnoc([x], y, LogicalSize);
    OnlyMetricSnoc([x, y], z, LogicalSize);
    assert [] + [x] == [x] && [x] + [y] == [x, y] && [x, y] + [z] == [x, y, z];
    metrics.Retain(LogicalSize);
    logical := metrics.items;
  }

  /**
   * No logical size this round and none cached (the cache holds only the
   * written size and the delta): no logical size is emitted.
   */
  lemma LogicalSizeNotSentWhenNotCached(tenant: TenantId, timeline: TimelineId, now: Time, atRestart: Time,
                                        beforeRestart: Time, wayBefore: Time)
    ensures var cache := Extend(map[], [ WrittenSizeOf(tenant, timeline).At(beforeRestart, 100),
                                         WrittenSizeDeltaOf(tenant, timeline).FromPreviousUpTo(wayBefore, beforeRestart, 999_999_999) ]);
            WellFormed(cache)
            && |TimelineEvents(TimelineSnapshot((Lsn(50), atRestart), Lsn(50), None), tenant, timeline, now, cache)| == 2
  {
    var a := WrittenSizeOf(tenant, timeline).At(beforeRestart, 100);
    var b := WrittenSizeDeltaOf(tenant, timeline).FromPreviousUpTo(wayBefore, beforeRestart, 999_999_999);
    FactoriesWellShaped(tenant, timeline, beforeRestart, wayBefore, 100);
    KeysDistinct(tenant, timeline);
    ExtendSnoc(map[], [], a);
    ExtendSnoc(map[], [a], b);
    assert [] + [a] == [a] && [a] + [b] == [a, b];
    var cache := Extend(map[], [a, b]);
    LogicalSizeCarryForward(TimelineSnapshot((Lsn(50), atRestart), Lsn(50), None), tenant, timeline, now, cache);
    assert TimelineLogicalSizeOf(tenant, timeline).key !in cache;
  }

  /** The synthetic size is not yet computed but cached: the cached value is sent at `now`. */
  method PostRestartSyntheticSizeUsesCached(tenant: TenantId, now: Time, beforeRestart: Time)
    returns (sent: seq<RawMetric>)
    ensures sent == [ RemoteStorageSizeOf(tenant).At(now, 1000),
                      ResidentSizeOf(tenant).At(now, 1000),
                      SyntheticSizeOf(tenant).At(now, 1000) ]
  {
    var snap := TenantSnapshot(1000, 1000, 0);
    var cache := Extend(map[], [SyntheticSizeOf(tenant).At(beforeRestart, 1000)]);
    var metrics := new MetricsVec();
    TenantMetrics.ToMetrics(snap, tenant, now, cache, metrics);
    sent := metrics.items;
  }

  /** The synthetic size is not yet computed and not cached: only the first two metrics are sent. */
  lemma PostRestartSyntheticSizeNotSentWhenNotCached(tenant: TenantId, now: Time)
    ensures TenantEvents(TenantSnapshot(1000, 1000, 0), tenant, now, map[])
         == [ RemoteStorageSizeOf(tenant).At(now, 1000), ResidentSizeOf(tenant).At(now, 1000) ]
  {
  }
}

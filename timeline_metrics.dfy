/**
 * `TimelineSnapshot::to_metrics`: one timeline's snapshot, the read-only
 * cache and the current time give, in this order, a `written_size_delta`
 * incremental metric, a `written_size` absolute metric and, when a logical
 * size is known, a `timeline_logical_size` absolute metric.
 */
module TimelineMetrics {
  import opened Wrappers
  import opened MetricsKeys
  import opened MetricsCache
  import opened MetricsBuffer

  datatype TimelineSnapshot = TimelineSnapshot(
    loadedAt: (Lsn, Time),
    lastRecordLsn: Lsn,
    currentExactLogicalSize: Option<nat>)

  /** The cached `written_size` of this timeline as `(time, value)`, if any. */
  function CachedWrittenSize(cache: Cache, tenant: TenantId, timeline: TimelineId): Option<(Time, nat)>
    requires WellFormed(cache)
  {
    var key := WrittenSizeOf(tenant, timeline).key;
    if key in cache then Some((cache[key].0.time, cache[key].1)) else None
  }

  /** The stop time of the cached `written_size_delta` of this timeline, if any; its value is never used. */
  function CachedDeltaStop(cache: Cache, tenant: TenantId, timeline: TimelineId): Option<Time>
    requires WellFormed(cache)
  {
    var key := WrittenSizeDeltaOf(tenant, timeline).key;
    if key in cache then Some(cache[key].0.stopTime) else None
  }

  /**
   * The `written_size` reported this round: the last record LSN, but never
   * less than what was already reported, since a restart can roll the LSN back.
   */
  function WrittenSizeNow(snap: TimelineSnapshot, cache: Cache, tenant: TenantId, timeline: TimelineId): nat
    requires WellFormed(cache)
  {
    match CachedWrittenSize(cache, tenant, timeline)
    case Some(prev) => if snap.lastRecordLsn.offset < prev.1 then prev.1 else snap.lastRecordLsn.offset
    case None => snap.lastRecordLsn.offset
  }

  /**
   * Where this round's delta starts and the written size it is measured
   * from: the cached delta's stop time first, then the cached written size's
   * time, then the time the timeline was loaded. Without a cached written
   * size after a cached delta the basis is the current value, so nothing is
   * counted twice.
   */
  function DeltaStart(snap: TimelineSnapshot, cache: Cache, tenant: TenantId, timeline: TimelineId,
                      current: nat): (Time, nat)
    requires WellFormed(cache)
  {
    var written := CachedWrittenSize(cache, tenant, timeline);
    match CachedDeltaStop(cache, tenant, timeline)
    case Some(stop) => (stop, if written.Some? then written.value.1 else current)
    case None =>
      if written.Some? then written.value
      else (snap.loadedAt.1, snap.loadedAt.0.offset)
  }

  /** The logical size computed this round, or else the cached one carried forward. */
  function LogicalSizeNow(snap: TimelineSnapshot, cache: Cache, tenant: TenantId, timeline: TimelineId): Option<nat> {
    match snap.currentExactLogicalSize
    case Some(size) => Some(size)
    case None =>
      var key := TimelineLogicalSizeOf(tenant, timeline).key;
      if key in cache then Some(cache[key].1) else None
  }

  /** The metrics `to_metrics` appends for one timeline, in order. */
  function TimelineEvents(snap: TimelineSnapshot, tenant: TenantId, timeline: TimelineId, now: Time,
                          cache: Cache): (r: seq<RawMetric>)
    requires WellFormed(cache)
    ensures 2 <= |r| <= 3
    ensures r[0].0 == WrittenSizeDeltaOf(tenant, timeline).key
    ensures r[0].1.0.Incremental? && r[0].1.0.stopTime == now
    ensures r[1].0 == WrittenSizeOf(tenant, timeline).key && r[1].1.0 == Absolute(now)
    ensures |r| == 3 ==> r[2].0 == TimelineLogicalSizeOf(tenant, timeline).key && r[2].1.0 == Absolute(now)
    ensures AllWellShaped(r)
  {
    var current := WrittenSizeNow(snap, cache, tenant, timeline);
    var start := DeltaStart(snap, cache, tenant, timeline, current);
    var delta := if current < start.1 then 0 else current - start.1;
    [ WrittenSizeDeltaOf(tenant, timeline).FromPreviousUpTo(start.0, now, delta),
      WrittenSizeOf(tenant, timeline).At(now, current) ]
    + match LogicalSizeNow(snap, cache, tenant, timeline)
      case Some(size) => [TimelineLogicalSizeOf(tenant, timeline).At(now, size)]
      case None => []
  }

  /** Appends this timeline's metrics to `metrics`; the cache is only read. */
  method ToMetrics(snap: TimelineSnapshot, tenant: TenantId, timeline: TimelineId, now: Time,
                   metrics: MetricsVec, cache: Cache)
    requires WellFormed(cache)
    modifies metrics
    ensures metrics.items == old(metrics.items) + TimelineEvents(snap, tenant, timeline, now, cache)
  {
    var current := WrittenSizeNow(snap, cache, tenant, timeline);
    var start := DeltaStart(snap, cache, tenant, timeline, current);
    var delta: nat;
    if current < start.1 {
      // only with an empty cache and a last record LSN below the loaded one
      delta := 0;
    } else {
      delta := current - start.1;
    }
    metrics.Push(WrittenSizeDeltaOf(tenant, timeline).FromPreviousUpTo(start.0, now, delta));
    metrics.Push(WrittenSizeOf(tenant, timeline).At(now, current));
    var logical := LogicalSizeNow(snap, cache, tenant, timeline);
    if logical.Some? {
      metrics.Push(TimelineLogicalSizeOf(tenant, timeline).At(now, logical.value));
    }
  }

  /**
   * `written_size` never goes below what was already reported nor below the
   * last record LSN, and it is one of the two (their maximum).
   */
  lemma WrittenSizeNeverRegresses(snap: TimelineSnapshot, tenant: TenantId, timeline: TimelineId, now: Time,
                                  cache: Cache)
    requires WellFormed(cache)
    ensures var r := TimelineEvents(snap, tenant, timeline, now, cache);
            var key := WrittenSizeOf(tenant, timeline).key;
            && r[1].1.1 >= snap.lastRecordLsn.offset
            && (key in cache ==> r[1].1.1 >= cache[key].1)
            && (r[1].1.1 == snap.lastRecordLsn.offset || (key in cache && r[1].1.1 == cache[key].1))
  {
  }

  /** The delta's start time follows the three-step fallback through the cache. */
  lemma DeltaStartLadder(snap: TimelineSnapshot, tenant: TenantId, timeline: TimelineId, now: Time,
                         cache: Cache)
    requires WellFormed(cache)
    ensures var r := TimelineEvents(snap, tenant, timeline, now, cache);
            var deltaKey := WrittenSizeDeltaOf(tenant, timeline).key;
            var writtenKey := WrittenSizeOf(tenant, timeline).key;
            && (deltaKey in cache ==> r[0].1.0.startTime == cache[deltaKey].0.stopTime)
            && (deltaKey !in cache && writtenKey in cache ==> r[0].1.0.startTime == cache[writtenKey].0.time)
            && (deltaKey !in cache && writtenKey !in cache ==> r[0].1.0.startTime == snap.loadedAt.1)
  {
  }

  /**
   * The delta's value is the growth of `written_size` since what was last
   * reported; with nothing reported yet it is the growth since load time,
   * and zero when only a delta was reported. It is never negative.
   */
  lemma DeltaMeasuresGrowth(snap: TimelineSnapshot, tenant: TenantId, timeline: TimelineId, now: Time,
                            cache: Cache)
    requires WellFormed(cache)
    ensures var r := TimelineEvents(snap, tenant, timeline, now, cache);
            var deltaKey := WrittenSizeDeltaOf(tenant, timeline).key;
            var writtenKey := WrittenSizeOf(tenant, timeline).key;
            var loaded := snap.loadedAt.0.offset;
            && (writtenKey in cache ==> r[0].1.1 == r[1].1.1 - cache[writtenKey].1)
            && (writtenKey !in cache && deltaKey in cache ==> r[0].1.1 == 0)
            && (writtenKey !in cache && deltaKey !in cache ==>
                  r[0].1.1 == if r[1].1.1 < loaded then 0 else r[1].1.1 - loaded)
  {
  }

  /**
   * A logical size is emitted exactly when one was computed this round or
   * one is cached; a computed one wins, otherwise the cached value is
   * re-emitted unchanged at `now`.
   */
  lemma LogicalSizeCarryForward(snap: TimelineSnapshot, tenant: TenantId, timeline: TimelineId, now: Time,
                                cache: Cache)
    requires WellFormed(cache)
    ensures var r := TimelineEvents(snap, tenant, timeline, now, cache);
            var key := TimelineLogicalSizeOf(tenant, timeline).key;
            && (|r| == 3 <==> snap.currentExactLogicalSize.Some? || key in cache)
            && (|r| == 3 && snap.currentExactLogicalSize.Some? ==> r[2].1.1 == snap.currentExactLogicalSize.value)
            && (|r| == 3 && snap.currentExactLogicalSize.None? ==> r[2].1.1 == cache[key].1)
  {
  }

  /**
   * The emitted interval never runs backwards when the clock has not: if
   * the time the delta starts from (by the ladder) is not after `now`.
   */
  lemma IntervalIsValid(snap: TimelineSnapshot, tenant: TenantId, timeline: TimelineId, now: Time,
                        cache: Cache)
    requires WellFormed(cache)
    requires snap.loadedAt.1 <= now
    requires forall k | k in cache && k.tenantId == tenant && k.timelineId == Some(timeline) ::
               match cache[k].0 case Absolute(t) => t <= now case Incremental(_, stop) => stop <= now
    ensures ValidInterval(TimelineEvents(snap, tenant, timeline, now, cache)[0].1.0)
  {
    var deltaKey := WrittenSizeDeltaOf(tenant, timeline).key;
    var writtenKey := WrittenSizeOf(tenant, timeline).key;
    if deltaKey in cache {
      assert cache[deltaKey].0.stopTime <= now;
    } else if writtenKey in cache {
      assert cache[writtenKey].0.time <= now;
    }
  }

  /**
   * Folding one round's metrics into the cache records that round's delta,
   * written size and (when emitted) logical size, and leaves every other
   * key as it was.
   */
  lemma {:induction false} CacheAfterRound(snap: TimelineSnapshot, tenant: TenantId, timeline: TimelineId,
                                           now: Time, cache: Cache)
    requires WellFormed(cache)
    ensures var r := TimelineEvents(snap, tenant, timeline, now, cache);
            var c := Extend(cache, r);
            var deltaKey := WrittenSizeDeltaOf(tenant, timeline).key;
            var writtenKey := WrittenSizeOf(tenant, timeline).key;
            var logicalKey := TimelineLogicalSizeOf(tenant, timeline).key;
            && WellFormed(c)
            && Lookup(c, deltaKey) == Some(r[0].1)
            && Lookup(c, writtenKey) == Some(r[1].1)
            && Lookup(c, logicalKey) == (if |r| == 3 then Some(r[2].1) else Lookup(cache, logicalKey))
            && forall k | k != deltaKey && k != writtenKey && k != logicalKey :: Lookup(c, k) == Lookup(cache, k)
  {
    var r := TimelineEvents(snap, tenant, timeline, now, cache);
    var deltaKey := WrittenSizeDeltaOf(tenant, timeline).key;
    var writtenKey := WrittenSizeOf(tenant, timeline).key;
    var logicalKey := TimelineLogicalSizeOf(tenant, timeline).key;
    ExtendLookup(cache, r, deltaKey);
    ExtendLookup(cache, r, writtenKey);
    ExtendLookup(cache, r, logicalKey);
    forall k | k != deltaKey && k != writtenKey && k != logicalKey
      ensures Lookup(Extend(cache, r), k) == Lookup(cache, k)
    {
      ExtendLookup(cache, r, k);
    }
    assert r[..2][..1] == [r[0]];
    if |r| == 3 {
      assert r[..2] == r[..|r| - 1];
    } else {
      assert r[..1] == r[..|r| - 1];
    }
  }
}

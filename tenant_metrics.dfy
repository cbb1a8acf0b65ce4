/**
 * `TenantSnapshot::to_metrics`: a tenant's snapshot gives `remote_storage_size`
 * and `resident_size` at `now`, then `synthetic_size` when it is known.
 */
module TenantMetrics {
  import opened Wrappers
  import opened MetricsKeys
  import opened MetricsCache
  import opened MetricsBuffer

  /** `syntheticSize == 0` means the expensive computation has not run yet. */
  datatype TenantSnapshot = TenantSnapshot(residentSize: nat, remoteSize: nat, syntheticSize: nat)

  /** The synthetic size to report: this round's, else the cached one, else none. */
  function SyntheticSizeNow(snap: TenantSnapshot, tenant: TenantId, cache: Cache): Option<nat> {
    var key := SyntheticSizeOf(tenant).key;
    if snap.syntheticSize != 0 then Some(snap.syntheticSize)
    else if key in cache then Some(cache[key].1)
    else None
  }

  /** The metrics `to_metrics` appends for one tenant, in order. */
  function TenantEvents(snap: TenantSnapshot, tenant: TenantId, now: Time, cache: Cache): (r: seq<RawMetric>)
    ensures 2 <= |r| <= 3
    ensures r[0] == RemoteStorageSizeOf(tenant).At(now, snap.remoteSize)
    ensures r[1] == ResidentSizeOf(tenant).At(now, snap.residentSize)
    ensures |r| == 3 ==> r[2].0 == SyntheticSizeOf(tenant).key && r[2].1.0 == Absolute(now)
    ensures AllWellShaped(r)
  {
    [RemoteStorageSizeOf(tenant).At(now, snap.remoteSize), ResidentSizeOf(tenant).At(now, snap.residentSize)]
    + match SyntheticSizeNow(snap, tenant, cache)
      case Some(size) => [SyntheticSizeOf(tenant).At(now, size)]
      case None => []
  }

  /** Appends this tenant's metrics to `metrics`; the cache is only read. */
  method ToMetrics(snap: TenantSnapshot, tenant: TenantId, now: Time, cache: Cache, metrics: MetricsVec)
    modifies metrics
    ensures metrics.items == old(metrics.items) + TenantEvents(snap, tenant, now, cache)
  {
    metrics.Push(RemoteStorageSizeOf(tenant).At(now, snap.remoteSize));
    metrics.Push(ResidentSizeOf(tenant).At(now, snap.residentSize));
    var synthetic := SyntheticSizeNow(snap, tenant, cache);
    if synthetic.Some? {
      metrics.Push(SyntheticSizeOf(tenant).At(now, synthetic.value));
    }
  }

  /**
   * A synthetic size is emitted exactly when the snapshot holds one or the
   * cache does; the snapshot's nonzero value wins, otherwise the cached
   * value is re-emitted unchanged at `now`.
   */
  lemma SyntheticSizeFallback(snap: TenantSnapshot, tenant: TenantId, now: Time, cache: Cache)
    ensures var r := TenantEvents(snap, tenant, now, cache);
            var key := SyntheticSizeOf(tenant).key;
            && (|r| == 3 <==> snap.syntheticSize != 0 || key in cache)
            && (|r| == 3 && snap.syntheticSize != 0 ==> r[2].1.1 == snap.syntheticSize)
            && (|r| == 3 && snap.syntheticSize == 0 ==> r[2].1.1 == cache[key].1)
  {
  }
}

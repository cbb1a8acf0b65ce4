/**
 * The cache of previously emitted metrics: the last `(kind, value)` sent per
 * key. The snapshot computations only read it; between rounds the caller
 * folds the freshly emitted metrics into it with `HashMap::extend`, which
 * inserts in order, so a later metric for a key overwrites an earlier one.
 */
module MetricsCache {
  import opened Wrappers
  import opened MetricsKeys

  type Cache = map<MetricsKey, (EventType, nat)>

  /** Every cached event has the shape its metric calls for. */
  predicate WellFormed(cache: Cache) {
    forall k | k in cache :: ShapeFits(k.metric, cache[k].0)
  }

  predicate AllWellShaped(events: seq<RawMetric>) {
    forall i | 0 <= i < |events| :: WellShaped(events[i])
  }

  function Lookup(cache: Cache, key: MetricsKey): Option<(EventType, nat)> {
    if key in cache then Some(cache[key]) else None
  }

  /** `cache.extend(events)`: insert each metric in order, overwriting per key. */
  function Extend(cache: Cache, events: seq<RawMetric>): (r: Cache)
    ensures WellFormed(cache) && AllWellShaped(events) ==> WellFormed(r)
    decreases |events|
  {
    if events == [] then cache
    else
      var last := events[|events| - 1];
      Extend(cache, events[..|events| - 1])[last.0 := last.1]
  }

  /** The value of the last metric for `key` among `events`, if any. */
  function LastFor(events: seq<RawMetric>, key: MetricsKey): (r: Option<(EventType, nat)>)
    ensures r.Some? <==> exists i :: 0 <= i < |events| && events[i].0 == key
    ensures r.Some? ==> exists i :: 0 <= i < |events| && events[i] == (key, r.value)
                            && forall j :: i < j < |events| ==> events[j].0 != key
    decreases |events|
  {
    if events == [] then None
    else if events[|events| - 1].0 == key then Some(events[|events| - 1].1)
    else LastFor(events[..|events| - 1], key)
  }

  /**
   * After `extend`, a key holds its last emitted value when the batch had
   * one, and its old cached value otherwise.
   */
  lemma {:induction false} ExtendLookup(cache: Cache, events: seq<RawMetric>, key: MetricsKey)
    ensures Lookup(Extend(cache, events), key)
         == if LastFor(events, key).Some? then LastFor(events, key) else Lookup(cache, key)
    decreases |events|
  {
    if events != [] {
      ExtendLookup(cache, events[..|events| - 1], key);
    }
  }

  /** Extending by one more metric overwrites that metric's key last. */
  lemma ExtendSnoc(cache: Cache, events: seq<RawMetric>, e: RawMetric)
    ensures Extend(cache, events + [e]) == Extend(cache, events)[e.0 := e.1]
  {
    assert (events + [e])[..|events|] == events;
  }

  /** Two `extend` calls in a row are one `extend` with both batches, in order. */
  lemma {:induction false} ExtendAppend(cache: Cache, a: seq<RawMetric>, b: seq<RawMetric>)
    ensures Extend(cache, a + b) == Extend(Extend(cache, a), b)
    decreases |b|
  {
    if b == [] {
      assert a + b == a;
    } else {
      var init, last := b[..|b| - 1], b[|b| - 1];
      assert b == init + [last];
      assert a + b == (a + init) + [last];
      ExtendAppend(cache, a, init);
      ExtendSnoc(cache, a + init, last);
      ExtendSnoc(Extend(cache, a), init, last);
    }
  }
}

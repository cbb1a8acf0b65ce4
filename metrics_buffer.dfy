/**
 * The caller-owned `Vec<RawMetric>` that the snapshot computations append
 * to, with the two other in-place operations the rounds use on it:
 * `cache.extend(metrics.drain(..))` and `metrics.retain(..)`.
 */
module MetricsBuffer {
  import opened MetricsKeys
  import opened MetricsCache

  /** The metrics of `events` whose key names `metric`, in their original order. */
  function OnlyMetric(events: seq<RawMetric>, metric: Name): (r: seq<RawMetric>)
    ensures forall i | 0 <= i < |r| :: r[i].0.metric == metric
    ensures forall e | e in r :: e in events
    ensures forall e | e in events && e.0.metric == metric :: e in r
    decreases |events|
  {
    if events == [] then []
    else
      var last := events[|events| - 1];
      OnlyMetric(events[..|events| - 1], metric) + (if last.0.metric == metric then [last] else [])
  }

  /** Filtering one more metric keeps it exactly when it is named `metric`. */
  lemma OnlyMetricSnoc(events: seq<RawMetric>, e: RawMetric, metric: Name)
    ensures OnlyMetric(events + [e], metric) == OnlyMetric(events, metric) + (if e.0.metric == metric then [e] else [])
  {
    assert (events + [e])[..|events|] == events;
  }

  /** Filtering a concatenation filters each part and keeps their order. */
  lemma {:induction false} OnlyMetricAppend(a: seq<RawMetric>, b: seq<RawMetric>, metric: Name)
    ensures OnlyMetric(a + b, metric) == OnlyMetric(a, metric) + OnlyMetric(b, metric)
    decreases |b|
  {
    if b == [] {
      assert a + b == a;
    } else {
      var init, last := b[..|b| - 1], b[|b| - 1];
      assert b == init + [last];
      assert a + b == (a + init) + [last];
      OnlyMetricAppend(a, init, metric);
      OnlyMetricSnoc(a + init, last, metric);
      OnlyMetricSnoc(init, last, metric);
    }
  }

  /**
   * Filtering keeps every matching metric as often as it occurs, and no
   * other metric at all.
   */
  lemma {:induction false} OnlyMetricCounts(events: seq<RawMetric>, metric: Name)
    ensures forall e :: multiset(OnlyMetric(events, metric))[e] == if e.0.metric == metric then multiset(events)[e] else 0
    decreases |events|
  {
    if events != [] {
      var init, last := events[..|events| - 1], events[|events| - 1];
      OnlyMetricCounts(init, metric);
      assert events == init + [last];
    }
  }

  class MetricsVec {
    var items: seq<RawMetric>

    constructor ()
      ensures items == []
    {
      items := [];
    }

    method Push(m: RawMetric)
      modifies this
      ensures items == old(items) + [m]
    {
      items := items + [m];
    }

    /** Empties the vector into `cache`, as `cache.extend(metrics.drain(..))` does. */
    method DrainInto(cache: Cache) returns (updated: Cache)
      modifies this
      ensures items == []
      ensures updated == Extend(cache, old(items))
    {
      var drained := items;
      items := [];
      updated := cache;
      var i := 0;
      while i < |drained|
        invariant 0 <= i <= |drained|
        invariant updated == Extend(cache, drained[..i])
      {
        assert drained[..i + 1][..i] == drained[..i];
        updated := updated[drained[i].0 := drained[i].1];
        i := i + 1;
      }
      assert drained[..i] == drained;
    }

    /** Keeps only the metrics named `metric`, as `metrics.retain(|(key, _)| key.metric == metric)`. */
    method Retain(metric: Name)
      modifies this
      ensures items == OnlyMetric(old(items), metric)
    {
      var all := items;
      var kept := [];
      var i := 0;
      while i < |all|
        invariant 0 <= i <= |all|
        invariant kept == OnlyMetric(all[..i], metric)
      {
        assert all[..i + 1][..i] == all[..i];
        if all[i].0.metric == metric {
          kept := kept + [all[i]];
        }
        i := i + 1;
      }
      assert all[..i] == all;
      items := kept;
    }
  }
}

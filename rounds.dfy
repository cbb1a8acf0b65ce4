/**
 * Successive collection rounds on one timeline: each round's metrics are
 * folded into the cache (`cache.extend(metrics.drain(..))`) before the next
 * round reads it. Over any number of rounds, with any snapshots, the delta
 * intervals are contiguous, `written_size` never decreases and the deltas
 * add up to the growth of `written_size`.
 */
module Rounds {
  import opened Wrappers
  import opened MetricsKeys
  import opened MetricsCache
  import opened TimelineMetrics

  datatype Round = Round(snapshot: TimelineSnapshot, now: Time)

  /** The metrics of each round, starting from `cache`. */
  function Run(tenant: TenantId, timeline: TimelineId, cache: Cache, rounds: seq<Round>): (out: seq<seq<RawMetric>>)
    requires WellFormed(cache)
    ensures |out| == |rounds|
    ensures forall i | 0 <= i < |out| ::
              && 2 <= |out[i]|
              && out[i][0].1.0.Incremental? && out[i][0].1.0.stopTime == rounds[i].now
              && out[i][1].1.0 == Absolute(rounds[i].now)
    decreases |rounds|
  {
    if rounds == [] then []
    else
      var events := TimelineEvents(rounds[0].snapshot, tenant, timeline, rounds[0].now, cache);
      [events] + Run(tenant, timeline, Extend(cache, events), rounds[1..])
  }

  /** The sum of the `written_size_delta` values of a sequence of rounds. */
  function DeltaTotal(out: seq<seq<RawMetric>>): int
    requires forall i | 0 <= i < |out| :: |out[i]| > 0
    decreases |out|
  {
    if out == [] then 0 else out[0][0].1.1 + DeltaTotal(out[1..])
  }

  /**
   * Two consecutive rounds: the second delta starts where the first one
   * stopped, `written_size` does not decrease, and the second delta is
   * exactly the increase of `written_size`.
   */
  lemma {:induction false} ConsecutiveRounds(s1: TimelineSnapshot, now1: Time, s2: TimelineSnapshot, now2: Time,
                                             tenant: TenantId, timeline: TimelineId, cache: Cache)
    requires WellFormed(cache)
    ensures var r1 := TimelineEvents(s1, tenant, timeline, now1, cache);
            var r2 := TimelineEvents(s2, tenant, timeline, now2, Extend(cache, r1));
            && r2[0].1.0.startTime == r1[0].1.0.stopTime == now1
            && r1[1].1.1 <= r2[1].1.1
            && r2[0].1.1 == r2[1].1.1 - r1[1].1.1
  {
    var r1 := TimelineEvents(s1, tenant, timeline, now1, cache);
    var c := Extend(cache, r1);
    CacheAfterRound(s1, tenant, timeline, now1, cache);
    DeltaStartLadder(s2, tenant, timeline, now2, c);
    WrittenSizeNeverRegresses(s2, tenant, timeline, now2, c);
    DeltaMeasuresGrowth(s2, tenant, timeline, now2, c);
  }

  /** Each round's delta interval starts exactly where the previous round's stopped. */
  lemma {:induction false} RunContiguous(tenant: TenantId, timeline: TimelineId, cache: Cache, rounds: seq<Round>)
    requires WellFormed(cache)
    ensures var out := Run(tenant, timeline, cache, rounds);
            forall i | 0 <= i < |out| - 1 :: out[i + 1][0].1.0.startTime == out[i][0].1.0.stopTime == rounds[i].now
    decreases |rounds|
  {
    if |rounds| >= 2 {
      var out: seq<seq<RawMetric>> := Run(tenant, timeline, cache, rounds);
      var e0 := TimelineEvents(rounds[0].snapshot, tenant, timeline, rounds[0].now, cache);
      var c1 := Extend(cache, e0);
      var rest := Run(tenant, timeline, c1, rounds[1..]);
      assert out == [e0] + rest;
      ConsecutiveRounds(rounds[0].snapshot, rounds[0].now, rounds[1].snapshot, rounds[1].now, tenant, timeline, cache);
      RunContiguous(tenant, timeline, c1, rounds[1..]);
      forall i | 0 <= i < |out| - 1
        ensures out[i + 1][0].1.0.startTime == out[i][0].1.0.stopTime == rounds[i].now
      {
        if i > 0 {
          assert out[i] == rest[i - 1] && out[i + 1] == rest[i];
          assert rounds[1..][i - 1] == rounds[i];
        }
      }
    }
  }

  /** The `written_size` reported by each round (its second metric). */
  function WrittenSizes(out: seq<seq<RawMetric>>): (ws: seq<nat>)
    requires forall i | 0 <= i < |out| :: 2 <= |out[i]|
    ensures |ws| == |out| && forall i | 0 <= i < |out| :: ws[i] == out[i][1].1.1
  {
    seq(|out|, i requires 0 <= i < |out| => out[i][1].1.1)
  }

  predicate NeighboursNonDecreasing(s: seq<nat>) {
    forall i | 0 <= i < |s| - 1 :: s[i] <= s[i + 1]
  }

  predicate NonDecreasing(s: seq<nat>) {
    forall i, j | 0 <= i <= j < |s| :: s[i] <= s[j]
  }

  /** A sequence whose neighbours are ordered is ordered throughout. */
  lemma {:induction false} NeighboursOrdered(s: seq<nat>)
    requires NeighboursNonDecreasing(s)
    ensures NonDecreasing(s)
    decreases |s|
  {
    if |s| >= 2 {
      NeighboursOrdered(s[1..]);
      forall i, j | 0 <= i <= j < |s| ensures s[i] <= s[j] {
        if i > 0 {
          assert s[i] == s[1..][i - 1] && s[j] == s[1..][j - 1];
        } else if j > 0 {
          assert s[1] == s[1..][0] && s[j] == s[1..][j - 1];
        }
      }
    }
  }

  /** `written_size` is non-decreasing over all rounds, whatever the snapshots say. */
  lemma {:induction false} RunWrittenSizeMonotone(tenant: TenantId, timeline: TimelineId, cache: Cache, rounds: seq<Round>)
    requires WellFormed(cache)
    ensures NonDecreasing(WrittenSizes(Run(tenant, timeline, cache, rounds)))
  {
    RunWrittenSizeStep(tenant, timeline, cache, rounds);
    NeighboursOrdered(WrittenSizes(Run(tenant, timeline, cache, rounds)));
  }

  /** Each round reports at least the previous round's `written_size`. */
  lemma {:induction false} RunWrittenSizeStep(tenant: TenantId, timeline: TimelineId, cache: Cache, rounds: seq<Round>)
    requires WellFormed(cache)
    ensures NeighboursNonDecreasing(WrittenSizes(Run(tenant, timeline, cache, rounds)))
    decreases |rounds|
  {
    if |rounds| >= 2 {
      var out := Run(tenant, timeline, cache, rounds);
      var e0 := TimelineEvents(rounds[0].snapshot, tenant, timeline, rounds[0].now, cache);
      var c1 := Extend(cache, e0);
      var rest := Run(tenant, timeline, c1, rounds[1..]);
      assert out == [e0] + rest;
      ConsecutiveRounds(rounds[0].snapshot, rounds[0].now, rounds[1].snapshot, rounds[1].now, tenant, timeline, cache);
      RunWrittenSizeStep(tenant, timeline, c1, rounds[1..]);
      var ws, wsRest := WrittenSizes(out), WrittenSizes(rest);
      assert NeighboursNonDecreasing(wsRest);
      forall i | 0 <= i < |ws| - 1
        ensures ws[i] <= ws[i + 1]
      {
        if i > 0 {
          assert ws[i] == wsRest[i - 1] && ws[i + 1] == wsRest[i];
        } else {
          assert rest[0] == TimelineEvents(rounds[1].snapshot, tenant, timeline, rounds[1].now, c1);
          assert ws[0] == e0[1].1.1 && ws[1] == rest[0][1].1.1;
        }
      }
    }
  }

  /**
   * Once a `written_size` is cached, the deltas of all later rounds add up
   * to exactly how far `written_size` grew: no write is counted twice or lost.
   */
  lemma {:induction false} RunDeltasAddUp(tenant: TenantId, timeline: TimelineId, cache: Cache, rounds: seq<Round>)
    requires WellFormed(cache)
    requires |rounds| > 0
    ensures var out := Run(tenant, timeline, cache, rounds);
            DeltaTotal(out[1..]) == out[|out| - 1][1].1.1 as int - out[0][1].1.1
    decreases |rounds|
  {
    var out: seq<seq<RawMetric>> := Run(tenant, timeline, cache, rounds);
    var e0 := TimelineEvents(rounds[0].snapshot, tenant, timeline, rounds[0].now, cache);
    var c1 := Extend(cache, e0);
    var rest := Run(tenant, timeline, c1, rounds[1..]);
    assert out == [e0] + rest;
    assert out[1..] == rest;
    if |rounds| >= 2 {
      ConsecutiveRounds(rounds[0].snapshot, rounds[0].now, rounds[1].snapshot, rounds[1].now, tenant, timeline, cache);
      RunDeltasAddUp(tenant, timeline, c1, rounds[1..]);
      assert DeltaTotal(rest) == rest[0][0].1.1 + DeltaTotal(rest[1..]);
    }
  }

  /** If the clock never runs backwards, no round emits an interval that does. */
  lemma RunIntervalsValid(tenant: TenantId, timeline: TimelineId, cache: Cache, rounds: seq<Round>)
    requires WellFormed(cache)
    requires forall i | 0 <= i < |rounds| - 1 :: rounds[i].now <= rounds[i + 1].now
    requires |rounds| > 0 ==> ValidInterval(Run(tenant, timeline, cache, rounds)[0][0].1.0)
    ensures var out := Run(tenant, timeline, cache, rounds);
            forall i | 0 <= i < |out| :: ValidInterval(out[i][0].1.0)
  {
    var out: seq<seq<RawMetric>> := Run(tenant, timeline, cache, rounds);
    RunContiguous(tenant, timeline, cache, rounds);
    forall i | 0 < i < |out|
      ensures ValidInterval(out[i][0].1.0)
    {
      assert out[i][0].1.0.startTime == rounds[i - 1].now;
      assert rounds[i - 1].now <= rounds[i].now;
    }
  }
}

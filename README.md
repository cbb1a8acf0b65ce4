# Pageserver consumption metrics: snapshot to events

This project models the part of the pageserver's consumption-metrics
collector that turns per-round snapshots into billing events.

- **Timelines.** `TimelineSnapshot::to_metrics` appends two or three metrics to a caller-owned vector, in this order:
  - an incremental `written_size_delta`;
  - an absolute `written_size`;
  - optionally an absolute `timeline_logical_size`.

  It reads a cache of what was last sent for each key.
- **Tenants.** `TenantSnapshot::to_metrics` appends `remote_storage_size` and `resident_size`, then `synthetic_size` when one is known.
- **Rounds.** Between rounds the caller folds the emitted metrics into the cache (`cache.extend(metrics.drain(..))`).
- **Events.** Each metric becomes an event. Its JSON image has a fixed field order, fixed metric names and a fixed idempotency key format.

Modules, one per concern:

- `MetricsKeys`: the `MetricsKey` identity, the two event types, and the
  factories (`MetricsKey::written_size(..)` and friends with `.at(..)` and
  `.from_previous_up_to(..)`).
- `MetricsCache`: the cache as a map, and `HashMap::extend` as an in-order
  overwrite, with its lookup law.
- `MetricsBuffer`: the `Vec<RawMetric>` as a class with `Push`,
  `DrainInto` (`cache.extend(metrics.drain(..))`) and `Retain`.
- `TimelineMetrics` and `TenantMetrics`: each `to_metrics` is a method that
  appends to the vector. Each method is proved equal to a pure function of
  the snapshot, the cache and `now`, and the properties are proved about that function.
- `Rounds`: any number of rounds on one timeline, each round run against
  the cache left by the one before it.
- `Scenarios`: the fixed scenarios of the test file, generalised over ids
  and times.
- `EventImage`: event construction, field order, member rendering, the
  idempotency key, and the six fixed images.

Times are integers (instants), ids are opaque numbers, and LSNs are naturals.
RFC 3339 formatting, the timestamp's display form and the 32-digit hex
rendering of ids come from foreign libraries. They are parameters, in the
`Formats` record.

The implementation file `pageserver/src/consumption_metrics/metrics.rs` is
not part of this model. The behaviour follows its unit tests. Where the tests
leave a case open, the model makes these choices of its own:

- the delta starts at the cached delta's stop time, else at the cached
  `written_size` time, else at the load time;
- the delta is measured from the cached `written_size`, or from the current
  value when only a delta is cached (so that delta is 0), and is clamped at
  zero, so a rollback below the loaded LSN with an empty cache gives 0;
- `written_size` is the last record LSN, but never less than the cached
  `written_size`;
- a synthetic size of 0 means "not computed", and the cached value is then re-sent.

## Model

| member | source | states |
|---|---|---|
| MetricsKeys.FactoriesWellShaped | pageserver/src/consumption_metrics/metrics/tests.rs:36-42 | `written_size_delta` factories build incremental metrics and all others absolute ones; tenant-level keys carry no timeline |
| MetricsKeys.KeysDistinct | pageserver/src/consumption_metrics/metrics/tests.rs:99-108 | the six keys of one tenant/timeline are distinct cache keys, so entries for different metrics never overwrite each other |
| MetricsCache.Extend | pageserver/src/consumption_metrics/metrics/tests.rs:247 | folding well-shaped metrics into a well-formed cache keeps it well-formed |
| MetricsCache.LastFor | pageserver/src/consumption_metrics/metrics/tests.rs:247 | a batch has a last value for a key exactly when some metric in it has that key, and that value belongs to the last such metric |
| MetricsCache.ExtendLookup | pageserver/src/consumption_metrics/metrics/tests.rs:247 | after `extend`, a key holds the last value the batch had for it, or its old value when the batch had none |
| MetricsCache.ExtendAppend | pageserver/src/consumption_metrics/metrics/tests.rs:247 | two `extend` calls in a row give the same cache as one `extend` with both batches in order |
| MetricsBuffer.OnlyMetric | pageserver/src/consumption_metrics/metrics/tests.rs:286 | the filtered metrics all carry the requested name, come from the input, and include every input metric with that name |
| MetricsBuffer.OnlyMetricCounts | pageserver/src/consumption_metrics/metrics/tests.rs:286 | filtering keeps each matching metric exactly as many times as it occurs, and no other metric |
| MetricsBuffer.OnlyMetricAppend | pageserver/src/consumption_metrics/metrics/tests.rs:286 | filtering a concatenation is the concatenation of the filtered parts, so `retain` keeps the order |
| MetricsBuffer.MetricsVec.constructor | pageserver/src/consumption_metrics/metrics/tests.rs:17 | a new vector is empty |
| MetricsBuffer.MetricsVec.Push | pageserver/src/consumption_metrics/metrics/tests.rs:31 | appends one metric at the end |
| MetricsBuffer.MetricsVec.DrainInto | pageserver/src/consumption_metrics/metrics/tests.rs:247 | after `cache.extend(metrics.drain(..))` the vector is empty and the cache is the old cache extended by the drained metrics in order |
| MetricsBuffer.MetricsVec.Retain | pageserver/src/consumption_metrics/metrics/tests.rs:286 | keeps exactly the metrics with the given name, in order |
| TimelineMetrics.TimelineEvents | pageserver/src/consumption_metrics/metrics/tests.rs:33-44 | two or three metrics: first the delta up to `now`, then `written_size` at `now`, then possibly the logical size at `now`, all well-shaped |
| TimelineMetrics.ToMetrics | pageserver/src/consumption_metrics/metrics/tests.rs:31 | appends exactly the timeline's metrics to the vector and reads the cache only |
| TimelineMetrics.WrittenSizeNeverRegresses | pageserver/src/consumption_metrics/metrics/tests.rs:215-242 | `written_size` is at least the last record LSN and at least the cached `written_size`, and equals one of them |
| TimelineMetrics.DeltaStartLadder | pageserver/src/consumption_metrics/metrics/tests.rs:99-125 | the delta starts at the cached delta's stop time, else at the cached `written_size` time, else at the load time |
| TimelineMetrics.DeltaMeasuresGrowth | pageserver/src/consumption_metrics/metrics/tests.rs:221-242 | the delta is `written_size` minus the cached `written_size`; it is 0 when only a delta is cached; with an empty cache it is the growth since the loaded LSN, never negative |
| TimelineMetrics.LogicalSizeCarryForward | pageserver/src/consumption_metrics/metrics/tests.rs:273-291 | a logical size is emitted exactly when one was computed or one is cached; the computed one wins, otherwise the cached value is re-sent |
| TimelineMetrics.IntervalIsValid | pageserver/src/consumption_metrics/metrics/tests.rs:36-40 | if no cached time of the timeline and not the load time is after `now`, the delta interval does not run backwards |
| TimelineMetrics.CacheAfterRound | pageserver/src/consumption_metrics/metrics/tests.rs:246-250 | after folding a round in, the cache holds that round's delta, `written_size` and (if sent) logical size; every other key is unchanged; it stays well-formed |
| TenantMetrics.TenantEvents | pageserver/src/consumption_metrics/metrics/tests.rs:314-321 | remote size then resident size at `now`, straight from the snapshot, then possibly the synthetic size at `now` |
| TenantMetrics.ToMetrics | pageserver/src/consumption_metrics/metrics/tests.rs:312 | appends exactly the tenant's metrics to the vector and reads the cache only |
| TenantMetrics.SyntheticSizeFallback | pageserver/src/consumption_metrics/metrics/tests.rs:298-350 | a synthetic size is sent exactly when the snapshot's is nonzero or one is cached; a nonzero snapshot value wins, otherwise the cached value is re-sent |
| Rounds.Run | pageserver/src/consumption_metrics/metrics/tests.rs:246-259 | one result per round; each round's delta stops at that round's `now` and its `written_size` is taken at `now` |
| Rounds.ConsecutiveRounds | pageserver/src/consumption_metrics/metrics/tests.rs:232-259 | the second round's delta starts where the first one's stopped, `written_size` does not decrease, and the second delta equals its increase |
| Rounds.RunContiguous | pageserver/src/consumption_metrics/metrics/tests.rs:246-256 | over any number of rounds, every delta starts at the previous round's `now` |
| Rounds.RunWrittenSizeStep | pageserver/src/consumption_metrics/metrics/tests.rs:242-257 | each round's `written_size` is at least the previous round's |
| Rounds.RunWrittenSizeMonotone | pageserver/src/consumption_metrics/metrics/tests.rs:242-257 | `written_size` never decreases over any number of rounds, whatever the snapshots report |
| Rounds.RunDeltasAddUp | pageserver/src/consumption_metrics/metrics/tests.rs:237-257 | the deltas after the first round sum to exactly the growth of `written_size` |
| Rounds.RunIntervalsValid | pageserver/src/consumption_metrics/metrics/tests.rs:237-256 | if the clock does not run backwards and the first interval is valid, no round's interval runs backwards |
| Scenarios.StartupFirstRound | pageserver/src/consumption_metrics/metrics/tests.rs:17-44 | empty cache: a zero delta from the load time to `now`, `written_size` equal to the LSN, and the logical size |
| Scenarios.StartupSecondRound | pageserver/src/consumption_metrics/metrics/tests.rs:60-81 | only `written_size` cached at `before`: a zero delta from `before` to `now` |
| Scenarios.NthRoundAtSameLsn | pageserver/src/consumption_metrics/metrics/tests.rs:98-129 | a delta cached up to `just_before`: the new zero delta runs from `just_before` to `now` |
| Scenarios.PostRestartRolledBackLsn | pageserver/src/consumption_metrics/metrics/tests.rs:215-259 | with the LSN rolled back to 50 and 100 cached, both rounds report `written_size` 100 with a zero delta, and the second round starts where the first stopped |
| Scenarios.PostRestartLogicalSizeUsesCached | pageserver/src/consumption_metrics/metrics/tests.rs:273-291 | with no computed logical size and 100 cached, the one logical-size metric left after `retain` is 100 at `now` |
| Scenarios.LogicalSizeNotSentWhenNotCached | pageserver/src/consumption_metrics/metrics/tests.rs:215-244 | with no computed logical size and the cache of that test (a `written_size` and a delta, no logical size), only two metrics are sent |
| Scenarios.PostRestartSyntheticSizeUsesCached | pageserver/src/consumption_metrics/metrics/tests.rs:298-321 | synthetic size 0 in the snapshot and 1000 cached: it sends remote, resident and the cached synthetic size at `now` |
| Scenarios.PostRestartSyntheticSizeNotSentWhenNotCached | pageserver/src/consumption_metrics/metrics/tests.rs:328-350 | synthetic size 0 and nothing cached: only remote and resident are sent |
| EventImage.MetricName | pageserver/src/consumption_metrics/metrics/tests.rs:148-174 | every serialized metric name is non-empty and made only of lower-case letters and `_`, so it needs no JSON escaping |
| EventImage.MetricNamesDistinct | pageserver/src/consumption_metrics/metrics/tests.rs:148-174 | no two metrics share a serialized name |
| EventImage.Decimal | pageserver/src/consumption_metrics/metrics/tests.rs:148 | a value renders as digits with no leading zero |
| EventImage.DecimalRoundTrip | pageserver/src/consumption_metrics/metrics/tests.rs:148 | reading back a rendered value gives the value |
| EventImage.Pad4 | pageserver/src/consumption_metrics/metrics/tests.rs:178 | the sequence number is at least four digits long and reads back as itself |
| EventImage.IdempotencyKey | pageserver/src/consumption_metrics/metrics/tests.rs:178 | the key is the timestamp display, then `-node-`, then exactly the `{:04}` rendering of the sequence number: at least four digits, no longer than needed, read back as the sequence number |
| EventImage.FixtureKey | pageserver/src/consumption_metrics/metrics/tests.rs:178 | for node "1" and sequence 0 at the fixed instant the key is `2023-09-15 00:00:00.123456789 UTC-1-0000` |
| EventImage.EventMembers | pageserver/src/consumption_metrics/metrics/tests.rs:180-191 | for any metric, key and formatting, the event's fields are the type tag, the time field(s) of its kind, its metric name, the key, its value and its tenant, in that order; a `timeline_id` member is there, last, exactly when the metric has a timeline |
| EventImage.Serialize | pageserver/src/consumption_metrics/metrics/tests.rs:191 | every image opens with `{"type":"` and ends with `}` |
| EventImage.JoinStartsWith | pageserver/src/consumption_metrics/metrics/tests.rs:191 | the comma-joined members begin with the first member |
| EventImage.Fields | pageserver/src/consumption_metrics/metrics/tests.rs:148-175 | the field names follow the fixed absolute or incremental order; `timeline_id` is omitted exactly for tenant-level events; the first field is the type tag |
| EventImage.FieldNamesUnique | pageserver/src/consumption_metrics/metrics/tests.rs:148-154 | no field name appears twice in either order |
| EventImage.TimelineImagesStable | pageserver/src/consumption_metrics/metrics/tests.rs:145-160 | the written size, delta and logical size images of the fixture have exactly the members, values and order of the expected strings, with `timeline_id` last |
| EventImage.TenantImagesStable | pageserver/src/consumption_metrics/metrics/tests.rs:161-175 | the remote, resident and synthetic size images of the fixture have exactly the members, values and order of the expected strings, with no `timeline_id` |

## Left out

- The wall clock and random ids (`SystemTime::now`, `TenantId::generate`) are parameters: every scenario holds for arbitrary times and ids.
- `time_backwards` is left out: the scenarios take the instants it produces as parameters.
- RFC 3339 formatting, the timestamp's display form and hex rendering of ids come from chrono and the id types. They are taken as the `Formats` parameter; the fixture fixes only their values at the fixed instants and ids.
- JSON string escaping is not modelled: every string in an image is a timestamp, hex id, metric name or key, and none needs escaping.
- TimelineImagesStable: states each image as `{`, the comma-joined members and `}`, with each member rendered by `Member` from a literal name and value. It does not state the image as one flat string literal, because literals of that length exceed what the verifier proves about sequence equality.
- TenantImagesStable: stated in the same member-wise form as TimelineImagesStable, for the same reason.
- Taking the snapshots, computing logical and synthetic sizes, persisting the cache, uploading and scheduling rounds are outside this core.
- `pageserver/src/consumption_metrics/metrics.rs` is not part of this model. The model makes its own choice in two cases no test exercises: a cache holding only a delta gives a delta of 0, and a rollback below the loaded LSN with an empty cache gives a delta clamped to 0. The implementation may differ in these cases.
- The assertion that an incremental event's start is not after its stop is not modelled as a failure path. IntervalIsValid and Rounds.RunIntervalsValid prove instead when it cannot fire.
- `WellFormed` (delta entries incremental, all others absolute) is a precondition of the timeline computation. Only two entries are read by shape: the cached `written_size` for its time and the cached delta for its stop time. It is asked of every key because `Extend` preserves it. What the implementation does with a mis-shaped entry is not modelled.

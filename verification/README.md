# opencost-cloudcost-exporter core, in Dafny

A model of the core of a Prometheus exporter that polls the OpenCost
`cloudCost` API, keeps the last good answer in a freshness cache, and turns it
into labelled cost observations on every scrape.

- `wrappers.dfy`: `Option` and `Result`.
- `types.dfy`: the API response shapes of `pkg/types/types.go` as datatypes.
  Cost amounts are exact reals. Go maps of items and of exchange rates are
  sequences, one possible iteration order each.
- `cache.dfy`: `pkg/cache/cache.go`. It is one optional snapshot with a
  stamp, a TTL, a stale window and hit/miss counters. The clock is an explicit
  `now`.
- `client.dfy`: `pkg/client/client.go`. It covers:
  - the retry loop of `FetchCloudCosts` over a caller-supplied world (one
    `Attempt` per iteration: was the backoff wait interrupted, what the HTTP
    round trip did, is the context done after a failure);
  - the status and decode classification of `doFetch`;
  - the Go int64 nanosecond backoff, with wrap-around;
  - `Ping`, the `symbols` query of `FetchExchangeRates`, and the 500-byte body
    preview.
- `aggregation.dfy`: `emitCostMetrics` and `emitCost` in
  `pkg/collector/collector.go`. It covers the nine-field key, the fold with
  five sums and a last-write Kubernetes fraction, the label splice, and the
  per-key emission.
- `collector.dfy`: the rest of `pkg/collector/collector.go`. It covers the
  options, `Collect` (split into the locked cache decision `Serve` and the
  emission), `fetchAndCache`, `emitExchangeRates`, and the background refresh.
  The refresh is two interleavable steps: its fetch, then the clearing of the
  `refreshing` flag.

Three behaviours of the code are easy to overlook:

- The `refreshing` flag guards background refreshes only. A scrape that finds
  expired data fetches synchronously even while a background refresh is
  still fetching (`Collector.SyncFetchMayOverlapRefresh`). So two fetches can
  run at once.
- Any status other than 200 is an error and is retried.
- A context that is done ends the loop at the point where the loop checks it:
  during a backoff wait, or after a failed request. A request that succeeds is
  returned even if the context is done by then.

The scrape emits the Kubernetes-percent observation with the six labels the
code passes (`Aggregation.KubeStyle.AsWritten`). The emission functions take
the labelling as a parameter, so the same definitions also describe the
corrected labelling of the one finding below (`Corrected`).

## Model

| member | source | states |
|---|---|---|
| Cache.New | pkg/cache/cache.go:27-32 | a new cache holds no data, has counted nothing, and keeps the given TTL and stale window |
| Cache.Get | pkg/cache/cache.go:36-62 | empty cache gives (nil, false, false); age within TTL gives the data fresh; age within TTL + maxStale gives it stale; older data is reported absent but stays stored; exactly one counter goes up by one, hits exactly when found; nothing else changes |
| Cache.Set | pkg/cache/cache.go:65-71 | stores the data (possibly nil) with age 0 at that instant, and leaves TTL, stale window and counters untouched |
| Cache.Classify | pkg/cache/cache.go:45-61 | fresh exactly up to the TTL, stale exactly past the TTL but within TTL + maxStale, expired exactly past both |
| Cache.Age | pkg/cache/cache.go:74-82 | 0 on an empty cache; otherwise the time elapsed since the stamp |
| Cache.Stats | pkg/cache/cache.go:85-87 | the hit counter, then the miss counter |
| Cache.IsPopulated | pkg/cache/cache.go:89-94 | true exactly when data is stored; an empty cache has age 0 at every instant |
| Cache.GetAgreesWithAge | pkg/cache/cache.go:45-82 | a read finds data exactly when some is stored and its Age is within the TTL or the stale window; it is stale exactly when that Age is past the TTL but within the window |
| Cache.SetThenGet | pkg/cache/cache.go:48-71 | a Set followed by a read at the same instant returns the data fresh and counts one hit |
| Cache.AgeAfterSet | pkg/cache/cache.go:65-82 | after a Set the age grows exactly with the clock |
| Cache.ClassifyMonotone | pkg/cache/cache.go:45-61 | as data ages it moves through fresh, stale, expired and never back |
| Cache.ReplayCounters | pkg/cache/cache.go:36-87 | over any run of reads and writes the counters never decrease, grow together by the number of reads, and TTL and window are kept |
| Cache.ReadsKeepData | pkg/cache/cache.go:40-62 | reads never change the stored data or its stamp, so expired data stays stored |
| Cache.PopulatedAfterSet | pkg/cache/cache.go:65-94 | after any run ending with a Set of real data the cache is populated |
| Client.New | pkg/client/client.go:58-74 | default client: one-day window, three retries |
| Client.DoFetch | pkg/client/client.go:127-181 | succeeds exactly on status 200 with a decodable body and returns the decoded value; any other status is "unexpected status" carrying the body; a transport, read or decode failure is an error; never a context error |
| Client.BackoffDoubles | pkg/client/client.go:96-98 | the wait before attempt k is 2^(k-1) seconds for every k up to 34 |
| Client.BackoffWrapsAt35 | pkg/client/client.go:98 | the int64 nanosecond product wraps at attempt 35 and gives a negative wait |
| Client.Retry | pkg/client/client.go:95-124 | from attempt k at most maxRetries + 1 - k requests are sent, none once k is past maxRetries |
| Client.FetchCloudCosts | pkg/client/client.go:94-125 | the imperative loop returns exactly the run the recursive definition describes |
| Client.RetryShape | pkg/client/client.go:95-110 | no more waits than requests from attempt 0, and the i-th wait follows the doubling schedule |
| Client.RetryEarlierAttemptsFailed | pkg/client/client.go:105-121 | every request before the last one sent failed with the context still live, and no wait before a sent request was interrupted |
| Client.RetryOutcome | pkg/client/client.go:94-124 | success exactly when the last request sent succeeded, with its value; otherwise a context error from an interrupted wait or a failed request, or "after maxRetries retries" wrapping the last request's error once all attempts up to maxRetries have failed |
| Client.RetryReaches | pkg/client/client.go:95-122 | failed attempts with a live context and uninterrupted waits advance the loop one request each |
| Client.AttemptsBounded | pkg/client/client.go:95-98 | at most maxRetries + 1 requests, no more waits than requests, and the i-th wait is 2^i seconds as int64 nanoseconds |
| Client.FirstSuccessReturned | pkg/client/client.go:112-115 | the first success is returned, no later request is sent, and every earlier request failed |
| Client.CancellationStops | pkg/client/client.go:116-121 | a context done after failed attempt j ends the loop with that error after j + 1 requests |
| Client.CancellationDuringWaitStops | pkg/client/client.go:105-107 | a context done during the wait before attempt j ends the loop with that error after j requests |
| Client.ExhaustionWrapsLastError | pkg/client/client.go:116-124 | when every request fails with a live context, all maxRetries + 1 are sent and the error wraps the last one's |
| Client.NegativeRetriesSendNothing | pkg/client/client.go:94-124 | a negative maxRetries sends nothing and wraps no error |
| Client.RetryTreatsFailuresAlike | pkg/client/client.go:112-121 | transport, status and decode failures drive the loop identically: same requests, same waits, success with the same value or failure in both, and a context error in one exactly when in the other |
| Client.Ping | pkg/client/client.go:184-221 | healthy exactly on status 200; another status is "unhealthy: status N"; no reply is a request error |
| Client.PingAgreesWithDoFetch | pkg/client/client.go:171-218 | the probe and the cost fetch accept the same statuses: 200 and nothing else |
| Client.JoinSymbolsEnds | pkg/client/client.go:236-242 | no symbols join to ""; otherwise the join starts with the first symbol and ends with the last |
| Client.SplitJoin | pkg/client/client.go:235-244 | the joined symbols split back into the symbols in input order, for comma-free symbols |
| Client.JoinSplit | pkg/client/client.go:236-242 | joining is onto: every string is the join of its comma-split parts |
| Client.ExchangeRateQuery | pkg/client/client.go:233-245 | the query always has the base first, and has a symbols entry exactly when the list is non-empty, holding the comma join |
| Client.FetchExchangeRates | pkg/client/client.go:227-304 | one request with that query, classified like a cost fetch |
| Client.BodyPreview | pkg/client/client.go:159-162 | a body of at most 500 bytes is logged whole; a longer one as its first 500 bytes and then "... (truncated)" |
| Client.BodyPreviewIdempotent | pkg/client/client.go:159-162 | previewing a preview gives the same preview |
| Aggregation.LabelValue | pkg/collector/collector.go:239-241 | a missing label reads as the empty string |
| Aggregation.KeyOf | pkg/collector/collector.go:239-277 | the key takes region from the region id and availability zone from the zone, and owner, environment and cluster from the labels, empty when absent |
| Aggregation.CostTypeOfName | pkg/collector/collector.go:301-305 | inverse of the cost_type names |
| Aggregation.Accumulate | pkg/collector/collector.go:283-288 | every one of the five costs adds on; the Kubernetes fraction is overwritten by the item's list-cost fraction |
| Aggregation.Items | pkg/collector/collector.go:231-237 | the items visited are exactly those of the sets, each as many times as the sets hold it |
| Aggregation.Fold | pkg/collector/collector.go:279-289 | every visited item's key is in the map |
| Aggregation.Aggregate | pkg/collector/collector.go:231-289 | every item's key is in the map, with sums equal to the reference sums over the items |
| Aggregation.FoldMatchesReference | pkg/collector/collector.go:279-288 | a key is in the result exactly when some item has it; each sum is the sum over exactly the items with that key; the fraction is that of the last such item |
| Aggregation.FoldStep | pkg/collector/collector.go:279-288 | a further item adds its costs onto its key's sums, never replacing them, and leaves every other key unchanged |
| Aggregation.KeysBounded | pkg/collector/collector.go:279-281 | never more keys than items |
| Aggregation.SumCostPermutation | pkg/collector/collector.go:283-287 | per-key sums do not depend on the visiting order |
| Aggregation.AggregateOrderIndependent | pkg/collector/collector.go:231-287 | visiting the same items in another map order gives the same keys and sums |
| Aggregation.KubePercentDependsOnOrder | pkg/collector/collector.go:288 | the retained fraction does depend on the visiting order |
| Aggregation.SpliceCostType | pkg/collector/collector.go:319-326 | one label longer; positions 0..3 kept, cost_type at 4, the rest shifted by one |
| Aggregation.EmitCost | pkg/collector/collector.go:319-333 | one cost_total observation with the given value, whose labels are the input's with cost_type inserted at index 4 |
| Aggregation.CostLabelsRoundTrip | pkg/collector/collector.go:72 | the spliced vector is in the descriptor's order, and key and cost type read back from it |
| Aggregation.CostObservation | pkg/collector/collector.go:319-332 | a cost_total observation carrying the key's sum of that type under the full label vector |
| Aggregation.KubePercentAsWritten | pkg/collector/collector.go:308-315 | the fraction under the six labels provider_id, account_id, service, category, "amortized_net", region |
| Aggregation.KubePercentSeriesCollide | pkg/collector/collector.go:75-80 | keys that agree on those six labels give the same series whatever their zone, owner, environment or cluster |
| Aggregation.KubePercentCollisionReachable | pkg/collector/collector.go:267-315 | two items differing only in availability zone give two keys whose series coincide |
| Aggregation.KubePercentObservation | pkg/collector/collector.go:307-315 | corrected labelling: the fraction under the key's full amortized_net label vector |
| Aggregation.KubeObservation | pkg/collector/collector.go:307-315 | the Kubernetes metric carrying the key's fraction, labelled as written or as corrected |
| Aggregation.EmitKey | pkg/collector/collector.go:297-316 | six observations per key with the Kubernetes output on, five otherwise |
| Aggregation.EmitKeyCosts | pkg/collector/collector.go:301-315 | per key: list, net, amortized_net, invoiced, amortized, each carrying that sum; then, when enabled, the fraction under the six as-written labels (or the corrected ones) |
| Aggregation.EmitKeyLabelled | pkg/collector/collector.go:298-315 | corrected labelling: every observation of a key carries that key (as written, the five cost observations do, the fraction does not) |
| Aggregation.EmitKeyDistinct | pkg/collector/collector.go:301-315 | a key's observations are pairwise distinct series, in either labelling |
| Aggregation.EmitCostMetrics | pkg/collector/collector.go:297-316 | PerKey observations per listed key and no others |
| Aggregation.EmitCostMetricsLayout | pkg/collector/collector.go:297-316 | keys are emitted block by block in the iteration order, the j-th observation of the i-th key at position PerKey * i + j |
| Aggregation.EmittedKeysListed | pkg/collector/collector.go:297-316 | corrected labelling: every emitted observation belongs to an iterated key |
| Aggregation.EmittedSeriesDistinct | pkg/collector/collector.go:297-316 | corrected labelling: with each key visited once, no two emitted observations share a series |
| Aggregation.KeyOrder | pkg/collector/collector.go:297 | an iteration order visiting every aggregated key exactly once |
| Aggregation.EmittedMetrics | pkg/collector/collector.go:301-315 | only cost_total is emitted, plus the Kubernetes metric when enabled |
| Aggregation.EmittedCostsComplete | pkg/collector/collector.go:297-305 | every iterated key's five cost series are emitted |
| Aggregation.EmittedCostAt | pkg/collector/collector.go:297-305 | the i-th key's series of each type is emitted |
| Aggregation.EmittedKubeComplete | pkg/collector/collector.go:307-315 | with the output on, every iterated key's fraction is emitted, under the six as-written labels (or the corrected ones) |
| Aggregation.EmittedKubeAt | pkg/collector/collector.go:297-315 | the i-th key's fraction is the last observation of its block |
| Aggregation.EmittedKubeRepeats | pkg/collector/collector.go:297-315 | as written, two iterated keys agreeing on provider, account, service, category and region emit one series twice |
| Aggregation.EmitSnapshot | pkg/collector/collector.go:211-317 | for a snapshot, every aggregated key gets its five series (and its fraction when enabled); only the two metric names; exactly five (or six) observations per key; in the corrected labelling also every observation belongs to a key and no series repeats |
| Aggregation.AsWrittenRepeatsSeries | pkg/collector/collector.go:231-316 | as written, with the output on, a snapshot with two items differing only in availability zone emits one series twice |
| Collector.Configure | pkg/collector/collector.go:48-122 | the Kubernetes output is on only if some option turned it on; the symbols are the defaults or those of some option |
| Collector.ConfigureKubeLastWins | pkg/collector/collector.go:48-122 | the Kubernetes output stays off unless an option sets it, and the last option setting it wins |
| Collector.ConfigureSymbolsLastWins | pkg/collector/collector.go:48-122 | the currency symbols stay CNY and EUR unless an option sets them, and the last option setting them wins |
| Collector.Init | pkg/collector/collector.go:63-125 | a new collector over a cache built with the configured TTL and stale window: nothing cached, no refresh outstanding, every counter and the last-success time at zero, invariant holds |
| Collector.FetchAndCache | pkg/collector/collector.go:188-205 | on success the data is stored with age 0, returned, and the success time recorded; on failure nil is returned, the error counter goes up and the cache is unchanged; the TTL and stale window are kept either way |
| Collector.FetchThenRead | pkg/collector/collector.go:196-204 | a stored fetch is read back fresh; a failed one leaves every later read as it was |
| Collector.SelfObservations | pkg/collector/collector.go:166-175 | five unlabelled self metrics on every scrape, in order: scrape errors, cache hits, cache misses, cache age at the sampling instant, last-success timestamp, each with its metric name and the collector's current value |
| Collector.SelfMetricsMatchCache | pkg/collector/collector.go:148-175 | hit and miss metrics equal the cache's own statistics; age is 0 on an empty cache |
| Collector.RateObservations | pkg/collector/collector.go:358-366 | one observation per returned rate, labelled with the response's base and the currency |
| Collector.RateSeriesDistinct | pkg/collector/collector.go:358-366 | distinct currencies give distinct series |
| Collector.EmitExchangeRates | pkg/collector/collector.go:344-367 | no symbols: no request and no observations; otherwise one USD request with the joined symbols, its rates on success and nothing on failure |
| Collector.Serve | pkg/collector/collector.go:143-164 | a hit serves the cached data without fetching; a refresh starts exactly on a stale hit with none outstanding; a miss, and only a miss, fetches synchronously and serves its outcome; a successful synchronous fetch is stamped, and the success time recorded, at its completion instant; exactly one counter moves; the cache's data and stamp change only on a successful fetch, and its TTL and stale window never |
| Collector.Collect | pkg/collector/collector.go:143-186 | self metrics always, the cache age sampled after any synchronous fetch; without data nothing else and no rate request; with data its cost metrics as the code labels them, then the rates |
| Collector.ScrapeRepeatsSeries | pkg/collector/collector.go:143-186 | with the Kubernetes output on, a scrape serving a snapshot with two items differing only in availability zone emits one series twice |
| Collector.Step | pkg/collector/collector.go:143-205 | only a scrape reads the cache and counts exactly one hit or miss; refresh steps leave the counters alone; clearing ends the refresh that has fetched |
| Collector.StepPreservesInv | pkg/collector/collector.go:148-164 | scrapes and refresh steps keep the flag set exactly while one refresh is outstanding, and keep the counters in step with the cache |
| Collector.RunPreservesInv | pkg/collector/collector.go:150-159 | under any interleaving, never two background refreshes outstanding |
| Collector.TwoStaleScrapesSpawnOnce | pkg/collector/collector.go:151-153 | two stale scrapes with no refresh step between them start one refresh |
| Collector.RefreshClearsFlag | pkg/collector/collector.go:154-159 | the refresh clears the flag after its fetch, on success and on failure |
| Collector.SyncFetchMayOverlapRefresh | pkg/collector/collector.go:148-164 | an expired read fetches synchronously while a background refresh is outstanding |
| Collector.NoDataNoCosts | pkg/collector/collector.go:161-179 | a miss whose fetch fails emits only the self metrics and requests no rates |

## Left out

- HTTP transport, URL building, `io.ReadAll` and JSON decoding are library calls. A round trip is an `Exchange` value (transport failure, read failure, or status plus body plus the decoder's verdict).
- The 30-second HTTP client timeout, the 30 s and 10 s fetch contexts, the unused `aggregate` option and the client options `WithTimeout`, `WithWindow`, `WithAggregate`, `WithMaxRetries` (plain field setters) are not modelled. `maxRetries` is a free field of `Client.Config`.
- `time.Now`, `time.Since` and `time.After` are replaced by explicit instants and by the recorded backoff schedule. Whether a wait is interrupted is a parameter. So is the race between a zero or negative timer and a done context, which Go's `select` decides at random.
- `slog` logging is left out; only the body preview it prints is modelled.
- Prometheus descriptors, the channel sink, `Describe`, the registry and its duplicate check are left out. Emission is a sequence of (metric, labels, value) observations.
- The `scrape_duration_seconds` histogram is left out, because it only records wall-clock time.
- Mutexes and atomics are left out. A scrape is one atomic step. The background refresh is two steps (its fetch, then the clearing of the flag) that interleave with scrapes. A refresh that completes inside another scrape's lock window is therefore not represented.
- Float64 rounding is left out. Costs, fractions and rates are exact reals, so the sums are exact and commutative.
- Go map iteration order is a sequence supplied to the model (items, exchange rates). The aggregation map is emitted in first-occurrence order (`Aggregation.KeyOrder`). The emission lemmas hold for any order that lists each key once.
- `Cache.Get`: `ttl + maxStale` is unbounded, so an overflowing Go `time.Duration` sum is not modelled.
- `Collector.Serve`: the counters are naturals, so the int64 counters' overflow is not modelled.
- `Client.BackoffDoubles`: the doubling is proved only up to attempt 34. From attempt 35 the int64 product wraps (`Client.BackoffWrapsAt35`), and the schedule records the wrapped value.
- `Collector.Collect`: a scrape has two instants, the cache read (`now`) and the end of any synchronous fetch (`done`). The stamp of that fetch, the success time and the cache-age sample all use `done`, although the code reads the clock three times in a row there.
- Ages are in the clock's unit. The conversion to float seconds for the cache-age gauge is not modelled.
- `main.go` (flags, environment, server, signals, readiness) is bootstrap code and is not part of this model. `pkg/types/types.go` has no behaviour and is mirrored as datatypes only.

## Findings

| source | as written | input that shows it | evidently intended | confidence | as-written member | corrected member |
|---|---|---|---|---|---|---|
| pkg/collector/collector.go:307-315 | the Kubernetes-percent observation carries only provider_id, account_id, service, category, "amortized_net", region | with the output enabled, two items identical except for availability zone us-east-1a and us-east-1b aggregate to two keys, which emit two observations of one series; the registry rejects such a scrape as a duplicate | one series per aggregated key ("to avoid duplication"), i.e. the key's full amortized_net label vector | not executed | Aggregation.KubePercentAsWritten | Aggregation.KubePercentObservation |

The lemmas `Aggregation.KubePercentSeriesCollide` and
`Aggregation.KubePercentCollisionReachable` show the collision for the
as-written observation. `Aggregation.AsWrittenRepeatsSeries` and
`Collector.ScrapeRepeatsSeries` show that the scrape as written emits the
repeated series. With the corrected observation,
`Aggregation.EmittedSeriesDistinct` and `Aggregation.EmitSnapshot` prove that
no series repeats.

/** The scrape path of the collector (pkg/collector/collector.go): a scrape
    reads the cache, serves fresh or stale data, starts at most one background
    refresh, fetches synchronously on a miss, and emits self metrics, cost
    metrics and exchange rates. The background refresh is split into the two
    steps collector.go runs outside the scrape lock: the fetch, and the clearing
    of the refreshing flag. */
module Collector {
  import opened Wrappers
  import opened Types
  import Cache
  import Client
  import opened Aggregation

  // ---------------------------------------------------------------------------
  // Configuration.

  datatype Config = Config(emitKubePercentMetrics: bool, currencySymbols: seq<string>)

  /** A functional option passed to the constructor. */
  datatype Setting = WithKubePercentMetrics(enabled: bool) | WithCurrencySymbols(symbols: seq<string>)

  /** The defaults: no Kubernetes-percent metric, rates for CNY and EUR. */
  const DefaultConfig := Config(false, ["CNY", "EUR"])

  /** The options applied in order over the defaults: a field differs from
      its default only when some option set it to the value it has. */
  function Configure(settings: seq<Setting>): (cfg: Config)
    ensures cfg.emitKubePercentMetrics ==> WithKubePercentMetrics(true) in settings
    ensures cfg.currencySymbols == DefaultConfig.currencySymbols
            || WithCurrencySymbols(cfg.currencySymbols) in settings
    decreases |settings|
  {
    if |settings| == 0 then DefaultConfig
    else
      var cfg := Configure(settings[..|settings| - 1]);
      match settings[|settings| - 1]
      case WithKubePercentMetrics(enabled) => cfg.(emitKubePercentMetrics := enabled)
      case WithCurrencySymbols(symbols) => cfg.(currencySymbols := symbols)
  }

  /** The Kubernetes output is set by the last option that names it, and is
      off when none does. */
  lemma {:induction false} ConfigureKubeLastWins(settings: seq<Setting>)
    ensures (forall i :: 0 <= i < |settings| ==> !settings[i].WithKubePercentMetrics?)
              ==> !Configure(settings).emitKubePercentMetrics
    ensures forall i :: 0 <= i < |settings| && settings[i].WithKubePercentMetrics?
              && (forall j :: i < j < |settings| ==> !settings[j].WithKubePercentMetrics?)
              ==> Configure(settings).emitKubePercentMetrics == settings[i].enabled
    decreases |settings|
  {
    if |settings| > 0 {
      var n := |settings| - 1;
      var init := settings[..n];
      ConfigureKubeLastWins(init);
      if settings[n].WithKubePercentMetrics? {
        assert Configure(settings).emitKubePercentMetrics == settings[n].enabled;
      } else {
        assert Configure(settings).emitKubePercentMetrics == Configure(init).emitKubePercentMetrics;
        assert forall i :: 0 <= i < n ==> init[i] == settings[i];
        forall i | 0 <= i < n && settings[i].WithKubePercentMetrics?
                   && (forall j :: i < j < |settings| ==> !settings[j].WithKubePercentMetrics?)
          ensures Configure(settings).emitKubePercentMetrics == settings[i].enabled
        {
          assert !exists j :: i < j < n && init[j].WithKubePercentMetrics?;
        }
      }
    }
  }

  /** The currency symbols are set by the last option that names them, and
      are CNY and EUR when none does. */
  lemma {:induction false} ConfigureSymbolsLastWins(settings: seq<Setting>)
    ensures (forall i :: 0 <= i < |settings| ==> !settings[i].WithCurrencySymbols?)
              ==> Configure(settings).currencySymbols == ["CNY", "EUR"]
    ensures forall i :: 0 <= i < |settings| && settings[i].WithCurrencySymbols?
              && (forall j :: i < j < |settings| ==> !settings[j].WithCurrencySymbols?)
              ==> Configure(settings).currencySymbols == settings[i].symbols
    decreases |settings|
  {
    if |settings| > 0 {
      var n := |settings| - 1;
      var init := settings[..n];
      ConfigureSymbolsLastWins(init);
      if settings[n].WithCurrencySymbols? {
        assert Configure(settings).currencySymbols == settings[n].symbols;
      } else {
        assert Configure(settings).currencySymbols == Configure(init).currencySymbols;
        assert forall i :: 0 <= i < n ==> init[i] == settings[i];
        forall i | 0 <= i < n && settings[i].WithCurrencySymbols?
                   && (forall j :: i < j < |settings| ==> !settings[j].WithCurrencySymbols?)
          ensures Configure(settings).currencySymbols == settings[i].symbols
        {
          assert !exists j :: i < j < n && init[j].WithCurrencySymbols?;
        }
      }
    }
  }

  // ---------------------------------------------------------------------------
  // State.

  /** The collector's mutable state. `inFlight` counts background refreshes
      whose fetch has not completed; `finishing` counts those that fetched but
      have not yet cleared the flag. The three counters and the timestamp are
      the self metrics. */
  datatype State = State(
    cache: Cache.Cache,
    refreshing: bool,
    inFlight: nat,
    finishing: nat,
    scrapeErrors: nat,
    cacheHits: nat,
    cacheMisses: nat,
    lastSuccess: int)

  /** A collector over a new cache with the configured TTL and stale window:
      nothing cached, no refresh outstanding, every counter at zero. */
  function Init(ttl: int, maxStale: int): (s: State)
    ensures Inv(s) && !s.refreshing && !Cache.IsPopulated(s.cache)
    ensures s.cache == Cache.New(ttl, maxStale)
    ensures s.cache.ttl == ttl && s.cache.maxStale == maxStale
    ensures s.inFlight == 0 && s.finishing == 0
    ensures s.scrapeErrors == 0 && s.cacheHits == 0 && s.cacheMisses == 0 && s.lastSuccess == 0
  {
    State(Cache.New(ttl, maxStale), false, 0, 0, 0, 0, 0, 0)
  }

  /** A refresh is outstanding exactly while the flag is set, there is never
      more than one, and the collector's hit and miss counters agree with the
      cache's own. */
  ghost predicate Inv(s: State)
  {
    && s.inFlight + s.finishing == (if s.refreshing then 1 else 0)
    && s.cacheHits == s.cache.hits
    && s.cacheMisses == s.cache.misses
  }

  // ---------------------------------------------------------------------------
  // Fetching.

  /** fetchAndCache with the fetch's outcome as a parameter: on success the
      data is stored and stamped and the success time recorded; on failure the
      error counter goes up and the cache is left alone. */
  function FetchAndCache(s: State, now: int, fetched: Result<CostResponse, Client.FetchError>)
    : (r: (State, Option<CostResponse>))
    ensures fetched.Ok? ==> r.1 == Some(fetched.value) && r.0.cache.data == Some(fetched.value)
                            && r.0.cache.fetchedAt == now && Cache.Age(r.0.cache, now) == 0
                            && r.0.lastSuccess == now
                            && r.0.scrapeErrors == s.scrapeErrors
    ensures fetched.Err? ==> r.1.None? && r.0.cache == s.cache && r.0.lastSuccess == s.lastSuccess
                             && r.0.scrapeErrors == s.scrapeErrors + 1
    ensures Cache.Stats(r.0.cache) == Cache.Stats(s.cache)
    ensures r.0.cache.ttl == s.cache.ttl && r.0.cache.maxStale == s.cache.maxStale
    ensures r.0.refreshing == s.refreshing && r.0.inFlight == s.inFlight && r.0.finishing == s.finishing
    ensures r.0.cacheHits == s.cacheHits && r.0.cacheMisses == s.cacheMisses
  {
    match fetched
    case Err(_) => (s.(scrapeErrors := s.scrapeErrors + 1), None)
    case Ok(d) => (s.(cache := Cache.Set(s.cache, Some(d), now), lastSuccess := now), Some(d))
  }

  /** A successful fetch is served fresh by a read at the same instant; a
      failed fetch leaves every later read answering as it would have. */
  lemma FetchThenRead(s: State, now: int, later: int, fetched: Result<CostResponse, Client.FetchError>)
    requires s.cache.ttl >= 0
    ensures fetched.Ok? ==> Cache.Get(FetchAndCache(s, now, fetched).0.cache, now).0
                            == Cache.Lookup(Some(fetched.value), false, true)
    ensures fetched.Err? ==> Cache.Get(FetchAndCache(s, now, fetched).0.cache, later) == Cache.Get(s.cache, later)
  {
  }

  // ---------------------------------------------------------------------------
  // Self metrics.

  const ScrapeErrorsMetric := "cloudcost_exporter_scrape_errors_total"
  const CacheHitsMetric := "cloudcost_exporter_cache_hits_total"
  const CacheMissesMetric := "cloudcost_exporter_cache_misses_total"
  const CacheAgeMetric := "cloudcost_exporter_cache_age_seconds"
  const LastSuccessMetric := "cloudcost_exporter_last_successful_scrape_timestamp"
  const ExchangeRateMetric := "currency_exchange_rate"

  /** The self metrics every scrape emits, whatever happened to the data. */
  function SelfObservations(s: State, now: int): (r: seq<Observation>)
    ensures |r| == 5
    ensures forall p :: 0 <= p < 5 ==> r[p].labels == []
    ensures r[0].metric == ScrapeErrorsMetric && r[0].value == s.scrapeErrors as real
    ensures r[1].metric == CacheHitsMetric && r[1].value == s.cacheHits as real
    ensures r[2].metric == CacheMissesMetric && r[2].value == s.cacheMisses as real
    ensures r[3].metric == CacheAgeMetric && r[3].value == Cache.Age(s.cache, now) as real
    ensures r[4].metric == LastSuccessMetric && r[4].value == s.lastSuccess as real
  {
    [Observation(ScrapeErrorsMetric, [], s.scrapeErrors as real),
     Observation(CacheHitsMetric, [], s.cacheHits as real),
     Observation(CacheMissesMetric, [], s.cacheMisses as real),
     Observation(CacheAgeMetric, [], Cache.Age(s.cache, now) as real),
     Observation(LastSuccessMetric, [], s.lastSuccess as real)]
  }

  /** Under the invariant the hit and miss metrics report exactly the cache's
      own statistics, and the age metric is zero on an empty cache. */
  lemma SelfMetricsMatchCache(s: State, now: int)
    requires Inv(s)
    ensures SelfObservations(s, now)[1].value == Cache.Stats(s.cache).0 as real
    ensures SelfObservations(s, now)[2].value == Cache.Stats(s.cache).1 as real
    ensures !Cache.IsPopulated(s.cache) ==> SelfObservations(s, now)[3].value == 0.0
  {
  }

  // ---------------------------------------------------------------------------
  // Exchange rates.

  /** The base currency rates are requested against. */
  const BaseCurrency := "USD"

  /** One observation per returned rate, labelled with base and currency. */
  function RateObservations(rates: ExchangeRateResponse): (r: seq<Observation>)
    ensures |r| == |rates.rates|
    ensures forall i :: 0 <= i < |r| ==> r[i].metric == ExchangeRateMetric && r[i].value == rates.rates[i].1
    ensures forall i :: 0 <= i < |r| ==> r[i].labels == [rates.base, rates.rates[i].0]
    decreases |rates.rates|
  {
    if |rates.rates| == 0 then []
    else
      var (currency, rate) := rates.rates[0];
      [Observation(ExchangeRateMetric, [rates.base, currency], rate)]
      + RateObservations(rates.(rates := rates.rates[1..]))
  }

  /** Distinct currencies give distinct series. */
  lemma RateSeriesDistinct(rates: ExchangeRateResponse)
    requires forall i, j :: 0 <= i < j < |rates.rates| ==> rates.rates[i].0 != rates.rates[j].0
    ensures DistinctSeries(RateObservations(rates))
  {
    var r := RateObservations(rates);
    forall p, q | 0 <= p < q < |r| ensures SeriesId(r[p]) != SeriesId(r[q]) {
      assert r[p].labels[1] != r[q].labels[1];
    }
  }

  /** emitExchangeRates: the query sent (none when no symbols are configured)
      and the observations, none when the fetch fails. */
  function EmitExchangeRates(symbols: seq<string>, fx: Client.Exchange<ExchangeRateResponse>)
    : (r: (Option<seq<(string, string)>>, seq<Observation>))
    ensures |symbols| == 0 ==> r == (None, [])
    ensures |symbols| > 0 ==> r.0 == Some(Client.ExchangeRateQuery(BaseCurrency, symbols))
    ensures |symbols| > 0 && Client.DoFetch(fx).Ok? ==> r.1 == RateObservations(Client.DoFetch(fx).value)
    ensures Client.DoFetch(fx).Err? ==> r.1 == []
  {
    if |symbols| == 0 then (None, [])
    else
      var (query, rates) := Client.FetchExchangeRates(BaseCurrency, symbols, fx);
      match rates
      case Err(_) => (Some(query), [])
      case Ok(rs) => (Some(query), RateObservations(rs))
  }

  // ---------------------------------------------------------------------------
  // A scrape.

  /** Whether the cache answers a read at `now` with data. */
  predicate Servable(c: Cache.Cache, now: int)
  {
    Cache.IsPopulated(c) && (Cache.Age(c, now) <= c.ttl || Cache.Age(c, now) <= c.ttl + c.maxStale)
  }

  /** Whether a read at `now` finds stale data. */
  predicate StaleAt(c: Cache.Cache, now: int)
  {
    Cache.IsPopulated(c) && c.ttl < Cache.Age(c, now) <= c.ttl + c.maxStale
  }

  /** How a scrape obtained its data: the state after the cache read (and the
      synchronous fetch, if any), the data, whether a background refresh was
      started, and whether it fetched synchronously. */
  datatype Served = Served(state: State, data: Option<CostResponse>, spawned: bool, syncFetch: bool)

  /** The first half of Collect, under the lock: read the cache at `now`,
      count the hit or miss, start a refresh on a stale hit with none
      outstanding, and fetch synchronously on a miss; such a fetch completes
      at `done`, which stamps the stored data and the success time. */
  function Serve(s: State, now: int, done: int, fetched: Result<CostResponse, Client.FetchError>): (r: Served)
    // A hit serves the cached data; only a stale hit with no refresh
    // outstanding starts one, and a hit never fetches.
    ensures Servable(s.cache, now) ==> r.data == s.cache.data && !r.syncFetch
    ensures r.spawned <==> StaleAt(s.cache, now) && !s.refreshing
    ensures r.state.refreshing == (s.refreshing || r.spawned)
    ensures r.state.inFlight == s.inFlight + (if r.spawned then 1 else 0) && r.state.finishing == s.finishing
    // A miss, and only a miss, fetches synchronously and serves the outcome.
    ensures r.syncFetch <==> !Servable(s.cache, now)
    ensures r.syncFetch ==> r.data == (if fetched.Ok? then Some(fetched.value) else None)
    ensures r.syncFetch && fetched.Ok? ==>
              r.state.cache.data == Some(fetched.value) && r.state.cache.fetchedAt == done
              && r.state.lastSuccess == done
    ensures r.state.scrapeErrors == s.scrapeErrors + (if r.syncFetch && fetched.Err? then 1 else 0)
    // Exactly one of the two counters goes up, in step with the cache's own.
    ensures r.state.cacheMisses == s.cacheMisses + (if r.syncFetch then 1 else 0)
    ensures r.state.cacheHits == s.cacheHits + (if r.syncFetch then 0 else 1)
    ensures Cache.Stats(r.state.cache) == (s.cache.hits + (if r.syncFetch then 0 else 1),
                                           s.cache.misses + (if r.syncFetch then 1 else 0))
    // The TTL and stale window are never changed by a scrape.
    ensures r.state.cache.ttl == s.cache.ttl && r.state.cache.maxStale == s.cache.maxStale
    // Without a successful fetch the stored data and its stamp are unchanged.
    ensures !(r.syncFetch && fetched.Ok?) ==>
              r.state.cache.data == s.cache.data && r.state.cache.fetchedAt == s.cache.fetchedAt
              && r.state.lastSuccess == s.lastSuccess
  {
    Cache.GetAgreesWithAge(s.cache, now);
    var (lookup, c) := Cache.Get(s.cache, now);
    var s1 := s.(cache := c);
    if lookup.ok then
      var hit := s1.(cacheHits := s1.cacheHits + 1);
      if lookup.isStale && !s.refreshing then
        Served(hit.(refreshing := true, inFlight := hit.inFlight + 1), lookup.data, true, false)
      else
        Served(hit, lookup.data, false, false)
    else
      var miss := s1.(cacheMisses := s1.cacheMisses + 1);
      var (fetchedState, fetchedData) := FetchAndCache(miss, done, fetched);
      Served(fetchedState, fetchedData, false, true)
  }

  /** What one scrape did: how it obtained its data, the exchange-rate query
      it sent, and what it emitted. */
  datatype Scrape = Scrape(served: Served, ratesQuery: Option<seq<(string, string)>>, observations: seq<Observation>)

  /** Collect, with the outcome a synchronous fetch would have (`fetched`)
      and the exchange-rate server's reply (`fx`) as parameters: the self
      metrics always, with the cache age sampled at `done`, after any
      synchronous fetch; then, only when there is data, its cost metrics, with
      the Kubernetes fraction labelled as collector.go labels it, and the
      exchange rates. */
  function Collect(s: State, cfg: Config, now: int, done: int, fetched: Result<CostResponse, Client.FetchError>,
                   fx: Client.Exchange<ExchangeRateResponse>): (r: Scrape)
    ensures r.served == Serve(s, now, done, fetched)
    ensures |r.observations| >= 5 && r.observations[..5] == SelfObservations(r.served.state, done)
    // Without data only the self metrics are emitted and no rates are requested.
    ensures r.served.data.None? ==> |r.observations| == 5 && r.ratesQuery.None?
    // With data, its cost metrics follow, then the rates.
    ensures r.served.data.Some? ==>
              r.observations[5..] == EmitSnapshot(r.served.data.value, cfg.emitKubePercentMetrics, AsWritten)
                                     + EmitExchangeRates(cfg.currencySymbols, fx).1
    ensures r.served.data.Some? ==> r.ratesQuery == EmitExchangeRates(cfg.currencySymbols, fx).0
    // With no symbols configured no rates are requested.
    ensures |cfg.currencySymbols| == 0 ==> r.ratesQuery.None?
  {
    var v := Serve(s, now, done, fetched);
    var self := SelfObservations(v.state, done);
    if v.data.None? then
      Scrape(v, None, self)
    else
      var rates := EmitExchangeRates(cfg.currencySymbols, fx);
      var costs := EmitSnapshot(v.data.value, cfg.emitKubePercentMetrics, AsWritten);
      var obs := self + (costs + rates.1);
      assert obs[..5] == self && obs[5..] == costs + rates.1;
      Scrape(v, rates.0, obs)
  }

  // ---------------------------------------------------------------------------
  // Interleaving of scrapes and the background refresh.

  /** The steps that interleave: a scrape reading at `now` and finishing any
      synchronous fetch at `done`; the background refresh's fetch completing;
      the background refresh clearing the flag under the lock. */
  datatype Event =
    | ScrapeAt(now: int, done: int, fetched: Result<CostResponse, Client.FetchError>,
               fx: Client.Exchange<ExchangeRateResponse>)
    | RefreshFetched(at: int, outcome: Result<CostResponse, Client.FetchError>)
    | RefreshCleared

  /** One step; a refresh step with no refresh at that stage changes nothing. */
  function Step(s: State, cfg: Config, e: Event): (r: State)
    // Only a scrape reads the cache, and it counts exactly one hit or miss.
    ensures e.ScrapeAt? ==> r.cacheHits + r.cacheMisses == s.cacheHits + s.cacheMisses + 1
    ensures !e.ScrapeAt? ==> r.cacheHits == s.cacheHits && r.cacheMisses == s.cacheMisses
                             && Cache.Stats(r.cache) == Cache.Stats(s.cache)
    // Clearing ends the refresh that has fetched.
    ensures e.RefreshCleared? && s.finishing > 0 ==> !r.refreshing && r.finishing == s.finishing - 1
  {
    match e
    case ScrapeAt(now, done, fetched, fx) => Serve(s, now, done, fetched).state
    case RefreshFetched(at, outcome) =>
      if s.inFlight == 0 then s
      else FetchAndCache(s.(inFlight := s.inFlight - 1, finishing := s.finishing + 1), at, outcome).0
    case RefreshCleared =>
      if s.finishing == 0 then s
      else s.(refreshing := false, finishing := s.finishing - 1)
  }

  function Run(s: State, cfg: Config, events: seq<Event>): State
    decreases |events|
  {
    if |events| == 0 then s else Run(Step(s, cfg, events[0]), cfg, events[1..])
  }

  /** Every step keeps the invariant. */
  lemma StepPreservesInv(s: State, cfg: Config, e: Event)
    requires Inv(s)
    ensures Inv(Step(s, cfg, e))
  {
    if e.ScrapeAt? {
      Cache.GetAgreesWithAge(s.cache, e.now);
    }
  }

  /** Any interleaving keeps the invariant: at no point are two background
      refreshes outstanding, and the flag is set exactly while one is. */
  lemma {:induction false} RunPreservesInv(s: State, cfg: Config, events: seq<Event>)
    requires Inv(s)
    ensures Inv(Run(s, cfg, events))
    ensures Run(s, cfg, events).inFlight + Run(s, cfg, events).finishing <= 1
    decreases |events|
  {
    if |events| > 0 {
      StepPreservesInv(s, cfg, events[0]);
      RunPreservesInv(Step(s, cfg, events[0]), cfg, events[1..]);
    }
  }

  /** Two stale scrapes with no refresh step between them start one refresh,
      not two. */
  lemma TwoStaleScrapesSpawnOnce(s: State, t1: int, d1: int, t2: int, d2: int,
                                 f1: Result<CostResponse, Client.FetchError>, f2: Result<CostResponse, Client.FetchError>)
    requires Inv(s) && !s.refreshing
    requires StaleAt(s.cache, t1) && StaleAt(s.cache, t2)
    ensures Serve(s, t1, d1, f1).spawned
    ensures !Serve(Serve(s, t1, d1, f1).state, t2, d2, f2).spawned
    ensures Serve(Serve(s, t1, d1, f1).state, t2, d2, f2).state.inFlight == 1
  {
    var r1 := Serve(s, t1, d1, f1);
    assert Cache.Age(r1.state.cache, t2) == Cache.Age(s.cache, t2);
  }

  /** The background refresh always clears the flag once it has fetched,
      whether the fetch succeeded or failed, and a later stale scrape can
      start a new one. */
  lemma RefreshClearsFlag(s: State, cfg: Config, at: int, outcome: Result<CostResponse, Client.FetchError>)
    requires Inv(s) && s.inFlight == 1
    ensures var s' := Run(s, cfg, [RefreshFetched(at, outcome), RefreshCleared]);
      !s'.refreshing && s'.inFlight == 0 && s'.finishing == 0
    ensures outcome.Err? ==> Run(s, cfg, [RefreshFetched(at, outcome), RefreshCleared]).scrapeErrors == s.scrapeErrors + 1
    ensures outcome.Ok? ==> Run(s, cfg, [RefreshFetched(at, outcome), RefreshCleared]).cache.data == Some(outcome.value)
  {
    var s1 := Step(s, cfg, RefreshFetched(at, outcome));
    assert Run(s, cfg, [RefreshFetched(at, outcome), RefreshCleared]) == Run(s1, cfg, [RefreshCleared]);
    assert Run(s1, cfg, [RefreshCleared]) == Step(s1, cfg, RefreshCleared);
  }

  /** The flag guards only background refreshes: once the stored data has
      expired, a scrape fetches synchronously even while a background refresh
      started by an earlier stale scrape is still fetching. */
  lemma SyncFetchMayOverlapRefresh(s: State, t1: int, d1: int, t2: int, d2: int,
                                   f1: Result<CostResponse, Client.FetchError>, f2: Result<CostResponse, Client.FetchError>)
    requires Inv(s) && !s.refreshing
    requires StaleAt(s.cache, t1)
    requires Cache.Age(s.cache, t2) > s.cache.ttl && Cache.Age(s.cache, t2) > s.cache.ttl + s.cache.maxStale
    ensures Serve(s, t1, d1, f1).spawned && Serve(s, t1, d1, f1).state.inFlight == 1
    ensures Serve(Serve(s, t1, d1, f1).state, t2, d2, f2).syncFetch
    ensures Serve(Serve(s, t1, d1, f1).state, t2, d2, f2).state.inFlight == 1
  {
    var r1 := Serve(s, t1, d1, f1);
    assert Cache.Age(r1.state.cache, t2) == Cache.Age(s.cache, t2);
  }

  /** A scrape whose read misses and whose fetch fails emits nothing but the
      self metrics and requests no rates, whatever the configuration. */
  lemma NoDataNoCosts(s: State, cfg: Config, now: int, done: int, fetched: Result<CostResponse, Client.FetchError>,
                      fx: Client.Exchange<ExchangeRateResponse>)
    requires !Servable(s.cache, now) && fetched.Err?
    ensures Collect(s, cfg, now, done, fetched, fx).served.data.None?
    ensures Collect(s, cfg, now, done, fetched, fx).observations
         == SelfObservations(Serve(s, now, done, fetched).state, done)
    ensures Collect(s, cfg, now, done, fetched, fx).ratesQuery.None?
  {
  }

  /** With the Kubernetes fraction enabled, a scrape that serves a snapshot
      holding two items that differ only in availability zone emits one
      series twice, which the metrics registry rejects. */
  lemma ScrapeRepeatsSeries(s: State, cfg: Config, now: int, done: int,
                            fetched: Result<CostResponse, Client.FetchError>,
                            fx: Client.Exchange<ExchangeRateResponse>, x: CostItem, y: CostItem)
    requires cfg.emitKubePercentMetrics
    requires Serve(s, now, done, fetched).data.Some?
    requires var d := Serve(s, now, done, fetched).data.value;
             x in Items(d.data.sets) && y in Items(d.data.sets)
    requires x.properties == y.properties.(availabilityZone := x.properties.availabilityZone)
    requires x.properties.availabilityZone != y.properties.availabilityZone
    ensures !DistinctSeries(Collect(s, cfg, now, done, fetched, fx).observations)
  {
    var d := Serve(s, now, done, fetched).data.value;
    var r := Collect(s, cfg, now, done, fetched, fx);
    AsWrittenRepeatsSeries(d, x, y);
    RepeatSurvivesPrefix(r.observations, EmitSnapshot(d, true, AsWritten), EmitExchangeRates(cfg.currencySymbols, fx).1);
  }

  /** A series repeated among the cost observations is repeated in the whole
      scrape, whatever precedes and follows them. */
  lemma RepeatSurvivesPrefix(obs: seq<Observation>, costs: seq<Observation>, rest: seq<Observation>)
    requires |obs| >= 5 && obs[5..] == costs + rest
    requires !DistinctSeries(costs)
    ensures !DistinctSeries(obs)
  {
    var p, q :| 0 <= p < q < |costs| && SeriesId(costs[p]) == SeriesId(costs[q]);
    assert obs[5 + p] == obs[5..][p] == costs[p];
    assert obs[5 + q] == obs[5..][q] == costs[q];
  }
}

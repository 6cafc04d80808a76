/**
 * The exporter (collector/exporter.go): construction from the options, the metric
 * descriptors, and the scrape cycle that updates the exporter's own metrics.
 *
 * The scrapers run concurrently in the source; here a cycle folds their results in
 * the order they finish, `order`, which can be any arrangement of the enabled
 * scrapers. Durations are inputs (`reach`, `elapsed`).
 */
module Exporter {
  import opened Wrappers
  import opened Prom
  import opened Text
  import opened Harbor
  import opened Scraper
  import opened Registry

  const TotalScrapesMetric := "harbor_exporter_scrapes_total"
  const ScrapeErrorsMetric := "harbor_exporter_scrape_errors_total"
  const LastErrorMetric := "harbor_exporter_last_scrape_error"
  const UpMetric := "harbor_up"
  const DurationMetric := "harbor_exporter_collector_duration_seconds"
  /** The duration label of the ping. */
  const ReachLabel := "reach"

  // ---------------------------------------------------------------------------
  // New

  /** What `url.Parse` yields that `New` looks at. */
  datatype UrlParts = UrlParts(scheme: string, host: string)

  datatype NewError = UnparsableUrl(uri: string) | InvalidUrl(uri: string) | NoSystemCertPool

  /** The values of the exporter's own metrics, which live from one cycle to the next. */
  datatype Metrics = Metrics(totalScrapes: nat, scrapeErrors: map<string, nat>, lastError: real, up: real)

  /** `NewMetrics`: every counter and gauge at zero, no error counter child yet. */
  function NewMetrics(): (m: Metrics)
    ensures m.totalScrapes == 0 && m.lastError == 0.0 && m.up == 0.0
    ensures forall n :: n !in m.scrapeErrors && Count(m.scrapeErrors, n) == 0
  {
    Metrics(0, map[], 0.0, 0.0)
  }

  datatype ExporterConfig = ExporterConfig(client: HarborClient, metrics: Metrics, scrapers: seq<ScraperKind>)

  /** The address `New` validates: "http://" is put in front unless it contains "://". */
  function Normalize(url: string): (uri: string)
    ensures Contains(uri, "://")
    ensures Contains(url, "://") ==> uri == url
    ensures !Contains(url, "://") ==> uri == "http://" + url
  {
    if Contains(url, "://") then url
    else
      ContainsAfterPrefix("http", "://" + url, "://");
      assert "http" + ("://" + url) == "http://" + url;
      "http://" + url
  }

  /** `url.Parse` succeeded, the host is non-empty, and the scheme is http or https. */
  predicate AcceptedUrl(parsed: Option<UrlParts>)
  {
    parsed.Some? && parsed.value.host != "" && (parsed.value.scheme == "http" || parsed.value.scheme == "https")
  }

  /** `os.Getenv`: the empty string for an unset variable. */
  function Getenv(env: map<string, string>, key: string): string
  {
    if key in env then env[key] else ""
  }

  /** The credential override of `New` as written: a non-empty HARBOR_USERNAME is
      stored as the password, and a non-empty HARBOR_PASSWORD then overrides it; the
      username is never touched. */
  function WithEnvCredentials(opts: HarborOpts, env: map<string, string>): (o: HarborOpts)
    ensures o.(password := opts.password) == opts
    ensures Getenv(env, "HARBOR_PASSWORD") != "" ==> o.password == Getenv(env, "HARBOR_PASSWORD")
    ensures Getenv(env, "HARBOR_PASSWORD") == "" && Getenv(env, "HARBOR_USERNAME") != "" ==> o.password == Getenv(env, "HARBOR_USERNAME")
    ensures Getenv(env, "HARBOR_PASSWORD") == "" && Getenv(env, "HARBOR_USERNAME") == "" ==> o == opts
  {
    var user := Getenv(env, "HARBOR_USERNAME");
    var withUser := if user != "" then opts.(password := user) else opts;
    var pass := Getenv(env, "HARBOR_PASSWORD");
    if pass != "" then withUser.(password := pass) else withUser
  }

  /** `New`. `parse` stands for `url.Parse`, `certPoolOk` for `x509.SystemCertPool`
      succeeding, and `env` for the process environment. The client keeps the address
      as given, not the normalised one. */
  function New(opts: HarborOpts, metrics: Metrics, scrapers: seq<ScraperKind>,
               parse: string -> Option<UrlParts>, certPoolOk: bool, env: map<string, string>): (r: Result<ExporterConfig, NewError>)
    ensures r.Ok? <==> AcceptedUrl(parse(Normalize(opts.url))) && certPoolOk
    ensures parse(Normalize(opts.url)).None? ==> r == Err(UnparsableUrl(Normalize(opts.url)))
    ensures parse(Normalize(opts.url)).Some? && !AcceptedUrl(parse(Normalize(opts.url))) ==> r == Err(InvalidUrl(Normalize(opts.url)))
    ensures AcceptedUrl(parse(Normalize(opts.url))) && !certPoolOk ==> r == Err(NoSystemCertPool)
    ensures r.Ok? ==> r.value == ExporterConfig(HarborClient(WithEnvCredentials(opts, env)), metrics, scrapers)
    ensures r.Ok? ==> r.value.client.opts.url == opts.url
  {
    var uri := Normalize(opts.url);
    match parse(uri)
    case None => Err(UnparsableUrl(uri))
    case Some(u) =>
      if u.host == "" || (u.scheme != "http" && u.scheme != "https") then Err(InvalidUrl(uri))
      else if !certPoolOk then Err(NoSystemCertPool)
      else Ok(ExporterConfig(HarborClient(WithEnvCredentials(opts, env)), metrics, scrapers))
  }

  // ---------------------------------------------------------------------------
  // Describe

  datatype Desc = Desc(name: string, help: string, labels: seq<string>)

  /** The descriptors `Describe` sends: the four metrics of `NewMetrics`. The duration
      metric and the scrapers' metrics are not among them. */
  function Describe(): (ds: seq<Desc>)
    ensures |ds| == 4
    ensures forall i, j :: 0 <= i < j < |ds| ==> ds[i].name != ds[j].name
    ensures forall i :: 0 <= i < |ds| ==> ds[i].name != DurationMetric
    ensures [ds[0].name, ds[1].name, ds[2].name, ds[3].name] == [TotalScrapesMetric, LastErrorMetric, ScrapeErrorsMetric, UpMetric]
  {
    [Desc(TotalScrapesMetric, "Total number of times harbor was scraped for metrics.", []),
     Desc(LastErrorMetric, "Whether the last scrape of metrics from harbor resulted in an error (1 for error, 0 for success).", []),
     Desc(ScrapeErrorsMetric, "Total number of times an error occurred scraping a harbor.", ["collector"]),
     Desc(UpMetric, "Whether the harbor is up.", [])]
  }

  // ---------------------------------------------------------------------------
  // The scrape cycle, as functions

  /** One finished scraper: its label, what it did, and how long it took. */
  datatype Run = Run(name: string, result: ScrapeResult, seconds: real)

  /** The scrapers' runs in the order they finished. */
  function Runs(order: seq<ScraperKind>, api: HarborApi, overrideVersion: string, elapsed: ScraperKind -> real): (rs: seq<Run>)
    ensures |rs| == |order|
    ensures forall i :: 0 <= i < |order| ==> rs[i] == Run(Name(order[i]), RunScraper(order[i], api, overrideVersion), elapsed(order[i]))
  {
    seq(|order|, i requires 0 <= i < |order| => Run(Name(order[i]), RunScraper(order[i], api, overrideVersion), elapsed(order[i])))
  }

  /** `ScrapeErrors.WithLabelValues(name).Inc()`: the child is created at 0 on first use. */
  function Inc(counters: map<string, nat>, collector: string): map<string, nat>
  {
    counters[collector := Count(counters, collector) + 1]
  }

  function Count(counters: map<string, nat>, collector: string): nat
  {
    if collector in counters then counters[collector] else 0
  }

  /** Lines 131-140 as written: the ping's failure branch sets up 0 and error 1, and the
      next two statements set up 1 and error 0 whatever happened. */
  function AfterPing(m: Metrics, ping: PingResult): (r: Metrics)
    ensures r.up == 1.0 && r.lastError == 0.0
    ensures r.totalScrapes == m.totalScrapes && r.scrapeErrors == m.scrapeErrors
  {
    var m' := if !ping.pong || ping.err.Some? then m.(up := 0.0, lastError := 1.0) else m;
    m'.(up := 1.0, lastError := 0.0)
  }

  /** One scraper goroutine's effect on the metrics. */
  function FoldRun(m: Metrics, run: Run): (r: Metrics)
    ensures r.totalScrapes == m.totalScrapes && r.up == m.up
    ensures r.lastError == if run.result.err.Some? then 1.0 else m.lastError
    ensures forall n :: n in r.scrapeErrors <==> n in m.scrapeErrors || (n == run.name && run.result.err.Some?)
    ensures forall n :: Count(r.scrapeErrors, n) == Count(m.scrapeErrors, n) + (if n == run.name && run.result.err.Some? then 1 else 0)
  {
    if run.result.err.Some? then m.(scrapeErrors := Inc(m.scrapeErrors, run.name), lastError := 1.0) else m
  }

  function FoldRuns(m: Metrics, rs: seq<Run>): Metrics
  {
    if rs == [] then m else FoldRun(FoldRuns(m, rs[..|rs| - 1]), rs[|rs| - 1])
  }

  /** The metrics after one cycle. */
  function CycleMetrics(m: Metrics, ping: PingResult, rs: seq<Run>): Metrics
  {
    FoldRuns(AfterPing(m.(totalScrapes := m.totalScrapes + 1), ping), rs)
  }

  function DurationSample(collector: string, seconds: real): Sample
  {
    Sample(DurationMetric, [collector], seconds)
  }

  /** What the scraper goroutines send: each its own samples, then its duration. */
  function RunSamples(rs: seq<Run>): (ss: seq<Sample>)
    ensures forall s :: s in ss <==> exists i :: 0 <= i < |rs| && (s in rs[i].result.sent || s == DurationSample(rs[i].name, rs[i].seconds))
  {
    if rs == [] then []
    else RunSamples(rs[..|rs| - 1]) + rs[|rs| - 1].result.sent + [DurationSample(rs[|rs| - 1].name, rs[|rs| - 1].seconds)]
  }

  /** What `scrape` sends: the ping's duration, then the scrapers'. */
  function CycleSamples(reach: real, rs: seq<Run>): seq<Sample>
  {
    [DurationSample(ReachLabel, reach)] + RunSamples(rs)
  }

  // ---------------------------------------------------------------------------
  // Counting

  function FailCount(rs: seq<Run>, collector: string): nat
  {
    if rs == [] then 0
    else FailCount(rs[..|rs| - 1], collector) + (if rs[|rs| - 1].name == collector && rs[|rs| - 1].result.err.Some? then 1 else 0)
  }

  function NameCount(rs: seq<Run>, collector: string): nat
  {
    if rs == [] then 0
    else NameCount(rs[..|rs| - 1], collector) + (if rs[|rs| - 1].name == collector then 1 else 0)
  }

  predicate AnyFailed(rs: seq<Run>)
  {
    rs != [] && (AnyFailed(rs[..|rs| - 1]) || rs[|rs| - 1].result.err.Some?)
  }

  /** The number of duration samples with a given label. */
  function DurationCount(ss: seq<Sample>, collector: string): nat
  {
    if ss == [] then 0
    else DurationCount(ss[..|ss| - 1], collector) + (if ss[|ss| - 1].name == DurationMetric && ss[|ss| - 1].labels == [collector] then 1 else 0)
  }

  predicate Failed(k: ScraperKind, api: HarborApi, overrideVersion: string)
  {
    RunScraper(k, api, overrideVersion).err.Some?
  }

  // ---------------------------------------------------------------------------
  // Properties of the cycle

  /** Folding the scrapers' results: each failure adds one to its own label's counter
      (creating it if need be) and sets the error gauge to 1; nothing else changes. */
  lemma {:induction false} FoldRunsEffect(m: Metrics, rs: seq<Run>)
    ensures FoldRuns(m, rs).totalScrapes == m.totalScrapes
    ensures FoldRuns(m, rs).up == m.up
    ensures FoldRuns(m, rs).lastError == if AnyFailed(rs) then 1.0 else m.lastError
    ensures forall n :: n in FoldRuns(m, rs).scrapeErrors <==> n in m.scrapeErrors || FailCount(rs, n) > 0
    ensures forall n :: Count(FoldRuns(m, rs).scrapeErrors, n) == Count(m.scrapeErrors, n) + FailCount(rs, n)
  {
    if rs != [] {
      FoldRunsEffect(m, rs[..|rs| - 1]);
    }
  }

  /** The ping's outcome has no effect on the metrics after a cycle, so `up` always
      reads 1, and the error gauge reads 1 exactly when some scraper failed. */
  lemma CycleEffect(m: Metrics, ping: PingResult, rs: seq<Run>)
    ensures CycleMetrics(m, ping, rs).totalScrapes == m.totalScrapes + 1
    ensures CycleMetrics(m, ping, rs).up == 1.0
    ensures CycleMetrics(m, ping, rs).lastError == if AnyFailed(rs) then 1.0 else 0.0
    ensures forall n :: n in CycleMetrics(m, ping, rs).scrapeErrors <==> n in m.scrapeErrors || FailCount(rs, n) > 0
    ensures forall n :: Count(CycleMetrics(m, ping, rs).scrapeErrors, n) == Count(m.scrapeErrors, n) + FailCount(rs, n)
  {
    FoldRunsEffect(AfterPing(m.(totalScrapes := m.totalScrapes + 1), ping), rs);
  }

  /** No counter ever decreases and no counter child disappears. */
  lemma CountersNeverDecrease(m: Metrics, ping: PingResult, rs: seq<Run>)
    ensures CycleMetrics(m, ping, rs).totalScrapes > m.totalScrapes
    ensures forall n :: n in m.scrapeErrors ==>
              n in CycleMetrics(m, ping, rs).scrapeErrors && CycleMetrics(m, ping, rs).scrapeErrors[n] >= m.scrapeErrors[n]
  {
    CycleEffect(m, ping, rs);
    var c := CycleMetrics(m, ping, rs);
    forall n | n in m.scrapeErrors
      ensures n in c.scrapeErrors && c.scrapeErrors[n] >= m.scrapeErrors[n]
    {
      assert Count(c.scrapeErrors, n) == Count(m.scrapeErrors, n) + FailCount(rs, n);
    }
  }

  lemma RunsPrefix(order: seq<ScraperKind>, api: HarborApi, overrideVersion: string, elapsed: ScraperKind -> real, i: nat)
    requires i <= |order|
    ensures Runs(order, api, overrideVersion, elapsed)[..i] == Runs(order[..i], api, overrideVersion, elapsed)
  {
  }

  /** A scraper's failures are counted under its own name and nowhere else: the count
      for a collector is how often the scraper of that name occurs among the runs if it
      failed, and 0 otherwise. */
  lemma {:induction false} FailCountByKind(order: seq<ScraperKind>, api: HarborApi, overrideVersion: string,
                                           elapsed: ScraperKind -> real, collector: string)
    ensures FailCount(Runs(order, api, overrideVersion, elapsed), collector) ==
      match KindNamed(collector)
      case None => 0
      case Some(k) => if Failed(k, api, overrideVersion) then multiset(order)[k] else 0
    decreases |order|
  {
    var rs := Runs(order, api, overrideVersion, elapsed);
    if order != [] {
      var last := order[|order| - 1];
      var init := order[..|order| - 1];
      RunsPrefix(order, api, overrideVersion, elapsed, |order| - 1);
      FailCountByKind(init, api, overrideVersion, elapsed, collector);
      assert order == init + [last];
      assert multiset(order) == multiset(init) + multiset{last};
      NameRoundTrip(last);
    }
  }

  /** Each scraper contributes one run per occurrence in the order. */
  lemma {:induction false} NameCountByKind(order: seq<ScraperKind>, api: HarborApi, overrideVersion: string,
                                           elapsed: ScraperKind -> real, k: ScraperKind)
    ensures NameCount(Runs(order, api, overrideVersion, elapsed), Name(k)) == multiset(order)[k]
    decreases |order|
  {
    if order != [] {
      var last := order[|order| - 1];
      var init := order[..|order| - 1];
      RunsPrefix(order, api, overrideVersion, elapsed, |order| - 1);
      NameCountByKind(init, api, overrideVersion, elapsed, k);
      assert order == init + [last];
      assert multiset(order) == multiset(init) + multiset{last};
      NamesDistinct(last, k);
    }
  }

  lemma {:induction false} AnyFailedByKind(order: seq<ScraperKind>, api: HarborApi, overrideVersion: string,
                                           elapsed: ScraperKind -> real)
    ensures AnyFailed(Runs(order, api, overrideVersion, elapsed)) <==> exists k :: k in order && Failed(k, api, overrideVersion)
    decreases |order|
  {
    if order != [] {
      var last := order[|order| - 1];
      var init := order[..|order| - 1];
      RunsPrefix(order, api, overrideVersion, elapsed, |order| - 1);
      AnyFailedByKind(init, api, overrideVersion, elapsed);
      assert order == init + [last];
      assert forall k :: k in order <==> k in init || k == last;
      if Failed(last, api, overrideVersion) {
        assert last in order;
      }
    }
  }

  /** The metrics after a cycle do not depend on the order in which the scrapers
      finish: any two arrangements of the same scrapers give the same metrics. */
  lemma CycleOrderIndependent(m: Metrics, ping: PingResult, api: HarborApi, overrideVersion: string,
                              o1: seq<ScraperKind>, o2: seq<ScraperKind>, e1: ScraperKind -> real, e2: ScraperKind -> real)
    requires multiset(o1) == multiset(o2)
    ensures CycleMetrics(m, ping, Runs(o1, api, overrideVersion, e1)) == CycleMetrics(m, ping, Runs(o2, api, overrideVersion, e2))
  {
    var r1, r2 := Runs(o1, api, overrideVersion, e1), Runs(o2, api, overrideVersion, e2);
    var c1, c2 := CycleMetrics(m, ping, r1), CycleMetrics(m, ping, r2);
    CycleEffect(m, ping, r1);
    CycleEffect(m, ping, r2);
    AnyFailedByKind(o1, api, overrideVersion, e1);
    AnyFailedByKind(o2, api, overrideVersion, e2);
    assert forall k :: k in o1 <==> k in multiset(o1);
    assert forall k :: k in o2 <==> k in multiset(o2);
    forall n
      ensures FailCount(r1, n) == FailCount(r2, n)
    {
      FailCountByKind(o1, api, overrideVersion, e1, n);
      FailCountByKind(o2, api, overrideVersion, e2, n);
    }
    assert c1.scrapeErrors.Keys == c2.scrapeErrors.Keys;
    forall n | n in c1.scrapeErrors
      ensures c1.scrapeErrors[n] == c2.scrapeErrors[n]
    {
      assert Count(c1.scrapeErrors, n) == Count(c2.scrapeErrors, n);
    }
  }

  lemma {:induction false} DurationCountAppend(a: seq<Sample>, b: seq<Sample>, collector: string)
    ensures DurationCount(a + b, collector) == DurationCount(a, collector) + DurationCount(b, collector)
    decreases |b|
  {
    if b == [] {
      assert a + b == a;
    } else {
      assert (a + b)[..|a + b| - 1] == a + b[..|b| - 1];
      DurationCountAppend(a, b[..|b| - 1], collector);
    }
  }

  lemma {:induction false} NoDurationSamples(ss: seq<Sample>, collector: string)
    requires forall s :: s in ss ==> s.name != DurationMetric
    ensures DurationCount(ss, collector) == 0
    decreases |ss|
  {
    if ss != [] {
      NoDurationSamples(ss[..|ss| - 1], collector);
    }
  }

  /** No scraper sends a sample on the duration metric. */
  lemma ScraperSendsNoDurations(k: ScraperKind, api: HarborApi, overrideVersion: string)
    ensures forall s :: s in RunScraper(k, api, overrideVersion).sent ==> s.name != DurationMetric
  {
    RunScraperMetrics(k, api, overrideVersion);
    assert DurationMetric !in MetricsOf(k);
  }

  lemma {:induction false} RunDurations(order: seq<ScraperKind>, api: HarborApi, overrideVersion: string,
                                        elapsed: ScraperKind -> real, collector: string)
    ensures DurationCount(RunSamples(Runs(order, api, overrideVersion, elapsed)), collector) ==
            NameCount(Runs(order, api, overrideVersion, elapsed), collector)
    decreases |order|
  {
    var rs := Runs(order, api, overrideVersion, elapsed);
    if order != [] {
      var last := rs[|rs| - 1];
      RunsPrefix(order, api, overrideVersion, elapsed, |order| - 1);
      RunDurations(order[..|order| - 1], api, overrideVersion, elapsed, collector);
      ScraperSendsNoDurations(order[|order| - 1], api, overrideVersion);
      NoDurationSamples(last.result.sent, collector);
      DurationCountAppend(RunSamples(rs[..|rs| - 1]), last.result.sent, collector);
      DurationCountAppend(RunSamples(rs[..|rs| - 1]) + last.result.sent, [DurationSample(last.name, last.seconds)], collector);
      assert DurationCount([DurationSample(last.name, last.seconds)], collector) == if last.name == collector then 1 else 0 by {
        assert [DurationSample(last.name, last.seconds)][..0] == [];
      }
    }
  }

  /** A cycle sends exactly one duration sample labelled "reach" and, for each scraper,
      as many labelled with its name as the times it runs (one for a scraper enabled
      once), whether it succeeded or failed. */
  lemma OneDurationPerScraper(reach: real, order: seq<ScraperKind>, api: HarborApi, overrideVersion: string,
                              elapsed: ScraperKind -> real, k: ScraperKind)
    ensures DurationCount(CycleSamples(reach, Runs(order, api, overrideVersion, elapsed)), ReachLabel) == 1
    ensures DurationCount(CycleSamples(reach, Runs(order, api, overrideVersion, elapsed)), Name(k)) == multiset(order)[k]
  {
    var rs := Runs(order, api, overrideVersion, elapsed);
    var head := [DurationSample(ReachLabel, reach)];
    assert head[..0] == [];
    DurationCountAppend(head, RunSamples(rs), ReachLabel);
    DurationCountAppend(head, RunSamples(rs), Name(k));
    RunDurations(order, api, overrideVersion, elapsed, ReachLabel);
    RunDurations(order, api, overrideVersion, elapsed, Name(k));
    NameCountByKind(order, api, overrideVersion, elapsed, k);
    assert KindNamed(ReachLabel) == None;
    ReachIsNoScraperName(order, api, overrideVersion, elapsed);
    assert Name(k) != ReachLabel by { NameRoundTrip(k); }
  }

  lemma {:induction false} ReachIsNoScraperName(order: seq<ScraperKind>, api: HarborApi, overrideVersion: string,
                                                elapsed: ScraperKind -> real)
    ensures NameCount(Runs(order, api, overrideVersion, elapsed), ReachLabel) == 0
    decreases |order|
  {
    if order != [] {
      RunsPrefix(order, api, overrideVersion, elapsed, |order| - 1);
      ReachIsNoScraperName(order[..|order| - 1], api, overrideVersion, elapsed);
      NameRoundTrip(order[|order| - 1]);
      assert KindNamed(ReachLabel) == None;
    }
  }

  /** A cycle stated per scraper kind: the counters grow by how often each failing
      scraper ran, the error gauge is 1 exactly when an enabled scraper failed, and one
      duration sample is sent per run and one for the ping. */
  lemma CycleByKind(m: Metrics, ping: PingResult, order: seq<ScraperKind>, scrapers: seq<ScraperKind>,
                    api: HarborApi, overrideVersion: string, reach: real, elapsed: ScraperKind -> real)
    requires multiset(order) == multiset(scrapers)
    ensures CycleMetrics(m, ping, Runs(order, api, overrideVersion, elapsed)).totalScrapes == m.totalScrapes + 1
    ensures CycleMetrics(m, ping, Runs(order, api, overrideVersion, elapsed)).up == 1.0
    ensures CycleMetrics(m, ping, Runs(order, api, overrideVersion, elapsed)).lastError ==
              (if exists k :: k in scrapers && Failed(k, api, overrideVersion) then 1.0 else 0.0)
    ensures forall k :: Count(CycleMetrics(m, ping, Runs(order, api, overrideVersion, elapsed)).scrapeErrors, Name(k)) ==
              Count(m.scrapeErrors, Name(k)) + (if Failed(k, api, overrideVersion) then multiset(scrapers)[k] else 0)
    ensures forall k :: DurationCount(CycleSamples(reach, Runs(order, api, overrideVersion, elapsed)), Name(k)) == multiset(scrapers)[k]
    ensures DurationCount(CycleSamples(reach, Runs(order, api, overrideVersion, elapsed)), ReachLabel) == 1
  {
    var rs := Runs(order, api, overrideVersion, elapsed);
    CycleEffect(m, ping, rs);
    AnyFailedByKind(order, api, overrideVersion, elapsed);
    assert forall k :: k in order <==> k in scrapers by {
      assert forall k :: k in order <==> k in multiset(order);
      assert forall k :: k in scrapers <==> k in multiset(scrapers);
    }
    forall k
      ensures Count(CycleMetrics(m, ping, rs).scrapeErrors, Name(k)) ==
              Count(m.scrapeErrors, Name(k)) + (if Failed(k, api, overrideVersion) then multiset(scrapers)[k] else 0)
    {
      FailCountByKind(order, api, overrideVersion, elapsed, Name(k));
      NameRoundTrip(k);
    }
    forall k
      ensures DurationCount(CycleSamples(reach, rs), Name(k)) == multiset(scrapers)[k]
    {
      OneDurationPerScraper(reach, order, api, overrideVersion, elapsed, k);
    }
    OneDurationPerScraper(reach, order, api, overrideVersion, elapsed, ScrapeSystemInfo);
  }

  /** Extending the folded prefix by one run. */
  lemma FoldStep(m: Metrics, rs: seq<Run>, i: nat)
    requires i < |rs|
    ensures FoldRuns(m, rs[..i + 1]) == FoldRun(FoldRuns(m, rs[..i]), rs[i])
    ensures RunSamples(rs[..i + 1]) == RunSamples(rs[..i]) + rs[i].result.sent + [DurationSample(rs[i].name, rs[i].seconds)]
  {
    assert rs[..i + 1][..i] == rs[..i];
  }

  // ---------------------------------------------------------------------------
  // The exporter object

  function ErrorCounterSample(name: string, count: nat): Sample
  {
    Sample(ScrapeErrorsMetric, [name], count as real)
  }

  /** `ss` is an exposition of the error counters: one sample per counter child, each
      carrying that child's value, in no particular order. */
  predicate CounterExposition(ss: seq<Sample>, counters: map<string, nat>)
  {
    && |ss| == |counters|
    && (forall i :: 0 <= i < |ss| ==>
          |ss[i].labels| == 1 && ss[i].labels[0] in counters && ss[i] == ErrorCounterSample(ss[i].labels[0], counters[ss[i].labels[0]]))
    && (forall n :: n in counters ==> ErrorCounterSample(n, counters[n]) in ss)
    && (forall i, j :: 0 <= i < j < |ss| ==> ss[i].labels != ss[j].labels)
  }

  /** `ScrapeErrors.Collect`: every child of the counter vector, each once. The
      iteration order of the children is left open. */
  method ExposeErrorCounters(counters: map<string, nat>) returns (ss: seq<Sample>)
    ensures CounterExposition(ss, counters)
  {
    ss := [];
    var remaining := counters.Keys;
    while remaining != {}
      invariant remaining <= counters.Keys
      invariant |ss| + |remaining| == |counters|
      invariant forall i :: 0 <= i < |ss| ==>
                  |ss[i].labels| == 1 && ss[i].labels[0] in counters && ss[i].labels[0] !in remaining
                  && ss[i] == ErrorCounterSample(ss[i].labels[0], counters[ss[i].labels[0]])
      invariant forall n :: n in counters && n !in remaining ==> ErrorCounterSample(n, counters[n]) in ss
      invariant forall i, j :: 0 <= i < j < |ss| ==> ss[i].labels != ss[j].labels
      decreases |remaining|
    {
      var n :| n in remaining;
      ss := ss + [ErrorCounterSample(n, counters[n])];
      remaining := remaining - {n};
    }
  }

  class Exporter {
    const client: HarborClient
    const scrapers: seq<ScraperKind>
    var metrics: Metrics

    constructor (config: ExporterConfig)
      ensures client == config.client && scrapers == config.scrapers && metrics == config.metrics
    {
      client := config.client;
      scrapers := config.scrapers;
      metrics := config.metrics;
    }

    /** The scraper goroutines' effect, given their runs in the order they finish:
        each failure bumps its label's error counter and sets the error gauge, and each
        run sends its samples and then its duration. */
    method RecordRuns(runs: seq<Run>) returns (sent: seq<Sample>)
      modifies this
      ensures metrics == FoldRuns(old(metrics), runs)
      ensures sent == RunSamples(runs)
    {
      sent := [];
      var i := 0;
      while i < |runs|
        invariant 0 <= i <= |runs|
        invariant metrics == FoldRuns(old(metrics), runs[..i])
        invariant sent == RunSamples(runs[..i])
      {
        var run := runs[i];
        if run.result.err.Some? {
          metrics := metrics.(scrapeErrors := Inc(metrics.scrapeErrors, run.name), lastError := 1.0);
        }
        sent := sent + run.result.sent + [DurationSample(run.name, run.seconds)];
        FoldStep(old(metrics), runs, i);
        i := i + 1;
      }
      assert runs[..|runs|] == runs;
    }

    /** One scrape cycle. `ping` is the reply to the ping request, `api` the replies to
        the scrapers' requests, `order` the order in which the scraper goroutines finish
        (any arrangement of `scrapers`), `reach` and `elapsed` the measured durations. */
    method Scrape(ping: Reply<()>, api: HarborApi, overrideVersion: string, order: seq<ScraperKind>,
                  reach: real, elapsed: ScraperKind -> real) returns (sent: seq<Sample>)
      requires multiset(order) == multiset(scrapers)
      modifies this
      ensures metrics == CycleMetrics(old(metrics), Ping(ping), Runs(order, api, overrideVersion, elapsed))
      ensures sent == CycleSamples(reach, Runs(order, api, overrideVersion, elapsed))
      ensures metrics.totalScrapes == old(metrics).totalScrapes + 1
      ensures metrics.up == 1.0
      ensures metrics.lastError == (if exists k :: k in scrapers && Failed(k, api, overrideVersion) then 1.0 else 0.0)
      ensures forall k :: Count(metrics.scrapeErrors, Name(k)) ==
                Count(old(metrics).scrapeErrors, Name(k)) + (if Failed(k, api, overrideVersion) then multiset(scrapers)[k] else 0)
      ensures forall k :: DurationCount(sent, Name(k)) == multiset(scrapers)[k]
      ensures DurationCount(sent, ReachLabel) == 1
    {
      metrics := metrics.(totalScrapes := metrics.totalScrapes + 1);
      var pong := Ping(ping);
      if !pong.pong || pong.err.Some? {
        metrics := metrics.(up := 0.0, lastError := 1.0);
      }
      metrics := metrics.(up := 1.0, lastError := 0.0);
      sent := [DurationSample(ReachLabel, reach)];

      var scraped := RecordRuns(Runs(order, api, overrideVersion, elapsed));
      sent := sent + scraped;
      CycleByKind(old(metrics), pong, order, scrapers, api, overrideVersion, reach, elapsed);
    }

    /** `Collect`: the cycle's samples, then the scrape counter, the error gauge, the
        error counters and the up gauge as they stand after the cycle. */
    method Collect(ping: Reply<()>, api: HarborApi, overrideVersion: string, order: seq<ScraperKind>,
                   reach: real, elapsed: ScraperKind -> real) returns (sent: seq<Sample>)
      requires multiset(order) == multiset(scrapers)
      modifies this
      ensures metrics == CycleMetrics(old(metrics), Ping(ping), Runs(order, api, overrideVersion, elapsed))
      ensures var cycle := CycleSamples(reach, Runs(order, api, overrideVersion, elapsed));
              && |sent| == |cycle| + 3 + |metrics.scrapeErrors|
              && sent[..|cycle|] == cycle
              && sent[|cycle|] == Sample(TotalScrapesMetric, [], metrics.totalScrapes as real)
              && sent[|cycle| + 1] == Sample(LastErrorMetric, [], metrics.lastError)
              && CounterExposition(sent[|cycle| + 2..|sent| - 1], metrics.scrapeErrors)
              && sent[|sent| - 1] == Sample(UpMetric, [], metrics.up)
    {
      var cycle := Scrape(ping, api, overrideVersion, order, reach, elapsed);
      var counters := ExposeErrorCounters(metrics.scrapeErrors);
      sent := cycle + [Sample(TotalScrapesMetric, [], metrics.totalScrapes as real), Sample(LastErrorMetric, [], metrics.lastError)]
              + counters + [Sample(UpMetric, [], metrics.up)];
      assert sent[..|cycle|] == cycle;
      assert sent[|cycle| + 2..|sent| - 1] == counters;
    }
  }

  // ---------------------------------------------------------------------------
  // Findings

  /** As written, a ping that fails leaves no trace: after a cycle whose ping got no
      reply and whose scrapers all succeeded, `up` reads 1 and the error gauge 0. */
  lemma PingFailureReportsUp(m: Metrics)
    ensures CycleMetrics(m, Ping(NoReply), []).up == 1.0
    ensures CycleMetrics(m, Ping(NoReply), []).lastError == 0.0
  {
  }

  /** The evident intent of lines 131-140: a failed ping sets up 0 and error 1, a
      successful one up 1 and error 0. */
  function IntendedAfterPing(m: Metrics, ping: PingResult): Metrics
  {
    if !ping.pong || ping.err.Some? then m.(up := 0.0, lastError := 1.0) else m.(up := 1.0, lastError := 0.0)
  }

  function IntendedCycleMetrics(m: Metrics, ping: PingResult, rs: seq<Run>): Metrics
  {
    FoldRuns(IntendedAfterPing(m.(totalScrapes := m.totalScrapes + 1), ping), rs)
  }

  /** With the intended ping handling, `up` is 1 exactly when the ping succeeded, the
      error gauge is 1 exactly when the ping or a scraper failed, and the counters are
      as in the written cycle. */
  lemma IntendedCycleEffect(m: Metrics, ping: PingResult, rs: seq<Run>)
    ensures IntendedCycleMetrics(m, ping, rs).up == (if ping.pong && ping.err.None? then 1.0 else 0.0)
    ensures IntendedCycleMetrics(m, ping, rs).lastError ==
              (if !ping.pong || ping.err.Some? || AnyFailed(rs) then 1.0 else 0.0)
    ensures IntendedCycleMetrics(m, ping, rs).totalScrapes == CycleMetrics(m, ping, rs).totalScrapes
    ensures IntendedCycleMetrics(m, ping, rs).scrapeErrors == CycleMetrics(m, ping, rs).scrapeErrors
  {
    FoldRunsEffect(IntendedAfterPing(m.(totalScrapes := m.totalScrapes + 1), ping), rs);
    CycleEffect(m, ping, rs);
    var a, b := IntendedCycleMetrics(m, ping, rs).scrapeErrors, CycleMetrics(m, ping, rs).scrapeErrors;
    assert a.Keys == b.Keys;
    forall n | n in a
      ensures a[n] == b[n]
    {
      assert Count(a, n) == Count(b, n);
    }
  }

  /** An address given without a scheme. */
  const LocalAddress := "harbor.local"

  /** Parsing as `url.Parse` does for the one address used below. */
  function ParseLocalAddress(uri: string): Option<UrlParts>
  {
    if uri == "http://" + LocalAddress then Some(UrlParts("http", LocalAddress)) else None
  }

  /** As written, `New` validates the normalised address but the client keeps the one
      it was given: "harbor.local" is accepted, and the ping then goes to
      "harbor.local/configurations", which has no scheme. */
  lemma SchemelessAddressKept()
    ensures var r := New(HarborOpts(LocalAddress, "admin", "password", "harbor_exporter", false),
                         NewMetrics(), [], ParseLocalAddress, true, map[]);
            && r.Ok?
            && RequestUrl(r.value.client, PingEndpoint) == LocalAddress + PingEndpoint
            && !Contains(RequestUrl(r.value.client, PingEndpoint), "://")
  {
    LocalAddressHasNoScheme();
  }

  lemma LocalAddressHasNoScheme()
    ensures !Contains(LocalAddress, "://")
    ensures !Contains(LocalAddress + PingEndpoint, "://")
  {
    assert ColonFree(LocalAddress);
    assert ColonFree(PingEndpoint);
    NoColonNoContains(LocalAddress, "://");
    ColonFreeConcat(LocalAddress, PingEndpoint);
    NoColonNoContains(LocalAddress + PingEndpoint, "://");
  }

  /** `New` with the client given the address it validated. */
  function NewNormalized(opts: HarborOpts, metrics: Metrics, scrapers: seq<ScraperKind>,
                         parse: string -> Option<UrlParts>, certPoolOk: bool, env: map<string, string>): (r: Result<ExporterConfig, NewError>)
    ensures r.Ok? <==> New(opts, metrics, scrapers, parse, certPoolOk, env).Ok?
    ensures r.Err? ==> r == New(opts, metrics, scrapers, parse, certPoolOk, env)
    ensures r.Ok? ==> r.value.client.opts == WithEnvCredentials(opts, env).(url := Normalize(opts.url))
    ensures r.Ok? ==> forall endpoint :: Contains(RequestUrl(r.value.client, endpoint), "://")
  {
    match New(opts, metrics, scrapers, parse, certPoolOk, env)
    case Err(e) => Err(e)
    case Ok(config) =>
      var client := HarborClient(config.client.opts.(url := Normalize(opts.url)));
      assert forall endpoint :: Contains(RequestUrl(client, endpoint), "://") by {
        forall endpoint
          ensures Contains(RequestUrl(client, endpoint), "://")
        {
          ContainsBeforeSuffix(Normalize(opts.url), endpoint, "://");
        }
      }
      Ok(config.(client := client))
  }

  /** As written, HARBOR_USERNAME alone replaces the password and leaves the username. */
  lemma UsernameVariableSetsPassword(opts: HarborOpts, env: map<string, string>)
    requires Getenv(env, "HARBOR_USERNAME") != "" && Getenv(env, "HARBOR_PASSWORD") == ""
    ensures WithEnvCredentials(opts, env).username == opts.username
    ensures WithEnvCredentials(opts, env).password == Getenv(env, "HARBOR_USERNAME")
  {
  }

  /** The evidently intended override: each variable, when set, replaces its own field. */
  function IntendedEnvCredentials(opts: HarborOpts, env: map<string, string>): (o: HarborOpts)
    ensures o.(username := opts.username, password := opts.password) == opts
    ensures o.username == if Getenv(env, "HARBOR_USERNAME") != "" then Getenv(env, "HARBOR_USERNAME") else opts.username
    ensures o.password == if Getenv(env, "HARBOR_PASSWORD") != "" then Getenv(env, "HARBOR_PASSWORD") else opts.password
  {
    var user := Getenv(env, "HARBOR_USERNAME");
    var pass := Getenv(env, "HARBOR_PASSWORD");
    opts.(username := if user != "" then user else opts.username,
          password := if pass != "" then pass else opts.password)
  }

  /** The two overrides agree exactly when HARBOR_USERNAME is unset, or when it
      equals the username and either HARBOR_PASSWORD is set or the password equals it too. */
  lemma CredentialOverridesAgree(opts: HarborOpts, env: map<string, string>)
    ensures WithEnvCredentials(opts, env) == IntendedEnvCredentials(opts, env) <==>
              Getenv(env, "HARBOR_USERNAME") == "" ||
              (opts.username == Getenv(env, "HARBOR_USERNAME") &&
               (Getenv(env, "HARBOR_PASSWORD") != "" || opts.password == Getenv(env, "HARBOR_USERNAME")))
  {
    var w, i := WithEnvCredentials(opts, env), IntendedEnvCredentials(opts, env);
    if Getenv(env, "HARBOR_USERNAME") != "" && Getenv(env, "HARBOR_PASSWORD") == "" {
      assert w.password == Getenv(env, "HARBOR_USERNAME");
      assert i.password == opts.password;
      if w == i {
        assert opts.password == Getenv(env, "HARBOR_USERNAME");
        assert i.username == Getenv(env, "HARBOR_USERNAME");
      }
    }
  }
}

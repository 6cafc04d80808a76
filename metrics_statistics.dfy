/** `ScrapeStatistics` (collector/metrics_statistics.go). Float64 counts are reals. */
module Statistics {
  import opened Wrappers
  import opened Prom
  import opened Harbor
  import opened Scraper

  const Name := "statistics"
  const Help := "Collect the statistics"
  const Endpoint := "/statistics"
  const ProjectCountMetric := "harbor_project_count_total"
  const RepoCountMetric := "harbor_repo_count_total"

  datatype StatisticsJson = StatisticsJson(
    privateProjectCount: real,
    privateRepoCount: real,
    publicProjectCount: real,
    publicRepoCount: real,
    totalProjectCount: real,
    totalRepoCount: real)

  datatype Api = Api(statistics: Reply<StatisticsJson>)

  /** Any decoded payload is accepted: the only failures are those of the request
      and the decoding, and success sends six samples, projects as (total, public,
      private) and repositories as (public, total, private). */
  function Scrape(api: Api): (r: ScrapeResult)
    ensures r.requested == [Endpoint]
    ensures r.err.None? <==> Fetch(api.statistics).Ok?
    ensures r.err.Some? ==> r.err == Some(Fetch(api.statistics).error) && r.sent == []
    ensures r.err.None? ==>
      var d := Fetch(api.statistics).value;
      && |r.sent| == 6
      && r.sent[0] == Sample(ProjectCountMetric, ["total"], d.totalProjectCount)
      && r.sent[1] == Sample(ProjectCountMetric, ["public"], d.publicProjectCount)
      && r.sent[2] == Sample(ProjectCountMetric, ["private"], d.privateProjectCount)
      && r.sent[3] == Sample(RepoCountMetric, ["public"], d.publicRepoCount)
      && r.sent[4] == Sample(RepoCountMetric, ["total"], d.totalRepoCount)
      && r.sent[5] == Sample(RepoCountMetric, ["private"], d.privateRepoCount)
  {
    match Fetch(api.statistics)
    case Err(e) => Fail([Endpoint], [], e)
    case Ok(data) =>
      Pass([Endpoint], [Sample(ProjectCountMetric, ["total"], data.totalProjectCount),
                        Sample(ProjectCountMetric, ["public"], data.publicProjectCount),
                        Sample(ProjectCountMetric, ["private"], data.privateProjectCount),
                        Sample(RepoCountMetric, ["public"], data.publicRepoCount),
                        Sample(RepoCountMetric, ["total"], data.totalRepoCount),
                        Sample(RepoCountMetric, ["private"], data.privateRepoCount)])
  }
}

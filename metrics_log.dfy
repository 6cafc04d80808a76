/** `ScrapeLogs` (collector/metrics_log.go). */
module Logs {
  import opened Prom
  import opened Harbor
  import opened Scraper

  const Name := "logs"
  const Help := "Collect the logs ref work"
  const Endpoint := "/logs?page_size=1"
  const LogRefMetric := "harbor_ref_work_logs"

  datatype LogJson = LogJson(logId: int)

  datatype Api = Api(logs: Reply<seq<LogJson>>)

  /** The payload check: exactly one entry, with a non-zero log_id. */
  predicate Accept(data: seq<LogJson>)
  {
    |data| == 1 && data[0].logId != 0
  }

  function Scrape(api: Api): (r: ScrapeResult)
    ensures r.requested == [Endpoint]
    ensures r.err.None? <==> Fetch(api.logs).Ok? && |Fetch(api.logs).value| == 1 && Fetch(api.logs).value[0].logId != 0
    ensures r.err.None? ==> r.sent == [RefSample(LogRefMetric, "/logs")]
    ensures r.err.Some? ==> r.sent == []
  {
    Check(Endpoint, api.logs, Accept, RefSample(LogRefMetric, "/logs"))
  }
}

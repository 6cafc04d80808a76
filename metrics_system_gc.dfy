/** `ScrapeGc` (collector/metrics_system_gc.go). */
module SystemGc {
  import opened Prom
  import opened Harbor
  import opened Scraper

  const Name := "systemgc"
  const Help := "Collect the systemgc ref work"
  const Endpoint := "/system/gc"
  const GcRefMetric := "harbor_ref_work_gc"

  datatype Api = Api(gc: Reply<seq<IdJson>>)

  /** The payload check: exactly one GC record, with a non-zero id. */
  predicate Accept(data: seq<IdJson>)
  {
    |data| == 1 && data[0].id != 0
  }

  function Scrape(api: Api): (r: ScrapeResult)
    ensures r.requested == [Endpoint]
    ensures r.err.None? <==> Fetch(api.gc).Ok? && |Fetch(api.gc).value| == 1 && Fetch(api.gc).value[0].id != 0
    ensures r.err.None? ==> r.sent == [RefSample(GcRefMetric, "/system/gc")]
    ensures r.err.Some? ==> r.sent == []
  {
    Check(Endpoint, api.gc, Accept, RefSample(GcRefMetric, "/system/gc"))
  }
}

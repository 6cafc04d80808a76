/** `ScrapeLables` (collector/metrics_labels.go). */
module Labels {
  import opened Prom
  import opened Harbor
  import opened Scraper

  const Name := "labels"
  const Help := "Collect the labels ref work"
  const Endpoint := "/labels?scope=g&pagesize=1"
  const LabelsRefMetric := "harbor_ref_work_labels"

  datatype Api = Api(labels: Reply<seq<IdJson>>)

  /** The payload check: exactly one label, with a non-zero id. */
  predicate Accept(data: seq<IdJson>)
  {
    |data| == 1 && data[0].id != 0
  }

  function Scrape(api: Api): (r: ScrapeResult)
    ensures r.requested == [Endpoint]
    ensures r.err.None? <==> Fetch(api.labels).Ok? && |Fetch(api.labels).value| == 1 && Fetch(api.labels).value[0].id != 0
    ensures r.err.None? ==> r.sent == [RefSample(LabelsRefMetric, "/labels")]
    ensures r.err.Some? ==> r.sent == []
  {
    Check(Endpoint, api.labels, Accept, RefSample(LabelsRefMetric, "/labels"))
  }
}

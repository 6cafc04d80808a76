/** `ScrapeQuotas` (collector/metrics_systeminfo_volumes.go). Float64 values are reals. */
module Volumes {
  import opened Wrappers
  import opened Prom
  import opened Harbor
  import opened Scraper

  const Name := "systeminfoVolumes"
  const Help := "Collect the systeminfoVolumes, user must have admin"
  const Endpoint := "/systeminfo/volumes"
  const VolumesMetric := "harbor_system_volumes_bytes"

  datatype QuotasJson = QuotasJson(total: real, free: real)

  datatype Api = Api(volumes: Reply<QuotasJson>)

  function Scrape(api: Api): (r: ScrapeResult)
    ensures r.requested == [Endpoint]
    ensures r.err.None? <==> Fetch(api.volumes).Ok? && Fetch(api.volumes).value.total != 0.0
    ensures Fetch(api.volumes).Ok? && Fetch(api.volumes).value.total == 0.0 ==> r.err == Some(NoData(Endpoint))
    ensures r.err.Some? ==> r.sent == []
    ensures r.err.None? ==>
      && |r.sent| == 3
      && (forall i :: 0 <= i < 3 ==> r.sent[i].name == VolumesMetric)
      && r.sent[0].labels == ["total"] && r.sent[1].labels == ["free"] && r.sent[2].labels == ["used"]
      && r.sent[0].value == Fetch(api.volumes).value.total
      && r.sent[1].value == Fetch(api.volumes).value.free
      && r.sent[2].value == r.sent[0].value - r.sent[1].value
  {
    match Fetch(api.volumes)
    case Err(e) => Fail([Endpoint], [], e)
    case Ok(data) =>
      if data.total == 0.0 then Fail([Endpoint], [], NoData(Endpoint))
      else Pass([Endpoint], [Sample(VolumesMetric, ["total"], data.total),
                             Sample(VolumesMetric, ["free"], data.free),
                             Sample(VolumesMetric, ["used"], data.total - data.free)])
  }

  /** "used" is total minus free with no check that free <= total: a reply that
      reports more free than total space yields a negative "used" sample. */
  lemma UsedCanBeNegative(api: Api)
    requires Fetch(api.volumes).Ok?
    requires Fetch(api.volumes).value.total != 0.0
    requires Fetch(api.volumes).value.free > Fetch(api.volumes).value.total
    ensures Scrape(api).err.None? && Scrape(api).sent[2].value < 0.0
  {
  }
}

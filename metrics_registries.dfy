/** `ScrapeRegistries` (collector/metrics_registries.go). */
module Registries {
  import opened Wrappers
  import opened Prom
  import opened Harbor
  import opened Scraper

  const Name := "registries"
  const Help := "Collect the registries and repos api work"
  const Endpoint := "/registries"
  const RegistriesMetric := "harbor_registries_healthy"

  datatype RegistryJson = RegistryJson(name: string, status: string)

  datatype Api = Api(registries: Reply<seq<RegistryJson>>)

  /** A registry counts as down only when its status is exactly "unhealthy"; any other
      string, the empty one included, counts as up. */
  function StatusValue(status: string): (v: real)
    ensures v == 0.0 <==> status == "unhealthy"
    ensures v == 1.0 <==> status != "unhealthy"
  {
    if status != "unhealthy" then 1.0 else 0.0
  }

  /** The samples the loop over the registries sends, one per registry in list order. */
  function RegistrySamples(rs: seq<RegistryJson>): (s: seq<Sample>)
    ensures |s| == |rs|
    ensures forall i :: 0 <= i < |rs| ==> s[i] == Sample(RegistriesMetric, [rs[i].name], StatusValue(rs[i].status))
  {
    if rs == [] then []
    else RegistrySamples(rs[..|rs| - 1]) + [Sample(RegistriesMetric, [rs[|rs| - 1].name], StatusValue(rs[|rs| - 1].status))]
  }

  /** What one run of the scraper does; `ScrapeRegistries` computes it step by step. */
  function Scrape(api: Api): (r: ScrapeResult)
    ensures r.requested == [Endpoint]
    ensures r.err.None? <==> Fetch(api.registries).Ok? && Fetch(api.registries).value != []
    ensures Fetch(api.registries).Ok? && Fetch(api.registries).value == [] ==> r.err == Some(NoData(Endpoint))
    ensures r.err.Some? ==> r.sent == []
    ensures r.err.None? ==> r.sent == RegistrySamples(Fetch(api.registries).value)
  {
    match Fetch(api.registries)
    case Err(e) => Fail([Endpoint], [], e)
    case Ok(data) =>
      if |data| == 0 then Fail([Endpoint], [], NoData(Endpoint))
      else Pass([Endpoint], RegistrySamples(data))
  }

  /** `ScrapeRegistries.Scrape`: an empty list is an error with no samples; otherwise
      one sample per registry, in list order, labelled with its name and valued 0
      exactly for "unhealthy". */
  method ScrapeRegistries(api: Api) returns (r: ScrapeResult)
    ensures r == Scrape(api)
    ensures r.err.None? ==>
      var rs := Fetch(api.registries).value;
      && |r.sent| == |rs| > 0
      && forall i :: 0 <= i < |rs| ==> r.sent[i].labels == [rs[i].name] && (r.sent[i].value == 0.0 <==> rs[i].status == "unhealthy")
  {
    var fetched := Fetch(api.registries);
    if fetched.Err? {
      return Fail([Endpoint], [], fetched.error);
    }
    var rs := fetched.value;
    if |rs| == 0 {
      return Fail([Endpoint], [], NoData(Endpoint));
    }
    var sent: seq<Sample> := [];
    var i := 0;
    while i < |rs|
      invariant 0 <= i <= |rs|
      invariant sent == RegistrySamples(rs[..i])
    {
      var status := 0.0;
      if rs[i].status != "unhealthy" {
        status := 1.0;
      }
      sent := sent + [Sample(RegistriesMetric, [rs[i].name], status)];
      assert rs[..i + 1][..i] == rs[..i];
      i := i + 1;
    }
    assert rs[..i] == rs;
    r := Pass([Endpoint], sent);
  }
}

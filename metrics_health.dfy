/** `ScrapeHealth` (collector/metrics_health.go). */
module Health {
  import opened Wrappers
  import opened Prom
  import opened Harbor
  import opened Scraper

  const Name := "health"
  const Help := "Collect the health ref work"
  const Endpoint := "/health"
  const HealthMetric := "harbor_health"

  datatype Component = Component(name: string, status: string)

  /** The top-level `status` is decoded but never looked at. */
  datatype HealthJson = HealthJson(status: string, components: seq<Component>)

  datatype Api = Api(health: Reply<HealthJson>)

  /** A component counts as up only when its status is exactly "healthy". */
  function StatusValue(status: string): (v: real)
    ensures v == 1.0 <==> status == "healthy"
    ensures v == 0.0 <==> status != "healthy"
  {
    if status == "healthy" then 1.0 else 0.0
  }

  /** The samples the loop over the components sends, one per component in list order. */
  function ComponentSamples(cs: seq<Component>): (s: seq<Sample>)
    ensures |s| == |cs|
    ensures forall i :: 0 <= i < |cs| ==> s[i] == Sample(HealthMetric, [cs[i].name], StatusValue(cs[i].status))
  {
    if cs == [] then []
    else ComponentSamples(cs[..|cs| - 1]) + [Sample(HealthMetric, [cs[|cs| - 1].name], StatusValue(cs[|cs| - 1].status))]
  }

  /** What one run of the scraper does; `ScrapeHealth` computes it step by step. */
  function Scrape(api: Api): (r: ScrapeResult)
    ensures r.requested == [Endpoint]
    ensures r.err.None? <==> Fetch(api.health).Ok?
    ensures r.err.Some? ==> r.err == Some(Fetch(api.health).error) && r.sent == []
    ensures r.err.None? ==> r.sent == ComponentSamples(Fetch(api.health).value.components)
  {
    match Fetch(api.health)
    case Err(e) => Fail([Endpoint], [], e)
    case Ok(data) => Pass([Endpoint], ComponentSamples(data.components))
  }

  /** `ScrapeHealth.Scrape`: one sample per component, in list order, labelled with its
      name and valued 1 exactly for "healthy"; an empty list is a success with no samples. */
  method ScrapeHealth(api: Api) returns (r: ScrapeResult)
    ensures r == Scrape(api)
    ensures r.err.None? ==>
      var cs := Fetch(api.health).value.components;
      && |r.sent| == |cs|
      && forall i :: 0 <= i < |cs| ==> r.sent[i].labels == [cs[i].name] && (r.sent[i].value == 1.0 <==> cs[i].status == "healthy")
  {
    var fetched := Fetch(api.health);
    if fetched.Err? {
      return Fail([Endpoint], [], fetched.error);
    }
    var cs := fetched.value.components;
    var sent: seq<Sample> := [];
    var i := 0;
    while i < |cs|
      invariant 0 <= i <= |cs|
      invariant sent == ComponentSamples(cs[..i])
    {
      var status := 0.0;
      if cs[i].status == "healthy" {
        status := 1.0;
      }
      sent := sent + [Sample(HealthMetric, [cs[i].name], status)];
      assert cs[..i + 1][..i] == cs[..i];
      i := i + 1;
    }
    assert cs[..i] == cs;
    r := Pass([Endpoint], sent);
  }

  /** An empty component list is not an error. */
  lemma EmptyComponentsSucceed(api: Api)
    requires Fetch(api.health).Ok? && Fetch(api.health).value.components == []
    ensures Scrape(api) == Pass([Endpoint], [])
  {
  }
}

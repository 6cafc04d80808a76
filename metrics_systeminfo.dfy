/** `ScrapeSystemInfo` (collector/metrics_systeminfo.go). */
module SystemInfo {
  import opened Wrappers
  import opened Prom
  import opened Text
  import opened Harbor
  import opened Scraper

  const Name := "systeminfo"
  const Help := "Collect the general system info"
  const Endpoint := "/systeminfo"
  const InfoMetric := "harbor_version_info"

  datatype SystemInfoJson = SystemInfoJson(
    registryUrl: string,
    projectCreationRestriction: string,
    selfRegistration: bool,
    harborVersion: string)

  datatype Api = Api(systemInfo: Reply<SystemInfoJson>)

  /** The version label: the `--override-version` value (the package variable
      `HarborVersion`) when it is set, the reported one otherwise. */
  function VersionLabel(overrideVersion: string, reported: string): (v: string)
    ensures overrideVersion != "" ==> v == overrideVersion
    ensures overrideVersion == "" ==> v == reported
  {
    if overrideVersion != "" then overrideVersion else reported
  }

  function Scrape(api: Api, overrideVersion: string): (r: ScrapeResult)
    ensures r.requested == [Endpoint]
    ensures r.err.None? <==> Fetch(api.systemInfo).Ok? && Fetch(api.systemInfo).value.registryUrl != ""
    ensures Fetch(api.systemInfo).Ok? && Fetch(api.systemInfo).value.registryUrl == "" ==> r.err == Some(NoData(Endpoint))
    ensures r.err.Some? ==> r.sent == []
    ensures r.err.None? ==>
      var d := Fetch(api.systemInfo).value;
      r.sent == [Sample(InfoMetric,
                        [d.registryUrl, d.projectCreationRestriction, FormatBool(d.selfRegistration),
                         VersionLabel(overrideVersion, d.harborVersion)],
                        1.0)]
  {
    match Fetch(api.systemInfo)
    case Err(e) => Fail([Endpoint], [], e)
    case Ok(data) =>
      if |data.registryUrl| == 0 then Fail([Endpoint], [], NoData(Endpoint))
      else
        var data' := if overrideVersion != "" then data.(harborVersion := overrideVersion) else data;
        Pass([Endpoint], [Sample(InfoMetric,
                                 [data'.registryUrl, data'.projectCreationRestriction,
                                  FormatBool(data'.selfRegistration), data'.harborVersion],
                                 1.0)])
  }
}

/**
 * The scraper registry (collector/harbor.go `Scrapers`) and the dispatch of the
 * `Scraper` interface's methods to each concrete scraper.
 */
module Registry {
  import opened Wrappers
  import opened Prom
  import opened Scraper
  import SystemInfo
  import Statistics
  import Volumes
  import Health
  import Projects
  import Users
  import Logs
  import Replication
  import SystemGc
  import Registries
  import Labels

  /** The scraper types of the collector package. */
  datatype ScraperKind =
    | ScrapeSystemInfo
    | ScrapeStatistics
    | ScrapeQuotas
    | ScrapeHealth
    | ScrapeProjects
    | ScrapeUsers
    | ScrapeLogs
    | ScrapeReplication
    | ScrapeGc
    | ScrapeRegistries
    | ScrapeLables

  function Name(k: ScraperKind): string
  {
    match k
    case ScrapeSystemInfo => SystemInfo.Name
    case ScrapeStatistics => Statistics.Name
    case ScrapeQuotas => Volumes.Name
    case ScrapeHealth => Health.Name
    case ScrapeProjects => Projects.Name
    case ScrapeUsers => Users.Name
    case ScrapeLogs => Logs.Name
    case ScrapeReplication => Replication.Name
    case ScrapeGc => SystemGc.Name
    case ScrapeRegistries => Registries.Name
    case ScrapeLables => Labels.Name
  }

  function Help(k: ScraperKind): string
  {
    match k
    case ScrapeSystemInfo => SystemInfo.Help
    case ScrapeStatistics => Statistics.Help
    case ScrapeQuotas => Volumes.Help
    case ScrapeHealth => Health.Help
    case ScrapeProjects => Projects.Help
    case ScrapeUsers => Users.Help
    case ScrapeLogs => Logs.Help
    case ScrapeReplication => Replication.Help
    case ScrapeGc => SystemGc.Help
    case ScrapeRegistries => Registries.Help
    case ScrapeLables => Labels.Help
  }

  /** The registry: each registered scraper with whether it is on by default. */
  const Scrapers: map<ScraperKind, bool> := map[
    ScrapeSystemInfo := true,
    ScrapeStatistics := true,
    ScrapeQuotas := true,
    ScrapeHealth := true,
    ScrapeProjects := true,
    ScrapeUsers := true,
    ScrapeLogs := true,
    ScrapeReplication := false,
    ScrapeGc := true
  ]

  /** Every registered scraper is on by default except the replication one, and the
      registries and labels scrapers are not registered at all. */
  lemma DefaultEnablement()
    ensures forall k :: k in Scrapers <==> k != ScrapeRegistries && k != ScrapeLables
    ensures forall k :: k in Scrapers ==> (Scrapers[k] <==> k != ScrapeReplication)
    ensures |Scrapers| == 9
  {
    assert Scrapers.Keys == {ScrapeSystemInfo, ScrapeStatistics, ScrapeQuotas, ScrapeHealth, ScrapeProjects,
                             ScrapeUsers, ScrapeLogs, ScrapeReplication, ScrapeGc};
  }

  /** The scraper a label names, if any: the inverse of `Name`. */
  function KindNamed(name: string): (k: Option<ScraperKind>)
    ensures k.Some? ==> Name(k.value) == name
  {
    if name == SystemInfo.Name then Some(ScrapeSystemInfo)
    else if name == Statistics.Name then Some(ScrapeStatistics)
    else if name == Volumes.Name then Some(ScrapeQuotas)
    else if name == Health.Name then Some(ScrapeHealth)
    else if name == Projects.Name then Some(ScrapeProjects)
    else if name == Users.Name then Some(ScrapeUsers)
    else if name == Logs.Name then Some(ScrapeLogs)
    else if name == Replication.Name then Some(ScrapeReplication)
    else if name == SystemGc.Name then Some(ScrapeGc)
    else if name == Registries.Name then Some(ScrapeRegistries)
    else if name == Labels.Name then Some(ScrapeLables)
    else None
  }

  /** A scraper's name leads back to it, so no two scrapers share a name. */
  lemma NameRoundTrip(k: ScraperKind)
    ensures KindNamed(Name(k)) == Some(k)
  {
  }

  lemma NamesDistinct(a: ScraperKind, b: ScraperKind)
    ensures Name(a) == Name(b) ==> a == b
  {
    NameRoundTrip(a);
    NameRoundTrip(b);
  }

  /** All the replies of one scrape cycle, per scraper. */
  datatype HarborApi = HarborApi(
    systemInfo: SystemInfo.Api,
    statistics: Statistics.Api,
    volumes: Volumes.Api,
    health: Health.Api,
    projects: Projects.Api,
    users: Users.Api,
    logs: Logs.Api,
    replication: Replication.Api,
    gc: SystemGc.Api,
    registries: Registries.Api,
    labels: Labels.Api)

  /** `scraper.Scrape(client, ch)`; `overrideVersion` is the package variable
      `HarborVersion`, which only the system info scraper reads. */
  function RunScraper(k: ScraperKind, api: HarborApi, overrideVersion: string): ScrapeResult
  {
    match k
    case ScrapeSystemInfo => SystemInfo.Scrape(api.systemInfo, overrideVersion)
    case ScrapeStatistics => Statistics.Scrape(api.statistics)
    case ScrapeQuotas => Volumes.Scrape(api.volumes)
    case ScrapeHealth => Health.Scrape(api.health)
    case ScrapeProjects => Projects.Scrape(api.projects)
    case ScrapeUsers => Users.Scrape(api.users)
    case ScrapeLogs => Logs.Scrape(api.logs)
    case ScrapeReplication => Replication.Scrape(api.replication)
    case ScrapeGc => SystemGc.Scrape(api.gc)
    case ScrapeRegistries => Registries.Scrape(api.registries)
    case ScrapeLables => Labels.Scrape(api.labels)
  }

  /** The metric names a scraper's samples may carry. */
  function MetricsOf(k: ScraperKind): set<string>
  {
    match k
    case ScrapeSystemInfo => {SystemInfo.InfoMetric}
    case ScrapeStatistics => {Statistics.ProjectCountMetric, Statistics.RepoCountMetric}
    case ScrapeQuotas => {Volumes.VolumesMetric}
    case ScrapeHealth => {Health.HealthMetric}
    case ScrapeProjects => {Projects.ProjectsRefMetric, Projects.ReposRefMetric}
    case ScrapeUsers => {Users.UsersRefMetric}
    case ScrapeLogs => {Logs.LogRefMetric}
    case ScrapeReplication => {Replication.ReplicationRefMetric}
    case ScrapeGc => {SystemGc.GcRefMetric}
    case ScrapeRegistries => {Registries.RegistriesMetric}
    case ScrapeLables => {Labels.LabelsRefMetric}
  }

  /** Every sample a scraper sends is on one of its own metrics. */
  lemma {:induction false} RunScraperMetrics(k: ScraperKind, api: HarborApi, overrideVersion: string)
    ensures forall s :: s in RunScraper(k, api, overrideVersion).sent ==> s.name in MetricsOf(k)
  {
    match k
    case ScrapeProjects => Projects.SentOnOwnMetrics(api.projects);
    case ScrapeUsers => Users.SentOnOwnMetrics(api.users);
    case ScrapeReplication => Replication.SentOnOwnMetrics(api.replication);
    case ScrapeHealth =>
      var r := Health.Scrape(api.health);
      assert forall s :: s in r.sent ==> s.name == Health.HealthMetric;
    case ScrapeRegistries =>
      var r := Registries.Scrape(api.registries);
      assert forall s :: s in r.sent ==> s.name == Registries.RegistriesMetric;
    case _ =>
  }
}

/** `ScrapeProjects` (collector/metrics_projects.go): six chained steps threading the
    project id, stopping at the first step that returns an error. */
module Projects {
  import opened Wrappers
  import opened Prom
  import opened Text
  import opened Harbor
  import opened Scraper

  const Name := "projects"
  const Help := "Collect the projects and repos api work"
  const ProjectsRefMetric := "harbor_ref_work_projects"
  const ReposRefMetric := "harbor_ref_work_repos"

  datatype ProjectJson = ProjectJson(projectId: int)

  /** `subInsJson`: the members endpoints answer with it. */
  datatype MemberJson = MemberJson(id: int, projectId: int)

  datatype RepoJson = RepoJson(id: int, projectId: int, name: string)

  /** `metadataJson` as a document: `None` when the document has no `public` member
      (or it is null), which `json.Unmarshal` leaves the field untouched for. */
  datatype MetadataJson = MetadataJson(public: Option<string>)

  /** Every reply the scraper may ask for, one per request it issues. */
  datatype Api = Api(
    list: Reply<seq<ProjectJson>>,
    detail: Reply<ProjectJson>,
    logs: Reply<seq<ProjectJson>>,
    metadata: Reply<MetadataJson>,
    metadataPublic: Reply<MetadataJson>,
    members: Reply<seq<MemberJson>>,
    member: Reply<MemberJson>,
    repos: Reply<seq<RepoJson>>,
    top: Reply<seq<RepoJson>>)

  // The endpoints, in the order the steps ask for them.
  const ListUrl := "/projects?page_size=1"
  function DetailUrl(id: int): string { "/projects/" + Itoa(id) }
  function LogsUrl(id: int): string { "/projects/" + Itoa(id) + "/logs?page_size=1" }
  function MetadataUrl(id: int): string { "/projects/" + Itoa(id) + "/metadatas" }
  function MetadataPublicUrl(id: int): string { "/projects/" + Itoa(id) + "/metadatas/public" }
  function MembersUrl(id: int): string { "/projects/" + Itoa(id) + "/members" }
  /** The member id in this URL is the project id again. */
  function MemberUrl(id: int): string { "/projects/" + Itoa(id) + "/members/" + Itoa(id) }
  function ReposUrl(id: int): string { "/repositories?project_id=" + Itoa(id) }
  const TopUrl := "/repositories/top?count=1"

  /** The endpoints of each step, and of the whole run (nested as the steps are). */
  function ListUrls(id: int): seq<string> { [ListUrl, DetailUrl(id)] }
  function MetadataUrls(id: int): seq<string> { [MetadataUrl(id), MetadataPublicUrl(id)] }
  function MembersUrls(id: int): seq<string> { [MembersUrl(id), MemberUrl(id)] }
  function ReposUrls(id: int): seq<string> { [ReposUrl(id), TopUrl] }

  function Urls(id: int): seq<string>
  {
    ListUrls(id) + ([LogsUrl(id)] + (MetadataUrls(id) + (MembersUrls(id) + ReposUrls(id))))
  }

  /** The sample each step sends on success, in the same grouping. */
  const ListSamples := [RefSample(ProjectsRefMetric, "/projects"),
                        RefSample(ProjectsRefMetric, "/projects/{project_id}")]
  const LogsSample := RefSample(ProjectsRefMetric, "/projects/{project_id}/logs")
  const MetadataSamples := [RefSample(ProjectsRefMetric, "/projects/{project_id}/metadatas"),
                            RefSample(ProjectsRefMetric, "/projects/{project_id}/metadatas/{meta_name}")]
  const MembersSamples := [RefSample(ProjectsRefMetric, "/projects/{project_id}/members"),
                           RefSample(ProjectsRefMetric, "/projects/{project_id}/members/{mid}")]
  const ReposSamples := [RefSample(ReposRefMetric, "/repositories"),
                         RefSample(ReposRefMetric, "/repositories/top")]

  const Samples := ListSamples + ([LogsSample] + (MetadataSamples + (MembersSamples + ReposSamples)))

  // ---- projects ----

  /** The project_id of the first project listed (0 when the list cannot be fetched or
      is empty); `projects` hands it to every later step. */
  function ListedProjectId(api: Api): int
  {
    match Fetch(api.list)
    case Ok(data) => if |data| > 0 then data[0].projectId else 0
    case Err(_) => 0
  }

  predicate OneProject(data: seq<ProjectJson>)
  {
    |data| == 1 && data[0].projectId != 0
  }

  predicate KnownProject(p: ProjectJson)
  {
    p.projectId != 0
  }

  /** `projects`: exactly one project with a non-zero project_id must be listed, and
      fetching it by that id must give a non-zero project_id. */
  function ListProjects(api: Api): (r: ScrapeResult)
    ensures r.err.None? <==>
      && Fetch(api.list).Ok? && OneProject(Fetch(api.list).value)
      && Fetch(api.detail).Ok? && KnownProject(Fetch(api.detail).value)
  {
    Then(Check(ListUrl, api.list, OneProject, ListSamples[0]),
         Check(DetailUrl(ListedProjectId(api)), api.detail, KnownProject, ListSamples[1]))
  }

  // ---- projectsLogs ----

  function ProjectLogs(id: int, api: Api): (r: ScrapeResult)
    ensures r.err.None? <==> Fetch(api.logs).Ok? && OneProject(Fetch(api.logs).value)
  {
    Check(LogsUrl(id), api.logs, OneProject, LogsSample)
  }

  // ---- projectsMetadata ----

  /** `json.Unmarshal` of a metadata document into a struct whose `Public` is
      `current`: a document without `public` leaves it as it was. */
  function DecodePublic(current: string, doc: MetadataJson): (public: string)
    ensures doc.public.Some? ==> public == doc.public.value
    ensures doc.public.None? ==> public == current
  {
    match doc.public
    case Some(p) => p
    case None => current
  }

  /** The `public` value after the first metadata request ("" when it failed). */
  function FirstPublic(api: Api): string
  {
    match Fetch(api.metadata)
    case Ok(doc) => DecodePublic("", doc)
    case Err(_) => ""
  }

  predicate HasPublic(doc: MetadataJson)
  {
    DecodePublic("", doc) != ""
  }

  /** The second metadata check as written: the second document is decoded over the
      `public` value the first one left. */
  function SecondCheck(api: Api): MetadataJson -> bool
  {
    (doc: MetadataJson) => DecodePublic(FirstPublic(api), doc) != ""
  }

  /** `projectsMetadata`: both requests decode into the same variable, so the second
      check sees the first response's `public` when the second document has none. */
  function ProjectMetadata(id: int, api: Api): (r: ScrapeResult)
    ensures r.err.None? <==>
      && Fetch(api.metadata).Ok? && HasPublic(Fetch(api.metadata).value)
      && Fetch(api.metadataPublic).Ok? && DecodePublic(FirstPublic(api), Fetch(api.metadataPublic).value) != ""
  {
    Then(Check(MetadataUrl(id), api.metadata, HasPublic, MetadataSamples[0]),
         Check(MetadataPublicUrl(id), api.metadataPublic, SecondCheck(api), MetadataSamples[1]))
  }

  /** As written, a second metadata document without `public` passes the second check
      whenever the first one had a non-empty `public`. */
  lemma MetadataSecondCheckSeesFirstPublic(id: int, api: Api, first: string)
    requires api.metadata == Reply(StatusOK, Decoded(MetadataJson(Some(first)))) && first != ""
    requires api.metadataPublic == Reply(StatusOK, Decoded(MetadataJson(None)))
    ensures ProjectMetadata(id, api).err.None?
  {
  }

  /** `projectsMetadata` with the second response decoded into a fresh struct. */
  function ProjectMetadataIntended(id: int, api: Api): (r: ScrapeResult)
    ensures r.err.None? <==>
      && Fetch(api.metadata).Ok? && Fetch(api.metadata).value.public.Some? && Fetch(api.metadata).value.public.value != ""
      && Fetch(api.metadataPublic).Ok? && Fetch(api.metadataPublic).value.public.Some? && Fetch(api.metadataPublic).value.public.value != ""
    ensures Chained(r, MetadataUrls(id), MetadataSamples,
                    [Outcome(MetadataUrl(id), api.metadata, HasPublic), Outcome(MetadataPublicUrl(id), api.metadataPublic, HasPublic)])
  {
    CheckChained(MetadataUrl(id), api.metadata, HasPublic, MetadataSamples[0]);
    CheckChained(MetadataPublicUrl(id), api.metadataPublic, HasPublic, MetadataSamples[1]);
    ThenChained(Check(MetadataUrl(id), api.metadata, HasPublic, MetadataSamples[0]), [MetadataUrl(id)], [MetadataSamples[0]],
                [Outcome(MetadataUrl(id), api.metadata, HasPublic)],
                Check(MetadataPublicUrl(id), api.metadataPublic, HasPublic, MetadataSamples[1]), [MetadataPublicUrl(id)], [MetadataSamples[1]],
                [Outcome(MetadataPublicUrl(id), api.metadataPublic, HasPublic)]);
    Then(Check(MetadataUrl(id), api.metadata, HasPublic, MetadataSamples[0]),
         Check(MetadataPublicUrl(id), api.metadataPublic, HasPublic, MetadataSamples[1]))
  }

  // ---- projectsMembers ----

  /** Unlike the other list checks, any non-empty member list is accepted. */
  predicate SomeMember(data: seq<MemberJson>)
  {
    |data| > 0 && data[0].id != 0
  }

  predicate KnownMember(m: MemberJson)
  {
    m.id != 0
  }

  function ProjectMembers(id: int, api: Api): (r: ScrapeResult)
    ensures r.err.None? <==>
      && Fetch(api.members).Ok? && SomeMember(Fetch(api.members).value)
      && Fetch(api.member).Ok? && KnownMember(Fetch(api.member).value)
  {
    Then(Check(MembersUrl(id), api.members, SomeMember, MembersSamples[0]),
         Check(MemberUrl(id), api.member, KnownMember, MembersSamples[1]))
  }

  // ---- reposQuery and reposTop ----

  predicate OneNamedRepo(data: seq<RepoJson>)
  {
    |data| == 1 && |data[0].name| != 0
  }

  function ReposQuery(id: int, api: Api): (r: ScrapeResult)
    ensures r.err.None? <==> Fetch(api.repos).Ok? && OneNamedRepo(Fetch(api.repos).value)
  {
    Check(ReposUrl(id), api.repos, OneNamedRepo, ReposSamples[0])
  }

  function ReposTop(api: Api): (r: ScrapeResult)
    ensures r.err.None? <==> Fetch(api.top).Ok? && OneNamedRepo(Fetch(api.top).value)
  {
    Check(TopUrl, api.top, OneNamedRepo, ReposSamples[1])
  }

  // ---- Scrape ----

  function Scrape(api: Api): (r: ScrapeResult)
    ensures r.err.None? <==>
      && ListProjects(api).err.None?
      && ProjectLogs(ListedProjectId(api), api).err.None?
      && ProjectMetadata(ListedProjectId(api), api).err.None?
      && ProjectMembers(ListedProjectId(api), api).err.None?
      && ReposQuery(ListedProjectId(api), api).err.None?
      && ReposTop(api).err.None?
  {
    var id := ListedProjectId(api);
    Then(ListProjects(api),
    Then(ProjectLogs(id, api),
    Then(ProjectMetadata(id, api),
    Then(ProjectMembers(id, api),
    Then(ReposQuery(id, api),
         ReposTop(api))))))
  }

  // ---- the chain of steps ----

  /** What each check returns, grouped by step as the URLs are. */
  function ListOutcomes(api: Api): seq<Option<Failure>>
  {
    [Outcome(ListUrl, api.list, OneProject), Outcome(DetailUrl(ListedProjectId(api)), api.detail, KnownProject)]
  }

  function MetadataOutcomes(id: int, api: Api): seq<Option<Failure>>
  {
    [Outcome(MetadataUrl(id), api.metadata, HasPublic), Outcome(MetadataPublicUrl(id), api.metadataPublic, SecondCheck(api))]
  }

  function MembersOutcomes(id: int, api: Api): seq<Option<Failure>>
  {
    [Outcome(MembersUrl(id), api.members, SomeMember), Outcome(MemberUrl(id), api.member, KnownMember)]
  }

  function ReposOutcomes(id: int, api: Api): seq<Option<Failure>>
  {
    [Outcome(ReposUrl(id), api.repos, OneNamedRepo), Outcome(TopUrl, api.top, OneNamedRepo)]
  }

  function Outcomes(api: Api): seq<Option<Failure>>
  {
    var id := ListedProjectId(api);
    ListOutcomes(api) + ([Outcome(LogsUrl(id), api.logs, OneProject)]
      + (MetadataOutcomes(id, api) + (MembersOutcomes(id, api) + ReposOutcomes(id, api))))
  }

  lemma {:induction false} ListProjectsChained(api: Api)
    ensures Chained(ListProjects(api), ListUrls(ListedProjectId(api)), ListSamples, ListOutcomes(api))
  {
    var id := ListedProjectId(api);
    CheckChained(ListUrl, api.list, OneProject, ListSamples[0]);
    CheckChained(DetailUrl(id), api.detail, KnownProject, ListSamples[1]);
    ThenChained(Check(ListUrl, api.list, OneProject, ListSamples[0]), [ListUrl], [ListSamples[0]],
                [Outcome(ListUrl, api.list, OneProject)],
                Check(DetailUrl(id), api.detail, KnownProject, ListSamples[1]), [DetailUrl(id)], [ListSamples[1]],
                [Outcome(DetailUrl(id), api.detail, KnownProject)]);
  }

  lemma {:induction false} MetadataChained(id: int, api: Api)
    ensures Chained(ProjectMetadata(id, api), MetadataUrls(id), MetadataSamples, MetadataOutcomes(id, api))
  {
    CheckChained(MetadataUrl(id), api.metadata, HasPublic, MetadataSamples[0]);
    CheckChained(MetadataPublicUrl(id), api.metadataPublic, SecondCheck(api), MetadataSamples[1]);
    ThenChained(Check(MetadataUrl(id), api.metadata, HasPublic, MetadataSamples[0]), [MetadataUrl(id)], [MetadataSamples[0]],
                [Outcome(MetadataUrl(id), api.metadata, HasPublic)],
                Check(MetadataPublicUrl(id), api.metadataPublic, SecondCheck(api), MetadataSamples[1]), [MetadataPublicUrl(id)], [MetadataSamples[1]],
                [Outcome(MetadataPublicUrl(id), api.metadataPublic, SecondCheck(api))]);
  }

  lemma {:induction false} MembersChained(id: int, api: Api)
    ensures Chained(ProjectMembers(id, api), MembersUrls(id), MembersSamples, MembersOutcomes(id, api))
  {
    CheckChained(MembersUrl(id), api.members, SomeMember, MembersSamples[0]);
    CheckChained(MemberUrl(id), api.member, KnownMember, MembersSamples[1]);
    ThenChained(Check(MembersUrl(id), api.members, SomeMember, MembersSamples[0]), [MembersUrl(id)], [MembersSamples[0]],
                [Outcome(MembersUrl(id), api.members, SomeMember)],
                Check(MemberUrl(id), api.member, KnownMember, MembersSamples[1]), [MemberUrl(id)], [MembersSamples[1]],
                [Outcome(MemberUrl(id), api.member, KnownMember)]);
  }

  /** The run of the last two steps. */
  lemma {:induction false} ReposChained(id: int, api: Api)
    ensures Chained(Then(ReposQuery(id, api), ReposTop(api)), ReposUrls(id), ReposSamples, ReposOutcomes(id, api))
  {
    CheckChained(ReposUrl(id), api.repos, OneNamedRepo, ReposSamples[0]);
    CheckChained(TopUrl, api.top, OneNamedRepo, ReposSamples[1]);
    ThenChained(ReposQuery(id, api), [ReposUrl(id)], [ReposSamples[0]], [Outcome(ReposUrl(id), api.repos, OneNamedRepo)],
                ReposTop(api), [TopUrl], [ReposSamples[1]], [Outcome(TopUrl, api.top, OneNamedRepo)]);
  }

  /** The steps run in the order projects, logs, metadata, members, reposQuery,
      reposTop; the run stops at the first failing check, keeping the samples already
      sent and returning that check's error; every request after the first names the id
      of the project listed. */
  lemma {:induction false} ScrapeStopsAtFirstFailure(api: Api)
    ensures Chained(Scrape(api), Urls(ListedProjectId(api)), Samples, Outcomes(api))
  {
    var id := ListedProjectId(api);
    var tail4 := Then(ReposQuery(id, api), ReposTop(api));
    ReposChained(id, api);
    MembersChained(id, api);
    ThenChained(ProjectMembers(id, api), MembersUrls(id), MembersSamples, MembersOutcomes(id, api),
                tail4, ReposUrls(id), ReposSamples, ReposOutcomes(id, api));
    var tail3 := Then(ProjectMembers(id, api), tail4);
    MetadataChained(id, api);
    ThenChained(ProjectMetadata(id, api), MetadataUrls(id), MetadataSamples, MetadataOutcomes(id, api),
                tail3, MembersUrls(id) + ReposUrls(id), MembersSamples + ReposSamples,
                MembersOutcomes(id, api) + ReposOutcomes(id, api));
    var tail2 := Then(ProjectMetadata(id, api), tail3);
    var logs := [Outcome(LogsUrl(id), api.logs, OneProject)];
    CheckChained(LogsUrl(id), api.logs, OneProject, LogsSample);
    ThenChained(ProjectLogs(id, api), [LogsUrl(id)], [LogsSample], logs,
                tail2, MetadataUrls(id) + (MembersUrls(id) + ReposUrls(id)), MetadataSamples + (MembersSamples + ReposSamples),
                MetadataOutcomes(id, api) + (MembersOutcomes(id, api) + ReposOutcomes(id, api)));
    var tail1 := Then(ProjectLogs(id, api), tail2);
    ListProjectsChained(api);
    ThenChained(ListProjects(api), ListUrls(id), ListSamples, ListOutcomes(api),
                tail1, [LogsUrl(id)] + (MetadataUrls(id) + (MembersUrls(id) + ReposUrls(id))),
                [LogsSample] + (MetadataSamples + (MembersSamples + ReposSamples)),
                logs + (MetadataOutcomes(id, api) + (MembersOutcomes(id, api) + ReposOutcomes(id, api))));
  }

  /** A failing listing ends the run with only the listing asked for and nothing sent. */
  lemma ListFailureStopsAll(api: Api)
    requires Outcome(ListUrl, api.list, OneProject).Some?
    ensures Scrape(api) == Fail([ListUrl], [], Outcome(ListUrl, api.list, OneProject).value)
  {
    ScrapeStopsAtFirstFailure(api);
    StopsAt(Scrape(api), Urls(ListedProjectId(api)), Samples, Outcomes(api), 0);
  }

  /** Full success sends exactly nine samples of value 1 and method "GET": seven on the
      projects metric and then two on the repos metric. */
  lemma FullSuccess(api: Api)
    requires Scrape(api).err.None?
    ensures Scrape(api).sent == Samples
    ensures Scrape(api).requested == Urls(ListedProjectId(api))
    ensures |Samples| == 9
    ensures forall i :: 0 <= i < 9 ==> Samples[i].value == 1.0 && |Samples[i].labels| == 2 && Samples[i].labels[1] == "GET"
    ensures forall i :: 0 <= i < 7 ==> Samples[i].name == ProjectsRefMetric
    ensures forall i :: 7 <= i < 9 ==> Samples[i].name == ReposRefMetric
  {
    ScrapeStopsAtFirstFailure(api);
  }

  lemma SampleMetrics()
    ensures forall s :: s in Samples ==> s.name == ProjectsRefMetric || s.name == ReposRefMetric
  {
  }

  /** Every sample the scraper sends is on the projects or the repos metric. */
  lemma SentOnOwnMetrics(api: Api)
    ensures forall s :: s in Scrape(api).sent ==> s.name == ProjectsRefMetric || s.name == ReposRefMetric
  {
    ScrapeStopsAtFirstFailure(api);
    SampleMetrics();
    var r := Scrape(api);
    assert forall s :: s in r.sent ==> s in Samples;
  }
}

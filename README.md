# harbor_exporter, modelled in Dafny

harbor_exporter is a Prometheus exporter for a Harbor container registry. On every
Prometheus scrape, `Collect` runs one scrape cycle:

- it counts the scrape and pings the Harbor API at `/configurations`;
- it runs every enabled scraper concurrently;
- it sends each scraper's samples and a duration sample per scraper;
- it then sends its own metrics: the scrape counter, the last-error gauge, the per-scraper error counters and the `harbor_up` gauge.

Six scrapers are "ref work" probes: logs, labels, gc, users, replication and projects. Each of them:

- GETs one or a few Harbor API endpoints;
- checks that the decoded JSON has the shape it expects;
- sends one `harbor_ref_work_*` sample per endpoint that passed;
- stops at the first request, decode or shape failure.

The other five report what Harbor returns:

- systeminfo sends one `harbor_version_info` sample, labelled with the registry URL, the project-creation restriction, self-registration and the version;
- statistics sends six samples: project counts (total, public, private) and repository counts (public, total, private);
- volumes sends three samples: total, free and used storage;
- health sends one sample per component listed;
- registries sends one sample per registry listed.

`main` declares one `collect.<name>` flag per registered scraper, selects the scrapers whose flag is on and builds the exporter with `New`. `New` validates the Harbor address and applies the HARBOR_USERNAME / HARBOR_PASSWORD overrides.

The model has one module per source file:

| module | file | models |
|---|---|---|
| `Harbor` | `harbor.dfy` | `request` and `Ping` |
| `Scraper` | `scraper.dfy` | the scraper result, the early-return chain `Then`, the single-endpoint step `Check` |
| one per scraper | `metrics_*.dfy` | that scraper's `Scrape` |
| `Registry` | `registry.dfy` | the `Scrapers` table and the `Name`/`Help` dispatch |
| `Exporter` | `exporter.dfy` | `New`, `Describe`, `NewMetrics` and the `Exporter` class with `Collect` and `scrape` |
| `Startup` | `main.dfy` | flag generation, scraper selection and the early exits of `main` |

How the model stands in for what it cannot see:

- **HTTP.** An HTTP exchange is a value `Reply<T>`: either no reply at all, or a status with a body. The body is unreadable, malformed JSON, or a decoded document of type `T`. The replies are inputs, one per request.
- **Requests.** Each scraper result records the endpoints it asked for, in order.
- **Concurrency.** The concurrent scrapers become a fold over the order in which they finish. That order is any arrangement of the enabled scrapers.
- **Go map iteration** (the `Scrapers` table, the error counter vector) is a loop that picks any remaining key.

Two behaviours of the code worth knowing:

- **`Describe`** declares four descriptors: scrapes total, last error, error counters, up. It declares neither the duration metric nor any scraper's metric.
- **The up gauge.** Lines 136-137 of collector/exporter.go set `harbor_up` to 0 and the error gauge to 1 on a failed ping; lines 139-140 then overwrite both (Findings, row 1).

## Model

| member | source | states |
|---|---|---|
| Text.ContainsIffOccurs | collector/exporter.go:55 | `strings.Contains` as modelled holds exactly when the substring occurs at some index |
| Text.Itoa | collector/metrics_users.go:79 | `strconv.Itoa` gives a non-empty string that starts with '-' exactly for negative numbers |
| Text.ItoaRoundTrip | collector/metrics_users.go:79 | `strconv.Atoi` reads back the number `strconv.Itoa` wrote, so distinct ids give distinct URLs |
| Harbor.Request | collector/harbor.go:71-100 | a request succeeds exactly when a reply arrives with status 200 and a readable body; no reply is a transport error, another status is a status error carrying the code |
| Harbor.Fetch | collector/harbor.go:71-100 | request plus JSON decoding: success exactly for status 200 with a decodable body, yielding that document; request errors pass through, a malformed body is a decode error |
| Harbor.Ping | collector/harbor.go:102-121 | pong is true exactly when the reply has status 200, and pong and "no error" coincide |
| Scraper.Check | collector/metrics_log.go:35-55 | one GET-decode-check step: asks for exactly its URL, succeeds iff the fetch succeeds and the document is accepted, sends its one sample only on success, reports the fetch error or "no data" for the URL |
| Scraper.CheckChained | collector/metrics_log.go:35-55 | a single step satisfies the stop-at-first-failure shape for its URL and sample |
| Scraper.ThenChained | collector/metrics_projects.go:54-79 | sequencing two chains with early return gives the chain of their steps in order: the first failing step of the concatenation decides where the run stops, what it asked for, what it sent and the error it returns |
| Scraper.FirstFailure | collector/metrics_projects.go:54-79 | the index of the first failing step: every step before it passed, and it failed unless it is past the end |
| Scraper.StopsAt | collector/metrics_projects.go:54-79 | in a chain, a step that fails after steps that all passed ends the run with the URLs up to it, the samples before it and its error |
| Scraper.FirstFailureAppend | collector/metrics_projects.go:54-79 | the first failure of two chains in sequence is the first one's, or else the second one's shifted by the first one's length |
| Logs.Scrape | collector/metrics_log.go:35-55 | GET /logs?page_size=1; success iff exactly one log with a non-zero id; then one `harbor_ref_work_logs{ref="/logs",method="GET"} 1`, else nothing |
| Labels.Scrape | collector/metrics_labels.go:35-55 | GET /labels?scope=g&pagesize=1; success iff exactly one label with a non-zero id; then one labels sample, else nothing |
| SystemGc.Scrape | collector/metrics_system_gc.go:35-55 | GET /system/gc; success iff exactly one entry with a non-zero id; then one gc sample, else nothing |
| SystemInfo.VersionLabel | collector/metrics_systeminfo.go:54-56 | the version label is the override when one is set, otherwise the version Harbor reports |
| SystemInfo.Scrape | collector/metrics_systeminfo.go:39-62 | GET /systeminfo; an empty registry URL is a "no data" error; otherwise one `harbor_version_info` sample with value 1 labelled with the registry URL, creation restriction, self-registration as "true"/"false", and the version |
| Volumes.Scrape | collector/metrics_systeminfo_volumes.go:37-65 | GET /systeminfo/volumes; a total of 0 is a "no data" error; otherwise three samples labelled total, free, used, with used = total - free |
| Volumes.UsedCanBeNegative | collector/metrics_systeminfo_volumes.go:60-62 | when free exceeds total the "used" sample is negative: nothing clamps it |
| Statistics.Scrape | collector/metrics_statistics.go:40-78 | GET /statistics; succeeds iff the fetch does; six samples in source order: projects total, public, private, then repos public, total, private |
| Health.StatusValue | collector/metrics_health.go:44-48 | a component's value is 1 exactly when its status is "healthy", 0 otherwise |
| Health.ComponentSamples | collector/metrics_health.go:44-51 | one sample per component, in order, labelled with its name and valued by its status |
| Health.Scrape | collector/metrics_health.go:32-54 | GET /health; succeeds iff the fetch does (an empty component list is a success with no samples); then exactly the component samples |
| Health.ScrapeHealth | collector/metrics_health.go:32-54 | the loop over the components computes `Health.Scrape`, with one sample per component |
| Health.EmptyComponentsSucceed | collector/metrics_health.go:44-53 | a healthy reply with no components is a success that sends nothing |
| Registries.StatusValue | collector/metrics_registries.go:56-60 | a registry's value is 0 exactly when its status is "unhealthy", 1 for any other status |
| Registries.RegistrySamples | collector/metrics_registries.go:55-63 | one sample per registry, in order, labelled with its name |
| Registries.Scrape | collector/metrics_registries.go:40-66 | GET /registries; an empty list is a "no data" error; otherwise one sample per registry |
| Registries.ScrapeRegistries | collector/metrics_registries.go:40-66 | the loop over the registries computes `Registries.Scrape` |
| Replication.Scrape | collector/metrics_replication.go:35-91 | policies, then the policy's executions, then adapters; succeeds iff every step's check passes |
| Replication.ScrapeStopsAtFirstFailure | collector/metrics_replication.go:35-91 | the run is the chain of three checks (one policy with a non-zero id; the execution of that policy id has a non-zero id; some adapter): it stops at the first check that fails, having asked for the URLs up to it and sent the samples of the checks before it, and returns that check's error; with no failure it asks for all three and sends all three |
| Replication.FullSuccess | collector/metrics_replication.go:35-91 | a successful run asked for all three URLs and sent all three samples |
| Replication.SentOnOwnMetrics | collector/metrics_replication.go:14-20 | every sample it sends is on `harbor_ref_work_replication` |
| Users.ListUsers | collector/metrics_users.go:58-97 | list one user, then fetch that user by id; succeeds iff exactly one user with a non-zero id is listed and the detail has a non-zero id |
| Users.UserCurrent | collector/metrics_users.go:99-123 | GET /users/current; succeeds iff the user has a non-zero id |
| Users.Scrape | collector/metrics_users.go:42-56 | a failure of the listing is returned as is; success iff both parts succeed |
| Users.ScrapeStopsAtFirstFailure | collector/metrics_users.go:42-123 | the run is the chain of three checks (one user with a non-zero id; the detail of that user_id is a known user; the current user is known): it stops at the first failing check, having asked for the URLs up to it and sent the samples before it, and returns that check's error |
| Users.ListFailureStopsAll | collector/metrics_users.go:44-73 | a listing that fails ends the run after that one request, with nothing sent and the listing's error |
| Users.FullSuccess | collector/metrics_users.go:42-123 | a successful run asked for all three URLs and sent all three samples |
| Users.SentOnOwnMetrics | collector/metrics_users.go:17-23 | every sample it sends is on `harbor_ref_work_users` |
| Projects.ListProjects | collector/metrics_projects.go:82-122 | list one project, then fetch it by id; succeeds iff exactly one project with a non-zero id is listed and the detail has a non-zero id |
| Projects.ProjectLogs | collector/metrics_projects.go:125-145 | succeeds iff exactly one log entry with a non-zero project id |
| Projects.DecodePublic | collector/metrics_projects.go:36-38 | decoding into an existing struct: a document with `public` sets it, one without leaves the earlier value |
| Projects.ProjectMetadata | collector/metrics_projects.go:147-184 | as written: succeeds iff the first document has a non-empty `public` and the second, decoded over the first, does |
| Projects.ProjectMembers | collector/metrics_projects.go:187-228 | succeeds iff the member list is non-empty with a non-zero first id and member <id>/<id> has a non-zero id |
| Projects.ReposQuery | collector/metrics_projects.go:236-256 | succeeds iff exactly one repository with a non-empty name |
| Projects.ReposTop | collector/metrics_projects.go:286-306 | succeeds iff exactly one top repository with a non-empty name |
| Projects.Scrape | collector/metrics_projects.go:54-79 | success iff every one of the six steps succeeds (where each run stops is stated by Projects.ScrapeStopsAtFirstFailure) |
| Projects.ListProjectsChained | collector/metrics_projects.go:82-122 | the list/detail step stops at its first failure |
| Projects.MetadataChained | collector/metrics_projects.go:147-184 | the two metadata requests stop at the first failure |
| Projects.MembersChained | collector/metrics_projects.go:187-228 | the two member requests stop at the first failure |
| Projects.ReposChained | collector/metrics_projects.go:236-306 | the repository query then the top list stop at the first failure |
| Projects.ScrapeStopsAtFirstFailure | collector/metrics_projects.go:54-79 | the run is the chain of the nine checks of the six steps, in order, each URL carrying the listed project's id: it stops at the first failing check, having asked for the URLs up to it and sent the samples of the checks before it, and returns that check's error |
| Projects.ListFailureStopsAll | collector/metrics_projects.go:54-96 | a listing that fails ends the run after that one request, with nothing sent and the listing's error |
| Projects.FullSuccess | collector/metrics_projects.go:54-306 | a successful run asked for all nine URLs and sent nine samples of value 1 with method GET: seven on the projects metric, two on the repos metric |
| Projects.SampleMetrics | collector/metrics_projects.go:18-30 | every sample of the scraper is on one of its two metrics |
| Projects.SentOnOwnMetrics | collector/metrics_projects.go:18-30 | every sample a run sends is on the projects or the repos metric |
| Registry.DefaultEnablement | collector/harbor.go:13-24 | the table has nine entries, all but registries and labels; every one is enabled by default except replication |
| Registry.KindNamed | collector/scraper.go:10-12 | looking a scraper up by name finds one with that name |
| Registry.NameRoundTrip | collector/scraper.go:10-12 | `Name` dispatches each kind to its own name, and every scraper is found again by its name |
| Registry.NamesDistinct | collector/scraper.go:10-12 | scraper names are unique |
| Registry.RunScraperMetrics | collector/exporter.go:151-153 | `RunScraper` dispatches each kind to its own scraper: whichever runs, it sends samples only on its own metrics |
| Exporter.Normalize | collector/exporter.go:54-57 | the validated address always contains "://": an address with it is kept, one without gets "http://" in front |
| Exporter.WithEnvCredentials | collector/exporter.go:80-88 | only the password changes: HARBOR_PASSWORD wins when set, otherwise HARBOR_USERNAME when set, otherwise it is unchanged |
| Exporter.New | collector/exporter.go:53-107 | success iff the normalised address parses with a non-empty host and an http/https scheme and the system cert pool loads; an unparsable address, an invalid one and a missing cert pool each give their own error, checked in that order; the client keeps the address as given |
| Exporter.Describe | collector/exporter.go:109-114 | four descriptors with distinct names (scrapes total, last error, error counters, up), none of them the duration metric |
| Exporter.NewMetrics | collector/exporter.go:172-199 | a new exporter starts with the scrape counter, the error gauge and `up` at 0 and no error counter child |
| Exporter.AfterPing | collector/exporter.go:131-140 | as written: after the ping `up` is 1 and the error gauge 0 whatever the ping returned; the counters are unchanged |
| Exporter.FoldRun | collector/exporter.go:151-157 | one finished scraper: a failure adds one to its own label's error counter (creating it) and sets the error gauge to 1; a success changes nothing |
| Exporter.RunSamples | collector/exporter.go:142-158 | what the goroutines send is exactly each run's samples and each run's duration sample, nothing else |
| Exporter.FoldRunsEffect | collector/exporter.go:149-157 | folding the finished scrapers (`FoldRuns`): each failed scraper adds one to its own label's error counter and sets the error gauge to 1; nothing else changes |
| Exporter.CycleEffect | collector/exporter.go:126-161 | after a cycle (`CycleMetrics`) the scrape counter is one higher, `up` reads 1, the error gauge is 1 exactly when a scraper failed, and every counter grows by its label's failures |
| Exporter.CountersNeverDecrease | collector/exporter.go:127-155 | the scrape counter increases and no error counter decreases or disappears |
| Exporter.FailCountByKind | collector/exporter.go:151-155 | a label's failures in a cycle are the number of runs of the scraper of that name when it failed, and 0 for any other label |
| Exporter.CycleOrderIndependent | collector/exporter.go:144-160 | the metrics after a cycle are the same for any order in which the goroutines finish |
| Exporter.OneDurationPerScraper | collector/exporter.go:142-158 | what a cycle sends (`CycleSamples`) holds one duration sample labelled "reach" and, per scraper, one per run, whether it failed or not |
| Exporter.CycleByKind | collector/exporter.go:126-161 | the cycle stated per scraper: error gauge 1 iff an enabled scraper failed, counters grow by failing scrapers' multiplicity, and the duration samples are counted as above |
| Exporter.ExposeErrorCounters | collector/exporter.go:122 | every error counter child is sent exactly once with its value, in no fixed order |
| Exporter.Exporter.constructor | collector/exporter.go:102-106 | the exporter holds the client, metrics and scrapers `New` built |
| Exporter.Exporter.RecordRuns | collector/exporter.go:149-159 | folding the finished scrapers updates the metrics as `FoldRuns` and sends each run's samples then its duration |
| Exporter.Exporter.Scrape | collector/exporter.go:126-161 | the new metrics and the samples sent are those of the cycle functions; `up` is 1, the error gauge is 1 iff an enabled scraper failed, counters and duration samples per scraper as in `CycleByKind` |
| Exporter.Exporter.Collect | collector/exporter.go:117-124 | the cycle's samples, then the scrape counter, the error gauge, the error counters and `up` as they stand after the cycle |
| Startup.FlagNamesDistinct | main.go:59 | different scrapers get different `collect.<name>` flags |
| Startup.GenerateScraperFlags | main.go:53-61 | one flag per registry entry, named `collect.<name>`, with the registry default and the scraper's help; no two share a name |
| Startup.SelectEnabled | main.go:76-82 | the enabled list holds exactly the scrapers whose flag is on, each once |
| Startup.FlagValue | main.go:63-82 | a scraper flag reads the value given on the command line, and its default when none is given |
| Startup.DefaultSelection | main.go:54-82 | without scraper flags on the command line, every scraper but replication, registries and labels is enabled |
| Startup.CommandLineDecides | main.go:59-63 | a value given on the command line decides a scraper's flag, whatever its default |
| Startup.Start | main.go:40-89 | --version returns before the exporter is built; a logging set-up failure is fatal; an error from `New` is fatal with exactly that error; otherwise serving with `New`'s exporter over exactly the flagged scrapers, each once |
| Exporter.PingFailureReportsUp | collector/exporter.go:131-140 | as written, a cycle whose ping got no reply leaves `up` at 1 and the error gauge at 0 |
| Exporter.IntendedCycleEffect | collector/exporter.go:131-140 | with the intended ping handling `up` is 1 iff the ping succeeded, and the error gauge is 1 iff the ping or a scraper failed |
| Exporter.SchemelessAddressKept | collector/harbor.go:102-103 | as written, "harbor.local" passes `New`, yet the ping URL the client builds has no scheme |
| Exporter.NewNormalized | collector/exporter.go:53-107 | `New` storing the validated address: the same outcome, and every request URL contains "://" |
| Exporter.UsernameVariableSetsPassword | collector/exporter.go:80-83 | as written, HARBOR_USERNAME alone replaces the password and leaves the username |
| Exporter.IntendedEnvCredentials | collector/exporter.go:80-88 | each variable, when set, replaces its own field and nothing else |
| Exporter.CredentialOverridesAgree | collector/exporter.go:80-88 | the written and the intended overrides agree exactly when HARBOR_USERNAME is unset, or it equals the username and HARBOR_PASSWORD is set or the password equals it too |
| Projects.MetadataSecondCheckSeesFirstPublic | collector/metrics_projects.go:166-178 | as written, a second metadata document without `public` passes when the first had a non-empty one |
| Projects.ProjectMetadataIntended | collector/metrics_projects.go:147-184 | with a fresh struct per document, success iff both documents carry a non-empty `public`; the two checks form a chain that stops at the first one that fails |

## Left out

- HTTP and TLS are not modelled: the transport, timeouts, basic auth, User-Agent and Content-Type headers, and the minimum TLS version. A request's outcome is an input `Reply`.
- `InsecureSkipVerify` and the certificate pool are not modelled, except that pool loading can fail.
- JSON decoding is abstract: a body is unreadable, malformed or a decoded document. Go's rules for missing fields, zero values and type mismatches are not reproduced, except that a missing `public` keeps the earlier value (finding 4).
- `url.Parse` is a parameter of `New`; `os.Getenv` is a map; `x509.SystemCertPool` is a boolean.
- Concurrency is not modelled: no goroutines, wait group or data races. In particular, the unsynchronised `Error.Set(1)` in concurrent goroutines is treated as if the writes were serialised. Any completion order is allowed, and the interleaving of samples from different goroutines on the channel is not: each run's samples and its duration are sent together.
- Time and durations are inputs (`reach`, `elapsed`); floating-point values are `real`.
- Error messages are not modelled: failures are a small datatype, and every "cannot find data" error, including the `fmt.Errorf` of the first metadata check, is `NoData(url)`.
- Logging, `LogInit`'s level parsing and file opening (a boolean outcome), `versionPrint`, the HTTP handlers and server, `prometheus.MustRegister`, and SIGUSR1/`DumpStacks` are not modelled.
- The flag library is not modelled beyond the scraper flags. `HarborOpts.AddFlag` and the other flags of `main` arrive as parsed values.
- `HarborVersion` is the package variable set from --override-version. It is passed to the system-info scraper as a parameter.
- The commented-out repository scraper and tag code in metrics_projects.go is not modelled.
- `New` takes `opts` by pointer, so the caller's options see the password override. The model returns a new value and does not capture that aliasing.
- `Health.Scrape` ignores the overall `status` field, as the source does.
- Registries.StatusValue compares with `strings.Compare`. The model uses string equality, which is the same test.
- Exporter.Exporter.Scrape computes the scrapers' results in one step (`Runs`) and then folds them in completion order. The per-goroutine timing is not modelled.

## Findings

| source | as written | input that shows it | evidently intended | confidence | as-written member | corrected member |
|---|---|---|---|---|---|---|
| collector/exporter.go:131-140 | after the ping, `HarborUp.Set(1)` and `Error.Set(0)` run unconditionally, overwriting the failure branch | a ping with no reply and all scrapers succeeding: `up` = 1, error = 0 | `up` = 0 and error = 1 when the ping fails | high, not executed | Exporter.PingFailureReportsUp | Exporter.IntendedCycleEffect |
| collector/harbor.go:72, 103 with collector/exporter.go:54-57 | `New` validates "http://"+address, but `request` and `Ping` build URLs from the raw address | address "harbor.local": `New` succeeds, and the ping URL "harbor.local/configurations" has no scheme, which Go's HTTP client rejects | the client uses the normalised address | high, not executed | Exporter.SchemelessAddressKept | Exporter.NewNormalized |
| collector/exporter.go:80-83 | a non-empty HARBOR_USERNAME is assigned to the password | HARBOR_USERNAME=bob, HARBOR_PASSWORD unset: the password becomes "bob" and the username is unchanged | HARBOR_USERNAME sets the username | high, not executed | Exporter.UsernameVariableSetsPassword | Exporter.IntendedEnvCredentials |
| collector/metrics_projects.go:166-178 | the second metadata response is decoded into the struct that already holds the first response's `public` | first document `{"public":"true"}`, second `{}`: the second check passes | each response checked on its own | medium, not executed | Projects.MetadataSecondCheckSeesFirstPublic | Projects.ProjectMetadataIntended |

The model's exporter, scrapers and start-up keep the behaviour as written. The corrected definitions sit beside them with their properties proved.

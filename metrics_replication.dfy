/** `ScrapeReplication` (collector/metrics_replication.go). */
module Replication {
  import opened Wrappers
  import opened Prom
  import opened Text
  import opened Harbor
  import opened Scraper

  const Name := "replication"
  const Help := "Collect the replication ref work"
  const ReplicationRefMetric := "harbor_ref_work_replication"
  const PoliciesUrl := "/replication/policies?page_size=1"
  const AdaptersUrl := "/replication/adapters"

  /** The executions response is decoded as one object, not a list. */
  datatype Api = Api(policies: Reply<seq<IdJson>>, executions: Reply<IdJson>, adapters: Reply<seq<string>>)

  function ExecutionsUrl(policyId: int): string
  {
    "/replication/executions?page=1&page_size=1&policy_id=" + Itoa(policyId)
  }

  /** The id of the first policy listed (0 when the list cannot be fetched or is empty). */
  function PolicyId(api: Api): int
  {
    match Fetch(api.policies)
    case Ok(data) => if |data| > 0 then data[0].id else 0
    case Err(_) => 0
  }

  function Urls(policyId: int): seq<string>
  {
    [PoliciesUrl, ExecutionsUrl(policyId), AdaptersUrl]
  }

  const Samples := [RefSample(ReplicationRefMetric, "/replication/policies"),
                    RefSample(ReplicationRefMetric, "/replication/executions"),
                    RefSample(ReplicationRefMetric, "/replication/adapters")]

  predicate OnePolicy(data: seq<IdJson>)
  {
    |data| == 1 && data[0].id != 0
  }

  predicate KnownExecution(e: IdJson)
  {
    e.id != 0
  }

  predicate SomeAdapter(data: seq<string>)
  {
    |data| > 0
  }

  /** What each of the three checks returns, in the order they run. */
  function Outcomes(api: Api): seq<Option<Failure>>
  {
    [Outcome(PoliciesUrl, api.policies, OnePolicy),
     Outcome(ExecutionsUrl(PolicyId(api)), api.executions, KnownExecution),
     Outcome(AdaptersUrl, api.adapters, SomeAdapter)]
  }

  function Scrape(api: Api): (r: ScrapeResult)
    ensures r.err.None? <==>
      && Fetch(api.policies).Ok? && OnePolicy(Fetch(api.policies).value)
      && Fetch(api.executions).Ok? && Fetch(api.executions).value.id != 0
      && Fetch(api.adapters).Ok? && SomeAdapter(Fetch(api.adapters).value)
  {
    var policies := Check(PoliciesUrl, api.policies, OnePolicy, Samples[0]);
    var executions := Check(ExecutionsUrl(PolicyId(api)), api.executions, KnownExecution, Samples[1]);
    var adapters := Check(AdaptersUrl, api.adapters, SomeAdapter, Samples[2]);
    Then(policies, Then(executions, adapters))
  }

  /** Policies, executions and adapters are checked in that order; the run stops at the
      first failing check, keeping the samples already sent and returning that check's
      error, and the executions request carries the id of the one policy listed. */
  lemma {:induction false} ScrapeStopsAtFirstFailure(api: Api)
    ensures Chained(Scrape(api), Urls(PolicyId(api)), Samples, Outcomes(api))
  {
    var id := PolicyId(api);
    var o := Outcomes(api);
    CheckChained(PoliciesUrl, api.policies, OnePolicy, Samples[0]);
    CheckChained(ExecutionsUrl(id), api.executions, KnownExecution, Samples[1]);
    CheckChained(AdaptersUrl, api.adapters, SomeAdapter, Samples[2]);
    var policies := Check(PoliciesUrl, api.policies, OnePolicy, Samples[0]);
    var executions := Check(ExecutionsUrl(id), api.executions, KnownExecution, Samples[1]);
    var adapters := Check(AdaptersUrl, api.adapters, SomeAdapter, Samples[2]);
    ThenChained(executions, [ExecutionsUrl(id)], [Samples[1]], [o[1]], adapters, [AdaptersUrl], [Samples[2]], [o[2]]);
    ThenChained(policies, [PoliciesUrl], [Samples[0]], [o[0]],
                Then(executions, adapters), [ExecutionsUrl(id), AdaptersUrl], [Samples[1], Samples[2]], [o[1], o[2]]);
    assert [PoliciesUrl] + [ExecutionsUrl(id), AdaptersUrl] == Urls(id);
    assert [Samples[0]] + [Samples[1], Samples[2]] == Samples;
    assert [o[0]] + [o[1], o[2]] == o;
  }

  /** Full success sends exactly the three reference samples, in order. */
  lemma FullSuccess(api: Api)
    requires Scrape(api).err.None?
    ensures Scrape(api).sent == Samples
    ensures Scrape(api).requested == Urls(PolicyId(api))
  {
    ScrapeStopsAtFirstFailure(api);
  }

  /** Every sample the scraper sends is on the replication metric. */
  lemma SentOnOwnMetrics(api: Api)
    ensures forall s :: s in Scrape(api).sent ==> s.name == ReplicationRefMetric
  {
    ScrapeStopsAtFirstFailure(api);
    var r := Scrape(api);
    assert forall s :: s in r.sent ==> s in Samples;
  }
}

/** `ScrapeUsers` (collector/metrics_users.go). */
module Users {
  import opened Wrappers
  import opened Prom
  import opened Text
  import opened Harbor
  import opened Scraper

  const Name := "users"
  const Help := "Collect the users api work, user have admin role"
  const UsersRefMetric := "harbor_ref_work_users"
  const ListUrl := "/users?page_size=1"
  const CurrentUrl := "/users/current"

  datatype UserJson = UserJson(userId: int)

  datatype Api = Api(list: Reply<seq<UserJson>>, detail: Reply<UserJson>, current: Reply<UserJson>)

  /** The user_id of the first user listed (0 when the list cannot be fetched or is empty). */
  function ListedUserId(api: Api): int
  {
    match Fetch(api.list)
    case Ok(data) => if |data| > 0 then data[0].userId else 0
    case Err(_) => 0
  }

  function DetailUrl(userId: int): string
  {
    "/users/" + Itoa(userId)
  }

  predicate OneUser(data: seq<UserJson>)
  {
    |data| == 1 && data[0].userId != 0
  }

  predicate KnownUser(u: UserJson)
  {
    u.userId != 0
  }

  function Urls(userId: int): seq<string>
  {
    [ListUrl, DetailUrl(userId), CurrentUrl]
  }

  const Samples := [RefSample(UsersRefMetric, "/users"),
                    RefSample(UsersRefMetric, "/users/{user_id}"),
                    RefSample(UsersRefMetric, CurrentUrl)]

  /** `users`: list one user, then fetch that user by id. */
  function ListUsers(api: Api): (r: ScrapeResult)
    ensures r.err.None? <==>
      Fetch(api.list).Ok? && OneUser(Fetch(api.list).value) && Fetch(api.detail).Ok? && KnownUser(Fetch(api.detail).value)
  {
    Then(Check(ListUrl, api.list, OneUser, Samples[0]),
         Check(DetailUrl(ListedUserId(api)), api.detail, KnownUser, Samples[1]))
  }

  /** `userCurrent`: the user behind the credentials must have a non-zero user_id. */
  function UserCurrent(api: Api): (r: ScrapeResult)
    ensures r.err.None? <==> Fetch(api.current).Ok? && KnownUser(Fetch(api.current).value)
  {
    Check(CurrentUrl, api.current, KnownUser, Samples[2])
  }

  function Scrape(api: Api): (r: ScrapeResult)
    ensures ListUsers(api).err.Some? ==> r == ListUsers(api)
    ensures r.err.None? <==> ListUsers(api).err.None? && UserCurrent(api).err.None?
  {
    Then(ListUsers(api), UserCurrent(api))
  }

  /** What each of the three checks returns, in the order they run. */
  function Outcomes(api: Api): seq<Option<Failure>>
  {
    [Outcome(ListUrl, api.list, OneUser),
     Outcome(DetailUrl(ListedUserId(api)), api.detail, KnownUser),
     Outcome(CurrentUrl, api.current, KnownUser)]
  }

  /** `users` runs before `userCurrent` and a failure in it keeps `userCurrent` from
      running; the run stops at the first failing check, keeping the samples already
      sent and returning that check's error, and the detail request names the user_id
      of the user listed. */
  lemma {:induction false} ScrapeStopsAtFirstFailure(api: Api)
    ensures Chained(Scrape(api), Urls(ListedUserId(api)), Samples, Outcomes(api))
  {
    var id := ListedUserId(api);
    var o := Outcomes(api);
    CheckChained(ListUrl, api.list, OneUser, Samples[0]);
    CheckChained(DetailUrl(id), api.detail, KnownUser, Samples[1]);
    CheckChained(CurrentUrl, api.current, KnownUser, Samples[2]);
    var list := Check(ListUrl, api.list, OneUser, Samples[0]);
    var detail := Check(DetailUrl(id), api.detail, KnownUser, Samples[1]);
    ThenChained(list, [ListUrl], [Samples[0]], [o[0]], detail, [DetailUrl(id)], [Samples[1]], [o[1]]);
    ThenChained(ListUsers(api), [ListUrl, DetailUrl(id)], [Samples[0], Samples[1]], [o[0], o[1]],
                UserCurrent(api), [CurrentUrl], [Samples[2]], [o[2]]);
    assert [ListUrl, DetailUrl(id)] + [CurrentUrl] == Urls(id);
    assert [Samples[0], Samples[1]] + [Samples[2]] == Samples;
    assert [o[0], o[1]] + [o[2]] == o;
  }

  /** A listing that cannot be fetched or does not hold exactly one known user ends the
      run before any other request, with nothing sent. */
  lemma ListFailureStopsAll(api: Api)
    requires Outcome(ListUrl, api.list, OneUser).Some?
    ensures Scrape(api) == Fail([ListUrl], [], Outcome(ListUrl, api.list, OneUser).value)
  {
    ScrapeStopsAtFirstFailure(api);
    StopsAt(Scrape(api), Urls(ListedUserId(api)), Samples, Outcomes(api), 0);
  }

  /** Full success sends the three samples with refs "/users", "/users/{user_id}" and
      "/users/current", in that order. */
  lemma FullSuccess(api: Api)
    requires Scrape(api).err.None?
    ensures Scrape(api).sent == Samples
    ensures Scrape(api).requested == Urls(ListedUserId(api))
  {
    ScrapeStopsAtFirstFailure(api);
  }

  /** Every sample the scraper sends is on the users metric. */
  lemma SentOnOwnMetrics(api: Api)
    ensures forall s :: s in Scrape(api).sent ==> s.name == UsersRefMetric
  {
    ScrapeStopsAtFirstFailure(api);
    var r := Scrape(api);
    assert forall s :: s in r.sent ==> s in Samples;
  }
}

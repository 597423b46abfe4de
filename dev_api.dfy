/** The development server's stand-ins for the API routes: tracking does nothing, the
    dashboard reads the first 50 recent visitors straight from the store, and publishing
    commits the post as the deployed endpoint does, with a JSON check in place of the slug
    check. */
module DevApi {
  import opened Wrappers
  import opened Http
  import opened Text
  import opened Counts
  import opened KvStore
  import opened Access
  import opened Visits
  import opened Visitors
  import opened BlogCreate

  // ---------------------------------------------------------------------------
  // tracking

  datatype DevTrackAnswer = DevTracked(success: bool, dev: bool)

  /** Any request to the tracking route succeeds; no store is involved. */
  function DevTrack(httpMethod: string): (r: Response<DevTrackAnswer>)
    ensures r.status == 200 && r.body.success && r.body.dev
  {
    Response(200, DevTracked(true, true))
  }

  // ---------------------------------------------------------------------------
  // the dashboard

  /** Only the Vercel KV names are read. */
  predicate DevStoreConfigured(env: StoreEnv) {
    Truthy(env.kvUrl) && Truthy(env.kvToken)
  }

  /** A store the development server uses is one the deployed endpoint uses too; a store
      set up under the Upstash names only is not seen by the development server. */
  lemma DevStoreIsStore(env: StoreEnv)
    ensures DevStoreConfigured(env) ==> StoreConfigured(env)
    ensures !Truthy(env.kvUrl) && Truthy(env.upstashUrl) && Truthy(env.upstashToken) ==>
              StoreConfigured(env) && !DevStoreConfigured(env)
  {
  }

  /** The request range `0 .. 49`. */
  const DevLast: int := 49

  /** The ids read: the first 50 of the recent list, or none when the answer has no
      `result`. */
  function DevIds(recent: seq<string>, hasResult: bool): (r: seq<string>)
    ensures |r| <= 50
  {
    if hasResult then Range(recent, 0, DevLast) else []
  }

  /** The range is the default page of the deployed endpoint: the 50 newest ids. */
  lemma DevIdsDefaultPage(recent: seq<string>)
    ensures DevIds(recent, true) == Take(recent, 50)
    ensures DevIds(recent, true) == Page(recent, PageOffset(None), PageLimit(None))
  {
    RangeFromHead(recent, 49);
    PageLimitDefault();
    PageOffsetDecimal(0);
  }

  /** The statistics: the total is the number of records, without offset, and there are no
      referrer counts. */
  function DevStatsOf(vs: seq<VisitorRecord>, today: int): Stats {
    Stats(|vs|, today, Distinct(CompanyKeys(vs)), Some(Tally(CompanyKeys(vs))), Some(Tally(CountryKeys(vs))), None)
  }

  /** The statistics agree with the deployed endpoint's at offset 0, but for the referrer
      counts. */
  lemma DevStatsAgree(vs: seq<VisitorRecord>, today: int, hostOf: string -> Option<string>)
    ensures DevStatsOf(vs, today) == StatsOf(vs, 0, today, hostOf).(referrerCounts := None)
  {
  }

  /** The country counts add up to the total, and the number of distinct companies is the
      number of company keys. */
  lemma DevStatsAddUp(vs: seq<VisitorRecord>, today: int)
    ensures var s := DevStatsOf(vs, today);
            s.countryCounts.Some? && Sum(s.countryCounts.value) == s.total
            && s.companyCounts.Some? && s.uniqueCompanies == |s.companyCounts.value.Keys|
  {
    CountsAddUp(vs, a => None);
    UniqueCompaniesAreKeys(vs);
  }

  /** The one `forEach` that counts companies and countries together. */
  method CountBoth(vs: seq<VisitorRecord>) returns (companyCounts: map<string, nat>, countryCounts: map<string, nat>)
    ensures companyCounts == Tally(CompanyKeys(vs))
    ensures countryCounts == Tally(CountryKeys(vs))
  {
    companyCounts, countryCounts := map[], map[];
    var i := 0;
    while i < |vs|
      invariant 0 <= i <= |vs|
      invariant companyCounts == Tally(CompanyKeys(vs[..i]))
      invariant countryCounts == Tally(CountryKeys(vs[..i]))
    {
      var v := vs[i];
      CompanyStep(vs, i);
      if Truthy(v.company) {
        companyCounts := Bump(companyCounts, v.company.value);
      }
      var country := OrDefault(v.country, "Unknown");
      CountryStep(vs, i);
      countryCounts := Bump(countryCounts, country);
      i := i + 1;
    }
    assert vs[..|vs|] == vs;
  }

  /** The records of the listed ids and their statistics, after the request for the day's
      counter; `todayThrows` is that request or the reading of its answer throwing, and
      `todayOk` whether the store answered it with `ok`, which is not looked at. */
  method DevListPage(store: Store, ids: seq<string>, getFails: string -> bool,
                     parse: string -> Option<VisitorRecord>, dayIso: string, todayThrows: bool,
                     todayOk: bool)
    returns (resp: Response<VisitorsAnswer>)
    ensures todayThrows ==> resp == Response(500, VisitorsFailure("Failed to fetch analytics"))
    ensures !todayThrows ==>
              var vs := Collected(store.strings, getFails, parse, ids);
              resp == Response(200, Listing(vs, DevStatsOf(vs, TodayShown(store.State(), Day(dayIso), todayOk))))
  {
    var visitors := Collect(store, getFails, parse, ids);
    var today := Day(dayIso);
    var counter := store.GetCounter(DayKey(today));
    var todayResult := if todayOk then counter else None;
    if todayThrows {
      return Response(500, VisitorsFailure("Failed to fetch analytics"));
    }
    TodayIsCounter(store.State(), today);
    var companyCounts, countryCounts := CountBoth(visitors);
    resp := Response(200, Listing(visitors, Stats(|visitors|, TodayCount(todayResult), Distinct(CompanyKeys(visitors)),
                                                  Some(companyCounts), Some(countryCounts), None)));
  }

  /** The dashboard route. The query is not read. `listThrows` is the list answer failing to
      parse as JSON, `listHasResult` whether it carries a `result`, `todayThrows` the
      request for the day's counter failing and `todayOk` the store answering it with `ok`. */
  method DevVisitors(store: Store, req: VisitorsRequest, password: Option<string>, env: StoreEnv,
                     listThrows: bool, listHasResult: bool, getFails: string -> bool,
                     parse: string -> Option<VisitorRecord>, dayIso: string, todayThrows: bool,
                     todayOk: bool)
    returns (resp: Response<VisitorsAnswer>)
    ensures req.httpMethod != "GET" ==> resp == Response(405, VisitorsFailure("Method not allowed"))
    ensures req.httpMethod == "GET" && !Authorized(req.authorization, password) ==>
              resp == Response(401, VisitorsFailure("Unauthorized"))
    ensures req.httpMethod == "GET" && Authorized(req.authorization, password) && !DevStoreConfigured(env) ==>
              resp == Response(200, Unconfigured)
    ensures req.httpMethod == "GET" && Authorized(req.authorization, password) && DevStoreConfigured(env) && listThrows ==>
              resp == Response(500, VisitorsFailure("Failed to fetch analytics"))
    ensures req.httpMethod == "GET" && Authorized(req.authorization, password) && DevStoreConfigured(env) && !listThrows
            && todayThrows ==>
              resp == Response(500, VisitorsFailure("Failed to fetch analytics"))
    ensures req.httpMethod == "GET" && Authorized(req.authorization, password) && DevStoreConfigured(env) && !listThrows
            && !todayThrows ==>
              var vs := Collected(store.strings, getFails, parse, DevIds(store.State().List(RecentKey), listHasResult));
              resp == Response(200, Listing(vs, DevStatsOf(vs, TodayShown(store.State(), Day(dayIso), todayOk))))
  {
    if req.httpMethod != "GET" {
      return Response(405, VisitorsFailure("Method not allowed"));
    }
    if !Authorized(req.authorization, password) {
      return Response(401, VisitorsFailure("Unauthorized"));
    }
    if !DevStoreConfigured(env) {
      return Response(200, Unconfigured);
    }
    var listed := store.LRange(RecentKey, 0, DevLast);
    if listThrows {
      return Response(500, VisitorsFailure("Failed to fetch analytics"));
    }
    var visitorIds := if listHasResult then listed else [];
    resp := DevListPage(store, visitorIds, getFails, parse, dayIso, todayThrows, todayOk);
  }

  // ---------------------------------------------------------------------------
  // publishing

  /** The request body as `JSON.parse` reads it: not JSON, `null`, or an object. */
  datatype JsonBody = InvalidJson | NullJson | JsonFields(fields: CreateBody)

  datatype DevCreateRequest = DevCreateRequest(httpMethod: string, authorization: Option<string>, body: JsonBody)

  /** A request that reaches the commit. */
  predicate DevAccepted(req: DevCreateRequest, password: Option<string>, env: GitHubEnv) {
    req.httpMethod == "POST" && Authorized(req.authorization, password) &&
    Truthy(env.token) && Truthy(env.repo) && req.body.JsonFields? && HasRequiredFields(req.body.fields)
  }

  /** The early answers, in the order they are checked; `None` when every check passes. A
      `null` body makes the destructuring throw. */
  function DevRejection(req: DevCreateRequest, password: Option<string>, env: GitHubEnv)
    : (r: Option<Response<CreateAnswer>>)
    ensures r.None? <==> DevAccepted(req, password, env)
    ensures r.Some? ==> r.value.status in {400, 401, 405, 500}
  {
    if req.httpMethod != "POST" then Some(Response(405, CreateFailure("Method not allowed")))
    else if !Authorized(req.authorization, password) then Some(Response(401, CreateFailure("Unauthorized")))
    else if !Truthy(env.token) || !Truthy(env.repo) then
      Some(Response(500, CreateFailure("GitHub integration not configured. Set GITHUB_TOKEN and GITHUB_REPO in .env")))
    else if req.body.InvalidJson? then Some(Response(400, CreateFailure("Invalid JSON body")))
    else if req.body.NullJson? then Some(Response(500, Crashed))
    else if !HasRequiredFields(req.body.fields) then
      Some(Response(400, CreateFailure("Missing required fields: title, slug, description, content")))
    else None
  }

  /** The publishing route: the answer and the commit it requests, if any. */
  function DevCreate(req: DevCreateRequest, password: Option<string>, env: GitHubEnv, dayIso: string,
                     put: PutOutcome): (r: (Response<CreateAnswer>, Option<Commit>))
    ensures r.1.Some? <==> DevRejection(req, password, env).None?
    ensures r.1.None? ==> r.0 == DevRejection(req, password, env).value
  {
    match DevRejection(req, password, env)
    case Some(early) => (early, None)
    case None =>
      var b := req.body.fields;
      (Published(b.slug.value, put), Some(CommitOf(b, dayIso)))
  }

  /** A body that is not JSON is refused before its fields are looked at. */
  lemma InvalidJsonFirst(req: DevCreateRequest, password: Option<string>, env: GitHubEnv, dayIso: string,
                         put: PutOutcome)
    requires req.httpMethod == "POST" && Authorized(req.authorization, password)
    requires Truthy(env.token) && Truthy(env.repo) && req.body.InvalidJson?
    ensures DevCreate(req, password, env, dayIso, put) == (Response(400, CreateFailure("Invalid JSON body")), None)
  {
  }

  /** With a well-formed slug the development route writes the same file, with the same
      commit message, and answers the same as the deployed endpoint. */
  lemma DevCreateAgrees(req: DevCreateRequest, password: Option<string>, env: GitHubEnv, dayIso: string,
                        put: PutOutcome)
    requires req.body.JsonFields? && HasRequiredFields(req.body.fields) && IsSlug(req.body.fields.slug.value)
    requires req.httpMethod == "POST" && Authorized(req.authorization, password)
    requires Truthy(env.token) && Truthy(env.repo)
    ensures DevCreate(req, password, env, dayIso, put) ==
              BlogCreate.Handle(CreateRequest(req.httpMethod, req.authorization, Some(req.body.fields)), password, env, dayIso, put)
  {
  }

  /** The slug is not checked: any slug with the other fields present is committed at its
      path, where the deployed endpoint refuses an ill-formed one. */
  lemma DevSkipsSlugCheck(req: DevCreateRequest, password: Option<string>, env: GitHubEnv, dayIso: string,
                          put: PutOutcome)
    requires req.body.JsonFields? && HasRequiredFields(req.body.fields) && !IsSlug(req.body.fields.slug.value)
    requires req.httpMethod == "POST" && Authorized(req.authorization, password)
    requires Truthy(env.token) && Truthy(env.repo)
    ensures var c := DevCreate(req, password, env, dayIso, put).1;
            c.Some? && c.value.path == FilePath(req.body.fields.slug.value)
    ensures BlogCreate.Handle(CreateRequest(req.httpMethod, req.authorization, Some(req.body.fields)), password, env, dayIso, put).0.status == 400
  {
  }
}

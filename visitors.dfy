/** The dashboard endpoint: after the password check it reads one page of the recent-visitor
    list, fetches each record, and counts the records by company, country and referrer. */
module Visitors {
  import opened Wrappers
  import opened Http
  import opened Text
  import opened Counts
  import opened KvStore
  import opened Access
  import opened Visits

  // ---------------------------------------------------------------------------
  // pagination

  /** `Math.min(parseInt(limit) || 50, 100)` with `limit` defaulting to "50". */
  function PageLimit(limit: Option<string>): (r: int)
    ensures r <= 100
    ensures var p := ParseInt(limit.GetOr("50"));
            r == if p.None? || p.value == 0 then 50 else Min(p.value, 100)
  {
    var p := ParseInt(limit.GetOr("50"));
    var n := if p.Some? && p.value != 0 then p.value else 50;
    Min(n, 100)
  }

  /** `parseInt(offset) || 0` with `offset` defaulting to "0". */
  function PageOffset(offset: Option<string>): int {
    var p := ParseInt(offset.GetOr("0"));
    if p.Some? && p.value != 0 then p.value else 0
  }

  /** A missing limit is 50. */
  lemma PageLimitDefault()
    ensures PageLimit(None) == 50
  {
    assert DigitChar(5) == '5' && DigitChar(0) == '0';
    assert NatToString(50) == "50";
    ParseIntNatToString(50);
  }

  /** A decimal limit is capped at 100, and 0 means 50. */
  lemma PageLimitDecimal(n: nat)
    ensures PageLimit(Some(NatToString(n))) == if n == 0 then 50 else Min(n, 100)
  {
    ParseIntNatToString(n);
  }

  /** A missing offset is 0 and a decimal offset is read as it is. */
  lemma PageOffsetDecimal(n: nat)
    ensures PageOffset(None) == 0
    ensures PageOffset(Some(NatToString(n))) == n
  {
    ParseIntNatToString(0);
    ParseIntNatToString(n);
  }

  /** The inclusive id range `offset .. offset + limit - 1`. */
  function Page<T>(recent: seq<T>, offset: int, limit: int): seq<T> {
    Range(recent, offset, offset + limit - 1)
  }

  /** A page at a non-negative offset with a positive limit is the contiguous slice of the
      list starting at the offset, holding at most `limit` ids. */
  lemma PageSlice<T>(recent: seq<T>, offset: nat, limit: nat)
    requires limit >= 1
    ensures Page(recent, offset, limit) == recent[Min(offset, |recent|)..Min(offset + limit, |recent|)]
    ensures |Page(recent, offset, limit)| <= limit
  {
  }

  /** The cap is only an upper bound: `limit=-1` gives -1, and the page `0 .. -2` is the whole
      list but its last id, however long the list is. */
  lemma NegativeLimit<T>(recent: seq<T>)
    requires |recent| >= 1
    ensures PageLimit(Some("-1")) == -1
    ensures Page(recent, 0, -1) == recent[..|recent| - 1]
  {
    assert DigitChar(1) == '1';
    assert "-1" == "-" + NatToString(1);
    ParseIntNegative(1);
    RangeAllButLast(recent);
  }

  // ---------------------------------------------------------------------------
  // fetching the records

  /** The record an id yields: nothing when its GET request throws or is not ok
      (`getFails`), when the key holds no non-empty string, or when the string does not
      parse (`parse` is `JSON.parse`, `None` when it throws). */
  function Fetch(strings: map<string, string>, getFails: string -> bool,
                 parse: string -> Option<VisitorRecord>, id: string): Option<VisitorRecord> {
    if getFails(id) || id !in strings || strings[id] == "" then None else parse(strings[id])
  }

  /** The records of `ids`, in id order, with the ids that yield nothing left out. */
  function Collected(strings: map<string, string>, getFails: string -> bool,
                     parse: string -> Option<VisitorRecord>, ids: seq<string>): (r: seq<VisitorRecord>)
    ensures |r| <= |ids|
    decreases |ids|
  {
    if ids == [] then []
    else
      var front := Collected(strings, getFails, parse, ids[..|ids| - 1]);
      match Fetch(strings, getFails, parse, ids[|ids| - 1])
      case Some(v) => front + [v]
      case None => front
  }

  /** When every id yields a record, each record is in the position of its id. */
  lemma {:induction false} CollectedAll(strings: map<string, string>, getFails: string -> bool,
                                        parse: string -> Option<VisitorRecord>, ids: seq<string>)
    requires forall i :: 0 <= i < |ids| ==> Fetch(strings, getFails, parse, ids[i]).Some?
    ensures var r := Collected(strings, getFails, parse, ids);
            |r| == |ids| && forall i :: 0 <= i < |ids| ==> r[i] == Fetch(strings, getFails, parse, ids[i]).value
    decreases |ids|
  {
    if ids != [] {
      CollectedAll(strings, getFails, parse, ids[..|ids| - 1]);
    }
  }

  /** When no id yields a record, the list is empty. */
  lemma {:induction false} CollectedNone(strings: map<string, string>, getFails: string -> bool,
                                         parse: string -> Option<VisitorRecord>, ids: seq<string>)
    requires forall i :: 0 <= i < |ids| ==> Fetch(strings, getFails, parse, ids[i]).None?
    ensures Collected(strings, getFails, parse, ids) == []
    decreases |ids|
  {
    if ids != [] {
      CollectedNone(strings, getFails, parse, ids[..|ids| - 1]);
    }
  }

  /** The `for … of` loop over the ids, which skips an id on any failure. */
  method Collect(store: Store, getFails: string -> bool, parse: string -> Option<VisitorRecord>,
                 ids: seq<string>) returns (visitors: seq<VisitorRecord>)
    ensures visitors == Collected(store.strings, getFails, parse, ids)
  {
    visitors := [];
    var i := 0;
    while i < |ids|
      invariant 0 <= i <= |ids|
      invariant visitors == Collected(store.strings, getFails, parse, ids[..i])
    {
      var id := ids[i];
      assert ids[..i + 1][..i] == ids[..i];
      if !getFails(id) {
        var result := store.Get(id);
        if Truthy(result) {
          var v := parse(result.value);
          if v.Some? {
            visitors := visitors + [v.value];
          }
        }
      }
      i := i + 1;
    }
    assert ids[..|ids|] == ids;
  }

  // ---------------------------------------------------------------------------
  // statistics

  /** The companies of the records that have one, in order. */
  function CompanyKeys(vs: seq<VisitorRecord>): (r: seq<string>)
    ensures |r| <= |vs|
    decreases |vs|
  {
    if vs == [] then []
    else
      var last := vs[|vs| - 1];
      CompanyKeys(vs[..|vs| - 1]) + if Truthy(last.company) then [last.company.value] else []
  }

  /** The country of each record, `Unknown` when it has none. */
  function CountryKeys(vs: seq<VisitorRecord>): (r: seq<string>)
    ensures |r| == |vs|
    ensures forall i :: 0 <= i < |vs| ==> r[i] == OrDefault(vs[i].country, "Unknown")
  {
    seq(|vs|, i requires 0 <= i < |vs| => OrDefault(vs[i].country, "Unknown"))
  }

  /** The referrer group: `Direct` for an empty referrer, the host name when it parses as a
      URL (`hostOf` is `new URL(r).hostname`, `None` when it throws), else the first 30
      characters. */
  function ReferrerKey(referrer: string, hostOf: string -> Option<string>): string {
    if referrer == "" then "Direct"
    else if hostOf(referrer).Some? then hostOf(referrer).value
    else Prefix(referrer, 30)
  }

  function ReferrerKeys(vs: seq<VisitorRecord>, hostOf: string -> Option<string>): (r: seq<string>)
    ensures |r| == |vs|
    ensures forall i :: 0 <= i < |vs| ==> r[i] == ReferrerKey(vs[i].referrer, hostOf)
  {
    seq(|vs|, i requires 0 <= i < |vs| => ReferrerKey(vs[i].referrer, hostOf))
  }

  /** The number of distinct keys: `new Set(keys).size`. */
  function Distinct(keys: seq<string>): nat {
    |set i | 0 <= i < |keys| :: keys[i]|
  }

  lemma CompanyKeysSnoc(vs: seq<VisitorRecord>, i: nat)
    requires i < |vs|
    ensures CompanyKeys(vs[..i + 1]) ==
              CompanyKeys(vs[..i]) + if Truthy(vs[i].company) then [vs[i].company.value] else []
  {
    assert vs[..i + 1][..i] == vs[..i];
  }

  lemma CountryKeysSnoc(vs: seq<VisitorRecord>, i: nat)
    requires i < |vs|
    ensures CountryKeys(vs[..i + 1]) == CountryKeys(vs[..i]) + [OrDefault(vs[i].country, "Unknown")]
  {
  }

  lemma ReferrerKeysSnoc(vs: seq<VisitorRecord>, hostOf: string -> Option<string>, i: nat)
    requires i < |vs|
    ensures ReferrerKeys(vs[..i + 1], hostOf) == ReferrerKeys(vs[..i], hostOf) + [ReferrerKey(vs[i].referrer, hostOf)]
  {
  }

  /** One more record in the company counts. */
  lemma CompanyStep(vs: seq<VisitorRecord>, i: nat)
    requires i < |vs|
    ensures Tally(CompanyKeys(vs[..i + 1])) ==
              if Truthy(vs[i].company) then Bump(Tally(CompanyKeys(vs[..i])), vs[i].company.value)
              else Tally(CompanyKeys(vs[..i]))
  {
    CompanyKeysSnoc(vs, i);
    if Truthy(vs[i].company) {
      TallySnoc(CompanyKeys(vs[..i]), vs[i].company.value);
    } else {
      assert CompanyKeys(vs[..i + 1]) == CompanyKeys(vs[..i]);
    }
  }

  /** One more record in the country counts. */
  lemma CountryStep(vs: seq<VisitorRecord>, i: nat)
    requires i < |vs|
    ensures Tally(CountryKeys(vs[..i + 1])) == Bump(Tally(CountryKeys(vs[..i])), OrDefault(vs[i].country, "Unknown"))
  {
    CountryKeysSnoc(vs, i);
    TallySnoc(CountryKeys(vs[..i]), OrDefault(vs[i].country, "Unknown"));
  }

  /** The `forEach` over the records that counts companies. */
  method CountCompanies(vs: seq<VisitorRecord>) returns (counts: map<string, nat>)
    ensures counts == Tally(CompanyKeys(vs))
  {
    counts := map[];
    var i := 0;
    while i < |vs|
      invariant 0 <= i <= |vs|
      invariant counts == Tally(CompanyKeys(vs[..i]))
    {
      var v := vs[i];
      CompanyStep(vs, i);
      if Truthy(v.company) {
        counts := Bump(counts, v.company.value);
      }
      i := i + 1;
    }
    assert vs[..|vs|] == vs;
  }

  /** The `forEach` that counts countries. */
  method CountCountries(vs: seq<VisitorRecord>) returns (counts: map<string, nat>)
    ensures counts == Tally(CountryKeys(vs))
  {
    counts := map[];
    var i := 0;
    while i < |vs|
      invariant 0 <= i <= |vs|
      invariant counts == Tally(CountryKeys(vs[..i]))
    {
      var country := OrDefault(vs[i].country, "Unknown");
      CountryStep(vs, i);
      counts := Bump(counts, country);
      i := i + 1;
    }
    assert vs[..|vs|] == vs;
  }

  /** The `forEach` that counts referrer groups. */
  method CountReferrers(vs: seq<VisitorRecord>, hostOf: string -> Option<string>)
    returns (counts: map<string, nat>)
    ensures counts == Tally(ReferrerKeys(vs, hostOf))
  {
    counts := map[];
    var i := 0;
    while i < |vs|
      invariant 0 <= i <= |vs|
      invariant counts == Tally(ReferrerKeys(vs[..i], hostOf))
    {
      var domain := ReferrerKey(vs[i].referrer, hostOf);
      ReferrerKeysSnoc(vs, hostOf, i);
      TallySnoc(ReferrerKeys(vs[..i], hostOf), domain);
      counts := Bump(counts, domain);
      i := i + 1;
    }
    assert vs[..|vs|] == vs;
  }

  /** The country counts and the referrer counts each add up to the number of records; the
      company counts add up to the number of records with a company. */
  lemma CountsAddUp(vs: seq<VisitorRecord>, hostOf: string -> Option<string>)
    ensures Sum(Tally(CountryKeys(vs))) == |vs|
    ensures Sum(Tally(ReferrerKeys(vs, hostOf))) == |vs|
    ensures Sum(Tally(CompanyKeys(vs))) == |CompanyKeys(vs)| <= |vs|
  {
    TallySum(CountryKeys(vs));
    TallySum(ReferrerKeys(vs, hostOf));
    TallySum(CompanyKeys(vs));
  }

  /** The number of distinct companies is the number of keys of the company counts. */
  lemma UniqueCompaniesAreKeys(vs: seq<VisitorRecord>)
    ensures Distinct(CompanyKeys(vs)) == |Tally(CompanyKeys(vs)).Keys|
  {
    TallyKeys(CompanyKeys(vs));
  }

  /** A record without a country is counted under `Unknown`. */
  lemma MissingCountryIsUnknown(vs: seq<VisitorRecord>, i: nat)
    requires i < |vs| && !Truthy(vs[i].country)
    ensures "Unknown" in Tally(CountryKeys(vs))
  {
    TallyCounts(CountryKeys(vs), "Unknown");
    assert CountryKeys(vs)[i] == "Unknown";
  }

  /** Only records with a non-empty company are counted by company, each under its own name. */
  lemma {:induction false} CompanyKeysMembers(vs: seq<VisitorRecord>, k: string)
    ensures k in CompanyKeys(vs) <==> exists i :: 0 <= i < |vs| && vs[i].company == Some(k) && k != ""
    decreases |vs|
  {
    if vs != [] {
      var front := vs[..|vs| - 1];
      CompanyKeysMembers(front, k);
      if exists i :: 0 <= i < |vs| && vs[i].company == Some(k) && k != "" {
        var i :| 0 <= i < |vs| && vs[i].company == Some(k) && k != "";
        if i < |vs| - 1 {
          assert front[i] == vs[i];
        }
      }
      if exists i :: 0 <= i < |front| && front[i].company == Some(k) && k != "" {
        var i :| 0 <= i < |front| && front[i].company == Some(k) && k != "";
        assert vs[i] == front[i];
      }
    }
  }

  // ---------------------------------------------------------------------------
  // the handler

  datatype Stats = Stats(
    total: int, today: int, uniqueCompanies: nat,
    companyCounts: Option<map<string, nat>>, countryCounts: Option<map<string, nat>>,
    referrerCounts: Option<map<string, nat>>)

  datatype VisitorsAnswer = VisitorsFailure(error: string) | Listing(visitors: seq<VisitorRecord>, stats: Stats)

  /** The answer without a configured store: no visitors and zeroed statistics. */
  const Unconfigured := Listing([], Stats(0, 0, 0, None, None, None))

  /** `parseInt(result) || 0` on the GET answer of the day's counter. */
  function TodayCount(result: Option<string>): int {
    if result.Some? then
      var p := ParseInt(result.value);
      if p.Some? && p.value != 0 then p.value else 0
    else 0
  }

  /** The number shown for today is the day's counter. */
  lemma TodayIsCounter(s: StoreState, day: string)
    ensures TodayCount(if DayKey(day) in s.counters then Some(NatToString(s.counters[DayKey(day)])) else None)
              == s.Counter(DayKey(day))
  {
    if DayKey(day) in s.counters {
      ParseIntNatToString(s.counters[DayKey(day)]);
    }
  }

  /** The request: method, `Authorization` header, query parameters `limit` and `offset`. */
  datatype VisitorsRequest = VisitorsRequest(
    httpMethod: string, authorization: Option<string>, limit: Option<string>, offset: Option<string>)

  /** The statistics of a page of records read at `offset`, with `today` visits today. */
  function StatsOf(vs: seq<VisitorRecord>, offset: int, today: int, hostOf: string -> Option<string>): Stats {
    Stats(|vs| + offset, today, Distinct(CompanyKeys(vs)),
          Some(Tally(CompanyKeys(vs))), Some(Tally(CountryKeys(vs))), Some(Tally(ReferrerKeys(vs, hostOf))))
  }

  /** The three counting loops of the handler. */
  method Summarize(vs: seq<VisitorRecord>, offset: int, today: int, hostOf: string -> Option<string>)
    returns (stats: Stats)
    ensures stats == StatsOf(vs, offset, today, hostOf)
  {
    var uniqueCompanies := Distinct(CompanyKeys(vs));
    var companyCounts := CountCompanies(vs);
    var countryCounts := CountCountries(vs);
    var referrerCounts := CountReferrers(vs, hostOf);
    stats := Stats(|vs| + offset, today, uniqueCompanies,
                   Some(companyCounts), Some(countryCounts), Some(referrerCounts));
  }

  /** The number shown for today: the day's counter when the store answers the request for
      it with `ok`, else 0, since an error answer carries no `result`. */
  function TodayShown(s: StoreState, day: string, todayOk: bool): nat {
    if todayOk then s.Counter(DayKey(day)) else 0
  }

  /** The records of the listed ids and their statistics, after the request for the day's
      counter; `todayThrows` is that request or the reading of its answer throwing, which the
      handler's `catch` turns into a 500, and `todayOk` whether the store answered it with
      `ok` rather than an error, which the handler does not look at. */
  method ListPage(store: Store, ids: seq<string>, offset: int, getFails: string -> bool,
                  parse: string -> Option<VisitorRecord>, hostOf: string -> Option<string>, dayIso: string,
                  todayThrows: bool, todayOk: bool)
    returns (resp: Response<VisitorsAnswer>)
    ensures todayThrows ==> resp == Response(500, VisitorsFailure("Internal server error"))
    ensures !todayThrows ==>
              var vs := Collected(store.strings, getFails, parse, ids);
              resp == Response(200, Listing(vs, StatsOf(vs, offset, TodayShown(store.State(), Day(dayIso), todayOk), hostOf)))
  {
    var visitors := Collect(store, getFails, parse, ids);
    var today := Day(dayIso);
    var counter := store.GetCounter(DayKey(today));
    var todayResult := if todayOk then counter else None;
    if todayThrows {
      return Response(500, VisitorsFailure("Internal server error"));
    }
    TodayIsCounter(store.State(), today);
    var stats := Summarize(visitors, offset, TodayCount(todayResult), hostOf);
    resp := Response(200, Listing(visitors, stats));
  }

  /** The handler. `listOk` is whether the LRANGE response was ok and could be read;
      `todayThrows` is the request for the day's counter failing and `todayOk` the store
      answering it with `ok`; the clock reading `dayIso` picks the day counter. */
  method Handle(store: Store, req: VisitorsRequest, password: Option<string>, env: StoreEnv,
                listOk: bool, getFails: string -> bool, parse: string -> Option<VisitorRecord>,
                hostOf: string -> Option<string>, dayIso: string, todayThrows: bool,
                todayOk: bool)
    returns (resp: Response<VisitorsAnswer>)
    ensures req.httpMethod != "GET" ==> resp == Response(405, VisitorsFailure("Method not allowed"))
    ensures req.httpMethod == "GET" && !Authorized(req.authorization, password) ==>
              resp == Response(401, VisitorsFailure("Unauthorized"))
    ensures req.httpMethod == "GET" && Authorized(req.authorization, password) && !StoreConfigured(env) ==>
              resp == Response(200, Unconfigured)
    ensures req.httpMethod == "GET" && Authorized(req.authorization, password) && StoreConfigured(env) && !listOk ==>
              resp == Response(500, VisitorsFailure("Internal server error"))
    ensures req.httpMethod == "GET" && Authorized(req.authorization, password) && StoreConfigured(env) && listOk
            && todayThrows ==>
              resp == Response(500, VisitorsFailure("Internal server error"))
    ensures req.httpMethod == "GET" && Authorized(req.authorization, password) && StoreConfigured(env) && listOk
            && !todayThrows ==>
              var offset := PageOffset(req.offset);
              var ids := Page(store.State().List(RecentKey), offset, PageLimit(req.limit));
              var vs := Collected(store.strings, getFails, parse, ids);
              resp == Response(200, Listing(vs, StatsOf(vs, offset, TodayShown(store.State(), Day(dayIso), todayOk), hostOf)))
  {
    if req.httpMethod != "GET" {
      return Response(405, VisitorsFailure("Method not allowed"));
    }
    if !Authorized(req.authorization, password) {
      return Response(401, VisitorsFailure("Unauthorized"));
    }
    if !StoreConfigured(env) {
      return Response(200, Unconfigured);
    }
    var limitNum := PageLimit(req.limit);
    var offsetNum := PageOffset(req.offset);
    var visitorIds := store.LRange(RecentKey, offsetNum, offsetNum + limitNum - 1);
    if !listOk {
      return Response(500, VisitorsFailure("Internal server error"));
    }
    resp := ListPage(store, visitorIds, offsetNum, getFails, parse, hostOf, dayIso, todayThrows, todayOk);
  }
}

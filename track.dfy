/** The tracking endpoint: it resolves the client address, attributes a company, builds the
    visitor record, writes it to the store (SET, LPUSH, LTRIM 0 999, INCR) and sends the
    visit notification. Confidences are integer hundredths. */
module Track {
  import opened Wrappers
  import opened Http
  import opened Text
  import opened Enrichment
  import opened KvStore
  import opened Access
  import opened Visits

  // ---------------------------------------------------------------------------
  // company detection

  datatype Detection = Detection(
    company: Option<string>, domain: Option<string>, confidence: nat,
    org: Option<string>, country: Option<string>, city: Option<string>)

  const NoDetection := Detection(None, None, 0, None, None, None)

  /** The ipinfo step: geography is copied, and a non-carrier organisation, without its AS
      number, becomes the company at 0.5. */
  function FromIpinfo(l: Lookups): Detection {
    if IpinfoAnswered(l) then
      var d := l.ipinfo.data;
      var g := NoDetection.(country := d.country, city := d.city, org := d.org);
      if Truthy(d.org) && !IsCarrier(d.org.value) then
        g.(company := Some(StripAsn(d.org.value)), confidence := 50)
      else g
    else NoDetection
  }

  /** The ipinfo request is not guarded by its own `try`: when it throws, the Clearbit step
      is skipped and the record so far is returned. */
  predicate IpinfoThrew(l: Lookups) {
    Truthy(l.ipinfoToken) && l.ipinfo.Threw?
  }

  function DetectionOf(l: Lookups): Detection {
    var a := FromIpinfo(l);
    if !IpinfoThrew(l) && ClearbitAnswered(l) then
      var c := l.clearbit.data.value;
      a.(company := c.name, domain := c.domain, confidence := 90)
    else a
  }

  /** The ipinfo part of `detectCompany`; `threw` is the request throwing. */
  method LookupIpinfo(l: Lookups) returns (result: Detection, threw: bool)
    ensures result == FromIpinfo(l) && threw == IpinfoThrew(l)
  {
    result := NoDetection;
    threw := false;
    if Truthy(l.ipinfoToken) {
      match l.ipinfo {
        case Threw => threw := true;
        case NotOk =>
        case Ok(data) =>
          result := NoDetection.(country := data.country, city := data.city, org := data.org);
          if Truthy(data.org) && !IsCarrier(data.org.value) {
            var orgName := StripAsn(data.org.value);
            result := result.(company := Some(orgName), confidence := 50);
          }
      }
    }
  }

  /** `detectCompany`, with the outer `try` as a flag that skips the rest. */
  method DetectCompany(l: Lookups) returns (result: Detection)
    ensures result == DetectionOf(l)
  {
    var threw;
    result, threw := LookupIpinfo(l);
    if !threw && Truthy(l.clearbitKey) {
      match l.clearbit {
        case Ok(Some(c)) =>
          result := result.(company := c.name, domain := c.domain, confidence := 90);
        case _ =>
      }
    }
  }

  /** Without either credential nothing is detected. */
  lemma NoCredentialsNoCompany(l: Lookups)
    requires !Truthy(l.ipinfoToken) && !Truthy(l.clearbitKey)
    ensures DetectionOf(l) == NoDetection
  {
  }

  /** Without a Clearbit company, the organisation is the company exactly when it is present
      and names no carrier, at confidence 0.5. */
  lemma OrgCompany(l: Lookups)
    requires IpinfoAnswered(l) && !ClearbitAnswered(l)
    ensures var d := DetectionOf(l); var org := l.ipinfo.data.org;
            (d.company.Some? <==> Truthy(org) && !IsCarrier(org.value))
            && (d.company.Some? ==> d.company == Some(StripAsn(org.value)) && d.confidence == 50)
            && d.domain.None?
  {
  }

  /** A Clearbit company overrides the organisation, with its domain, at 0.9, unless the
      ipinfo request threw. */
  lemma ClearbitOverrides(l: Lookups)
    requires ClearbitAnswered(l)
    ensures var d := DetectionOf(l); var c := l.clearbit.data.value;
            if IpinfoThrew(l) then d == NoDetection
            else d.company == c.name && d.domain == c.domain && d.confidence == 90
  {
  }

  lemma DetectionLevels(l: Lookups)
    ensures DetectionOf(l).confidence in {0, 50, 90}
    ensures DetectionOf(l).domain.Some? ==> ClearbitAnswered(l) && !IpinfoThrew(l)
  {
  }

  // ---------------------------------------------------------------------------
  // request data

  /** The address: the first `x-forwarded-for` entry, trimmed, else the socket address, else
      `unknown`. */
  function ClientIp(forwardedFor: Option<string>, remoteAddress: Option<string>): (r: string)
    ensures r != ""
  {
    var first := if forwardedFor.Some? then Some(Trim(Split(forwardedFor.value, ',')[0])) else None;
    OrDefault(OrElse(first, remoteAddress), "unknown")
  }

  lemma SplitHead(hop: string, rest: seq<string>, d: char)
    requires d !in hop
    ensures Split(Join([hop] + rest, [d]), d)[0] == hop
  {
    if rest == [] {
      SplitNoSeparator(hop, d);
    } else {
      assert ([hop] + rest)[1..] == rest;
      SplitAfterPiece(hop, d, Join(rest, [d]));
    }
  }

  /** The client is the first hop of a proxy chain `hop, …` when that hop is not blank. */
  lemma ClientIpFirstHop(hop: string, rest: seq<string>, remoteAddress: Option<string>)
    requires ',' !in hop && Trim(hop) != ""
    ensures ClientIp(Some(Join([hop] + rest, ",")), remoteAddress) == Trim(hop)
  {
    SplitHead(hop, rest, ',');
  }

  /** Without a usable forwarded address the socket address decides. */
  lemma ClientIpFallback(forwardedFor: Option<string>, remoteAddress: Option<string>)
    requires forwardedFor.None? || Trim(Split(forwardedFor.value, ',')[0]) == ""
    ensures ClientIp(forwardedFor, remoteAddress) == OrDefault(remoteAddress, "unknown")
  {
  }

  /** `visitor:<ms>:<ip with every '.' replaced by '-'>`. */
  function VisitorId(nowMs: nat, ip: string): (r: string)
    ensures '.' !in r
  {
    var dashed := ReplaceChar(ip, '.', "-");
    var ms := NatToString(nowMs);
    assert '.' !in ms;
    "visitor:" + ms + ":" + dashed
  }

  /** Three pieces joined by ':' split back into themselves. */
  lemma SplitThree(a: string, b: string, c: string)
    requires ':' !in a && ':' !in b && ':' !in c
    ensures Split(a + ":" + b + ":" + c, ':') == [a, b, c]
  {
    assert Split(b + [':'] + c, ':') == [b, c] by {
      SplitNoSeparator(c, ':');
      SplitAfterPiece(b, ':', c);
    }
    assert a + ":" + b + ":" + c == a + [':'] + (b + [':'] + c);
    SplitAfterPiece(a, ':', b + [':'] + c);
  }

  /** An id of an address without ':' (IPv4) splits into its three fields, and its middle
      field reads back as the time. */
  lemma VisitorIdFields(nowMs: nat, ip: string)
    requires ':' !in ip
    ensures Split(VisitorId(nowMs, ip), ':') == ["visitor", NatToString(nowMs), ReplaceChar(ip, '.', "-")]
    ensures ParseInt(Split(VisitorId(nowMs, ip), ':')[1]) == Some(nowMs)
  {
    var ms := NatToString(nowMs);
    var dashed := ReplaceChar(ip, '.', "-");
    assert VisitorId(nowMs, ip) == "visitor" + ":" + ms + ":" + dashed;
    assert ':' !in dashed by {
      ReplaceCharNotIn(ip, '.', "-", ':');
    }
    assert ':' !in ms;
    SplitThree("visitor", ms, dashed);
    ParseIntNatToString(nowMs);
  }

  datatype TrackBody = TrackBody(page: Option<string>, referrer: Option<string>)

  /** The parts of the request that are read; `body` is `None` when there is none, so that
      destructuring it throws. */
  datatype TrackRequest = TrackRequest(
    httpMethod: string, forwardedFor: Option<string>, remoteAddress: Option<string>,
    userAgent: Option<string>, referer: Option<string>, body: Option<TrackBody>)

  /** The three readings of the clock: `Date.now()` for the id, the ISO time of the record
      and the ISO time the day counter is taken from. */
  datatype Clock = Clock(nowMs: nat, timestamp: string, dayIso: string)

  /** The record with its defaults: user agent `unknown`, referrer from the body else the
      `referer` header else empty, page `/`. */
  function Visitor(req: TrackRequest, body: TrackBody, d: Detection, clock: Clock): VisitorRecord {
    VisitorRecord(
      ClientIp(req.forwardedFor, req.remoteAddress),
      OrDefault(req.userAgent, "unknown"),
      OrDefault(OrElse(body.referrer, req.referer), ""),
      OrDefault(body.page, "/"),
      clock.timestamp,
      d.country, d.city, d.org, d.company, d.domain, d.confidence)
  }

  // ---------------------------------------------------------------------------
  // store writes

  /** The four store commands of one visit. */
  function VisitCommands(id: string, json: string, day: string): seq<Command> {
    [SetCmd(id, json), LPushCmd(RecentKey, id), LTrimCmd(RecentKey, 0, Capacity - 1), IncrCmd(DayKey(day))]
  }

  lemma ExecFour(s: StoreState, cs: seq<Command>)
    requires |cs| == 4
    ensures ExecAll(s, cs) == Exec(Exec(Exec(Exec(s, cs[0]), cs[1]), cs[2]), cs[3])
  {
    var s1 := Exec(s, cs[0]);
    var s2 := Exec(s1, cs[1]);
    var s3 := Exec(s2, cs[2]);
    assert ExecAll(s, cs[..1]) == s1 by {
      assert cs[..0] == [];
      ExecAllStep(s, cs, 0);
    }
    assert ExecAll(s, cs[..2]) == s2 by {
      ExecAllStep(s, cs, 1);
    }
    assert ExecAll(s, cs[..3]) == s3 by {
      ExecAllStep(s, cs, 2);
    }
    assert ExecAll(s, cs) == Exec(s3, cs[3]) by {
      ExecAllStep(s, cs, 3);
      assert cs[..4] == cs;
    }
  }

  /** A stored visit: the record is under its id, the id heads the recent list, which keeps
      at most 1000 ids, and the day's counter goes up by exactly one; no other list or
      counter changes. */
  lemma VisitWrites(s: StoreState, id: string, json: string, day: string)
    ensures var t := ExecAll(s, VisitCommands(id, json, day));
            t.strings == s.strings[id := json]
            && t.List(RecentKey) == PushRecent(s.List(RecentKey), id)
            && t.Counter(DayKey(day)) == s.Counter(DayKey(day)) + 1
            && (forall k :: k != RecentKey ==> t.List(k) == s.List(k))
            && (forall k :: k != DayKey(day) ==> t.Counter(k) == s.Counter(k))
  {
    var cs := VisitCommands(id, json, day);
    ExecFour(s, cs);
    var s1 := Exec(s, cs[0]);
    var s2 := Exec(s1, cs[1]);
    TrimKeeps(s2, RecentKey, 0, Capacity - 1, RecentKey);
    forall k | k != RecentKey ensures ExecAll(s, cs).List(k) == s.List(k) {
      TrimKeeps(s2, RecentKey, 0, Capacity - 1, k);
    }
  }

  /** When the LTRIM request throws after the LPUSH took effect, a full list holds 1001 ids. */
  lemma FailedTrimOverflows(s: StoreState, id: string, json: string, day: string)
    requires |s.List(RecentKey)| == Capacity
    ensures |ExecAll(s, VisitCommands(id, json, day)[..2]).List(RecentKey)| == Capacity + 1
  {
    var cs := VisitCommands(id, json, day);
    assert cs[..0] == [];
    ExecAllStep(s, cs, 0);
    ExecAllStep(s, cs, 1);
  }

  /** The effect of request `i`: its command when the store accepts it, nothing when it
      rejects it. */
  function Answer(s: StoreState, c: Command, i: nat, rejected: set<nat>): StoreState {
    if i in rejected then s else Exec(s, c)
  }

  lemma ExecAnsweredFour(s: StoreState, cs: seq<Command>, rejected: set<nat>)
    requires |cs| == 4
    ensures ExecAnswered(s, cs, rejected) ==
              Answer(Answer(Answer(Answer(s, cs[0], 0, rejected), cs[1], 1, rejected),
                            cs[2], 2, rejected), cs[3], 3, rejected)
  {
    assert cs[..0] == [];
    ExecAnsweredStep(s, cs, rejected, 0);
    ExecAnsweredStep(s, cs, rejected, 1);
    ExecAnsweredStep(s, cs, rejected, 2);
    ExecAnsweredStep(s, cs, rejected, 3);
    assert cs[..4] == cs;
  }

  /** The four steps of a visit's requests under `rejected`. */
  lemma AnsweredSteps(s: StoreState, id: string, json: string, day: string, rejected: set<nat>)
    returns (s1: StoreState, s2: StoreState, s3: StoreState)
    ensures var cs := VisitCommands(id, json, day);
            s1 == Answer(s, cs[0], 0, rejected) && s2 == Answer(s1, cs[1], 1, rejected)
            && s3 == Answer(s2, cs[2], 2, rejected)
            && ExecAnswered(s, cs, rejected) == Answer(s3, cs[3], 3, rejected)
  {
    var cs := VisitCommands(id, json, day);
    ExecAnsweredFour(s, cs, rejected);
    s1 := Answer(s, cs[0], 0, rejected);
    s2 := Answer(s1, cs[1], 1, rejected);
    s3 := Answer(s2, cs[2], 2, rejected);
  }

  /** A visit's writes when the store rejects the requests in `rejected`: each of the four
      takes effect exactly when it is accepted, so the record is stored unless the SET is
      rejected, the id is pushed unless the LPUSH is, the list is cut to 1000 ids unless the
      LTRIM is, and the day counter goes up by one unless the INCR is; no other list or
      counter changes. */
  lemma AnsweredVisitWrites(s: StoreState, id: string, json: string, day: string, rejected: set<nat>)
    ensures var t := ExecAnswered(s, VisitCommands(id, json, day), rejected);
            var pushed := if 1 in rejected then s.List(RecentKey) else [id] + s.List(RecentKey);
            t.strings == (if 0 in rejected then s.strings else s.strings[id := json])
            && t.List(RecentKey) == (if 2 in rejected then pushed else Range(pushed, 0, Capacity - 1))
            && t.Counter(DayKey(day)) == s.Counter(DayKey(day)) + (if 3 in rejected then 0 else 1)
            && (forall k :: k != RecentKey ==> t.List(k) == s.List(k))
            && (forall k :: k != DayKey(day) ==> t.Counter(k) == s.Counter(k))
  {
    var s1, s2, s3 := AnsweredSteps(s, id, json, day, rejected);
    var t := ExecAnswered(s, VisitCommands(id, json, day), rejected);
    AnsweredStrings(s, s1, s2, s3, t, id, json, day, rejected);
    AnsweredCounters(s, s1, s2, s3, t, id, json, day, rejected);
    AnsweredLists(s, s1, s2, s3, t, id, json, day, rejected);
  }

  lemma AnsweredStrings(s: StoreState, s1: StoreState, s2: StoreState, s3: StoreState, t: StoreState,
                        id: string, json: string, day: string, rejected: set<nat>)
    requires var cs := VisitCommands(id, json, day);
             s1 == Answer(s, cs[0], 0, rejected) && s2 == Answer(s1, cs[1], 1, rejected)
             && s3 == Answer(s2, cs[2], 2, rejected) && t == Answer(s3, cs[3], 3, rejected)
    ensures t.strings == (if 0 in rejected then s.strings else s.strings[id := json])
  {
    assert s2.strings == s1.strings;
    assert s3.strings == s1.strings;
  }

  lemma AnsweredCounters(s: StoreState, s1: StoreState, s2: StoreState, s3: StoreState, t: StoreState,
                         id: string, json: string, day: string, rejected: set<nat>)
    requires var cs := VisitCommands(id, json, day);
             s1 == Answer(s, cs[0], 0, rejected) && s2 == Answer(s1, cs[1], 1, rejected)
             && s3 == Answer(s2, cs[2], 2, rejected) && t == Answer(s3, cs[3], 3, rejected)
    ensures t.Counter(DayKey(day)) == s.Counter(DayKey(day)) + (if 3 in rejected then 0 else 1)
    ensures forall k :: k != DayKey(day) ==> t.Counter(k) == s.Counter(k)
  {
    assert s1.counters == s.counters;
    assert s2.counters == s.counters;
    assert s3.counters == s.counters;
  }

  lemma AnsweredLists(s: StoreState, s1: StoreState, s2: StoreState, s3: StoreState, t: StoreState,
                      id: string, json: string, day: string, rejected: set<nat>)
    requires var cs := VisitCommands(id, json, day);
             s1 == Answer(s, cs[0], 0, rejected) && s2 == Answer(s1, cs[1], 1, rejected)
             && s3 == Answer(s2, cs[2], 2, rejected) && t == Answer(s3, cs[3], 3, rejected)
    ensures var pushed := if 1 in rejected then s.List(RecentKey) else [id] + s.List(RecentKey);
            t.List(RecentKey) == (if 2 in rejected then pushed else Range(pushed, 0, Capacity - 1))
    ensures forall k :: k != RecentKey ==> t.List(k) == s.List(k)
  {
    assert t.lists == s3.lists;
    PushedLists(s, s1, s2, id, json, rejected);
    if 2 !in rejected {
      TrimmedLists(s, s2, s3);
    }
  }

  /** The SET and LPUSH of a visit: the recent list gains the id unless the LPUSH is
      rejected, and the other lists stay as they were. */
  lemma PushedLists(s: StoreState, s1: StoreState, s2: StoreState, id: string, json: string,
                    rejected: set<nat>)
    requires s1 == Answer(s, SetCmd(id, json), 0, rejected)
    requires s2 == Answer(s1, LPushCmd(RecentKey, id), 1, rejected)
    ensures s2.List(RecentKey) == if 1 in rejected then s.List(RecentKey) else [id] + s.List(RecentKey)
    ensures forall k :: k != RecentKey ==> s2.List(k) == s.List(k)
  {
    assert s1.lists == s.lists;
  }

  /** The LTRIM of a visit: the recent list is cut and the other lists stay as they were. */
  lemma TrimmedLists(s: StoreState, s2: StoreState, s3: StoreState)
    requires s3 == Exec(s2, LTrimCmd(RecentKey, 0, Capacity - 1))
    requires forall k :: k != RecentKey ==> s2.List(k) == s.List(k)
    ensures s3.List(RecentKey) == Range(s2.List(RecentKey), 0, Capacity - 1)
    ensures forall k :: k != RecentKey ==> s3.List(k) == s.List(k)
  {
    TrimKeeps(s2, RecentKey, 0, Capacity - 1, RecentKey);
    forall k | k != RecentKey
      ensures s3.List(k) == s.List(k)
    {
      TrimKeeps(s2, RecentKey, 0, Capacity - 1, k);
    }
  }

  /** The store answering the LTRIM of a visit to a full list with an error leaves the list
      holding 1001 ids. */
  lemma RejectedTrimOverflows(s: StoreState, id: string, json: string, day: string)
    requires |s.List(RecentKey)| == Capacity
    ensures |ExecAnswered(s, VisitCommands(id, json, day), {2}).List(RecentKey)| == Capacity + 1
  {
    AnsweredVisitWrites(s, id, json, day, {2});
  }

  /** The store answering the INCR of a visit with an error leaves the day's count as it was,
      although the record is stored and listed. */
  lemma RejectedIncrUncounted(s: StoreState, id: string, json: string, day: string)
    ensures var t := ExecAnswered(s, VisitCommands(id, json, day), {3});
            t.Counter(DayKey(day)) == s.Counter(DayKey(day))
            && t.strings == s.strings[id := json]
            && t.List(RecentKey) == PushRecent(s.List(RecentKey), id)
  {
    AnsweredVisitWrites(s, id, json, day, {3});
  }

  // ---------------------------------------------------------------------------
  // notification

  datatype Email = Email(to: string, subject: string)

  datatype NotifyEnv = NotifyEnv(resendKey: Option<string>, notifyEmail: Option<string>)

  /** Every tracked visit is mailed when both the Resend key and the address are set. */
  function Notification(env: NotifyEnv, v: VisitorRecord): (r: Option<Email>)
    ensures r.Some? <==> Truthy(env.resendKey) && Truthy(env.notifyEmail)
  {
    if !Truthy(env.resendKey) || !Truthy(env.notifyEmail) then None
    else Some(Email(env.notifyEmail.value, "\U{1F514} Portfolio Visitor: " + OrDefault(v.company, "Notable Visit")))
  }

  // ---------------------------------------------------------------------------
  // the handler

  datatype TrackAnswer = Tracked | TrackFailure(error: string)

  /** How many of `n` store requests take effect when request `failAt` (if any) throws. */
  function Issued(n: nat, failAt: Option<nat>): nat {
    if failAt.Some? && failAt.value < n then failAt.value else n
  }

  /** Request `i` of a sequence, issuing `c`: nothing changes when the store rejects it. */
  method Issue(store: Store, c: Command, i: nat, rejected: set<nat>)
    modifies store
    ensures store.State() == Answer(old(store.State()), c, i, rejected)
  {
    if i in rejected {
      return;
    }
    match c
    case SetCmd(k, v) => store.Set(k, v);
    case LPushCmd(k, v) => store.LPush(k, v);
    case LTrimCmd(k, start, stop) => store.LTrim(k, start, stop);
    case IncrCmd(k) => store.Incr(k);
  }

  /** The four store requests of a visit, in order. `failAt` is the index of the first one
      that throws, after which none is issued; the store answers those in `rejected` with
      an error and changes nothing for them, and the answers are not inspected, so the
      next request is issued all the same. */
  method WriteVisit(store: Store, id: string, json: string, day: string, failAt: Option<nat>,
                    rejected: set<nat>)
    returns (completed: bool)
    modifies store
    ensures store.State() ==
              ExecAnswered(old(store.State()), VisitCommands(id, json, day)[..Issued(4, failAt)], rejected)
    ensures completed <==> Issued(4, failAt) == 4
  {
    ghost var s0 := store.State();
    ghost var cmds := VisitCommands(id, json, day);
    assert cmds[..0] == [];
    if failAt == Some(0) {
      return false;
    }
    ExecAnsweredStep(s0, cmds, rejected, 0);
    Issue(store, SetCmd(id, json), 0, rejected);
    if failAt == Some(1) {
      return false;
    }
    ExecAnsweredStep(s0, cmds, rejected, 1);
    Issue(store, LPushCmd(RecentKey, id), 1, rejected);
    if failAt == Some(2) {
      return false;
    }
    ExecAnsweredStep(s0, cmds, rejected, 2);
    Issue(store, LTrimCmd(RecentKey, 0, Capacity - 1), 2, rejected);
    if failAt == Some(3) {
      return false;
    }
    ExecAnsweredStep(s0, cmds, rejected, 3);
    Issue(store, IncrCmd(DayKey(day)), 3, rejected);
    assert cmds[..4] == cmds;
    completed := true;
  }

  /** The record of a request with a body. */
  function VisitOf(req: TrackRequest, l: Lookups, clock: Clock): VisitorRecord
    requires req.body.Some?
  {
    Visitor(req, req.body.value, DetectionOf(l), clock)
  }

  /** The store commands a visit issues: the four writes when the store is configured, else
      none. */
  function PlannedCommands(storeEnv: StoreEnv, v: VisitorRecord, clock: Clock,
                           stringify: VisitorRecord -> string): (cs: seq<Command>)
    ensures |cs| == if StoreConfigured(storeEnv) then 4 else 0
  {
    if StoreConfigured(storeEnv)
    then VisitCommands(VisitorId(clock.nowMs, v.ip), stringify(v), Day(clock.dayIso))
    else []
  }

  /** The store part of the handler: the planned commands up to the first that throws, of
      which the rejected ones change nothing. */
  method Record(store: Store, storeEnv: StoreEnv, v: VisitorRecord, clock: Clock,
                stringify: VisitorRecord -> string, failAt: Option<nat>, rejected: set<nat>)
    returns (completed: bool)
    modifies store
    ensures var cmds := PlannedCommands(storeEnv, v, clock, stringify);
            store.State() == ExecAnswered(old(store.State()), cmds[..Issued(|cmds|, failAt)], rejected)
            && (completed <==> Issued(|cmds|, failAt) == |cmds|)
  {
    completed := true;
    if StoreConfigured(storeEnv) {
      var visitorId := VisitorId(clock.nowMs, v.ip);
      completed := WriteVisit(store, visitorId, stringify(v), Day(clock.dayIso), failAt, rejected);
    }
  }

  /** The handler. `stringify` is `JSON.stringify` on records; `failAt` is the index of the
      first store request that throws, which makes the answer 500; `rejected` holds the
      indices of the requests the store answers with an error. Those answers are not
      inspected: the rejected writes are simply missing and the answer is still 200. */
  method Handle(store: Store, req: TrackRequest, storeEnv: StoreEnv, notifyEnv: NotifyEnv,
                l: Lookups, clock: Clock, stringify: VisitorRecord -> string, failAt: Option<nat>,
                rejected: set<nat>)
    returns (resp: Response<TrackAnswer>, email: Option<Email>)
    modifies store
    ensures req.httpMethod != "POST" ==>
              resp == Response(405, TrackFailure("Method not allowed"))
              && store.State() == old(store.State()) && email.None?
    ensures req.httpMethod == "POST" && req.body.None? ==>
              resp == Response(500, TrackFailure("Internal server error"))
              && store.State() == old(store.State()) && email.None?
    ensures req.httpMethod == "POST" && req.body.Some? ==>
              var v := VisitOf(req, l, clock);
              var cmds := PlannedCommands(storeEnv, v, clock, stringify);
              var done := Issued(|cmds|, failAt);
              store.State() == ExecAnswered(old(store.State()), cmds[..done], rejected)
              && if done < |cmds| then resp == Response(500, TrackFailure("Internal server error")) && email.None?
                 else resp == Response(200, Tracked) && email == Notification(notifyEnv, v)
  {
    if req.httpMethod != "POST" {
      return Response(405, TrackFailure("Method not allowed")), None;
    }
    var ip := ClientIp(req.forwardedFor, req.remoteAddress);
    if req.body.None? {
      return Response(500, TrackFailure("Internal server error")), None;
    }
    var info := DetectCompany(l);
    var visitor := Visitor(req, req.body.value, info, clock);
    assert visitor.ip == ip;
    var completed := Record(store, storeEnv, visitor, clock, stringify, failAt, rejected);
    if !completed {
      return Response(500, TrackFailure("Internal server error")), None;
    }
    email := Notification(notifyEnv, visitor);
    resp := Response(200, Tracked);
  }
}

/** The company-detection endpoint: one result record is refined in three stages (ipinfo
    organisation, Clearbit Reveal, reverse DNS), each stage only when its service is
    configured and answers. Confidences are integer hundredths (70 stands for 0.7). */
module CompanyDetect {
  import opened Wrappers
  import opened Http
  import opened Text
  import opened CompanyPatterns
  import opened Enrichment

  datatype CompanyInfo = CompanyInfo(
    name: Option<string>, domain: Option<string>, confidence: nat, source: string,
    org: Option<string>, country: Option<string>, city: Option<string>, region: Option<string>)

  /** The record every detection starts from. */
  const Initial := CompanyInfo(None, None, 0, "none", None, None, None, None)

  function Max(a: nat, b: nat): nat {
    if a < b then b else a
  }

  // ---------------------------------------------------------------------------
  // the three stages, as functions of the record before them

  /** The geography of an ipinfo answer, copied whether or not its fields are present. */
  function CopyGeo(r: CompanyInfo, d: GeoData): CompanyInfo {
    r.(country := d.country, city := d.city, region := d.region, org := d.org)
  }

  /** The organisation string decides: the first table entry that matches it, else the
      organisation itself without its AS number unless it names a carrier. */
  function FromOrg(r: CompanyInfo, org: string): (s: CompanyInfo)
    ensures s.domain == r.domain && s.country == r.country && s.city == r.city
    ensures s.region == r.region && s.org == r.org
  {
    var company := FirstMatch(KnownCompanies, org);
    var p := if company.Some? then r.(name := company, confidence := 70, source := "ipinfo-pattern") else r;
    if !Truthy(p.name) && !IsCarrier(org) then
      p.(name := Some(StripAsn(org)), confidence := 40, source := "ipinfo-org")
    else p
  }

  function IpinfoStage(l: Lookups, r: CompanyInfo): (s: CompanyInfo)
    ensures s.domain == r.domain
  {
    if IpinfoAnswered(l) then
      var d := l.ipinfo.data;
      var g := CopyGeo(r, d);
      if Truthy(d.org) then FromOrg(g, d.org.value) else g
    else r
  }

  /** The Clearbit stage: a company in the answer sets name, domain, confidence 0.95 and
      source, and leaves geography and organisation as they were. */
  function ClearbitStage(l: Lookups, r: CompanyInfo): (s: CompanyInfo)
    ensures s.country == r.country && s.city == r.city && s.region == r.region && s.org == r.org
    ensures !ClearbitAnswered(l) ==> s == r
    ensures ClearbitAnswered(l) ==>
              s.name == l.clearbit.data.value.name && s.domain == l.clearbit.data.value.domain
              && s.confidence == 95 && s.source == "clearbit"
  {
    if ClearbitAnswered(l) then
      var c := l.clearbit.data.value;
      r.(name := c.name, domain := c.domain, confidence := 95, source := "clearbit")
    else r
  }

  /** The reverse-DNS stage runs when there is no name yet or the confidence is below 0.6. */
  predicate NeedsRdns(r: CompanyInfo) {
    !Truthy(r.name) || r.confidence < 60
  }

  /** The PTR query name of an address: its dot-separated labels in reverse order under
      `in-addr.arpa` (section 3.5 of RFC 1035). */
  function PtrName(ip: string): string {
    Join(Reverse(Split(ip, '.')), ".") + ".in-addr.arpa"
  }

  /** The PTR query name ends in `.in-addr.arpa`, and what comes before it are the labels of
      the address, last first. */
  lemma PtrNameLabels(ip: string)
    ensures var r := PtrName(ip);
            |r| >= 13 && r[|r| - 13..] == ".in-addr.arpa"
            && Split(r[..|r| - 13], '.') == Reverse(Split(ip, '.'))
  {
    var labels := Reverse(Split(ip, '.'));
    assert forall k :: 0 <= k < |labels| ==> '.' !in labels[k];
    SplitJoin(labels, '.');
    var r := PtrName(ip);
    assert r[..|r| - 13] == Join(labels, ".");
  }

  /** The host name of the first PTR answer, when the query succeeded and it is non-empty. */
  function PtrHost(ip: string, l: Lookups): (h: Option<string>)
    ensures h.Some? <==> l.ptr(PtrName(ip)).Ok? && Truthy(l.ptr(PtrName(ip)).data)
    ensures h.Some? ==> h == l.ptr(PtrName(ip)).data && h.value != ""
  {
    var a := l.ptr(PtrName(ip));
    if a.Ok? && Truthy(a.data) then a.data else None
  }

  function RdnsStage(ip: string, l: Lookups, r: CompanyInfo): (s: CompanyInfo)
    ensures s.domain == r.domain && s.country == r.country && s.city == r.city
    ensures s.region == r.region && s.org == r.org
  {
    var h := PtrHost(ip, l);
    if NeedsRdns(r) && h.Some? then
      var company := FirstMatch(KnownCompanies, h.value);
      if company.Some? then r.(name := company, confidence := Max(r.confidence, 60), source := "rdns")
      else r
    else r
  }

  /** The record the endpoint answers with for `ip`. */
  function Attribution(ip: string, l: Lookups): CompanyInfo {
    RdnsStage(ip, l, ClearbitStage(l, IpinfoStage(l, Initial)))
  }

  // ---------------------------------------------------------------------------
  // the handler

  datatype DetectBody = Failure(error: string) | Detected(info: CompanyInfo)

  /** The organisation step of the ipinfo stage, updating the record field by field. */
  method RunOrg(r: CompanyInfo, org: string) returns (result: CompanyInfo)
    ensures result == FromOrg(r, org)
  {
    result := r;
    var company := FindCompany(KnownCompanies, org);
    if company.Some? {
      result := result.(name := company, confidence := 70, source := "ipinfo-pattern");
    }
    if !Truthy(result.name) && !IsCarrier(org) {
      result := result.(name := Some(StripAsn(org)), confidence := 40, source := "ipinfo-org");
    }
  }

  method RunIpinfo(l: Lookups, r: CompanyInfo) returns (result: CompanyInfo)
    ensures result == IpinfoStage(l, r)
  {
    result := r;
    if Truthy(l.ipinfoToken) {
      match l.ipinfo {
        case Ok(data) =>
          result := result.(country := data.country, city := data.city);
          result := result.(region := data.region, org := data.org);
          if Truthy(data.org) {
            result := RunOrg(result, data.org.value);
          }
        case _ =>
      }
    }
  }

  method RunClearbit(l: Lookups, r: CompanyInfo) returns (result: CompanyInfo)
    ensures result == ClearbitStage(l, r)
  {
    result := r;
    if Truthy(l.clearbitKey) {
      match l.clearbit {
        case Ok(Some(c)) =>
          result := result.(name := c.name, domain := c.domain, confidence := 95, source := "clearbit");
        case _ =>
      }
    }
  }

  /** The reverse-DNS stage; the scan re-tests the stage condition before it writes, and
      stops at the first match. */
  method RunRdns(ip: string, l: Lookups, r: CompanyInfo) returns (result: CompanyInfo)
    ensures result == RdnsStage(ip, l, r)
  {
    result := r;
    if !Truthy(result.name) || result.confidence < 60 {
      var answer := l.ptr(PtrName(ip));
      if answer.Ok? && Truthy(answer.data) {
        var company := FindCompany(KnownCompanies, answer.data.value);
        if company.Some? {
          if !Truthy(result.name) || result.confidence < 60 {
            result := result.(name := company, confidence := Max(result.confidence, 60), source := "rdns");
          }
        }
      }
    }
  }

  method Detect(ip: string, l: Lookups) returns (result: CompanyInfo)
    ensures result == Attribution(ip, l)
  {
    result := RunIpinfo(l, Initial);
    result := RunClearbit(l, result);
    result := RunRdns(ip, l, result);
  }

  /** The endpoint: 405 for anything but POST and 400 without an address, both before any
      lookup. `body` is `None` when the request has no body, so that reading `ip` from it
      throws and the outer handler answers 500. */
  method Handle(httpMethod: string, body: Option<Option<string>>, l: Lookups)
    returns (resp: Response<DetectBody>)
    ensures httpMethod != "POST" ==> resp == Response(405, Failure("Method not allowed"))
    ensures httpMethod == "POST" && body.None? ==> resp == Response(500, Failure("Internal server error"))
    ensures httpMethod == "POST" && body.Some? && !Truthy(body.value) ==>
              resp == Response(400, Failure("IP address required"))
    ensures httpMethod == "POST" && body.Some? && Truthy(body.value) ==>
              resp == Response(200, Detected(Attribution(body.value.value, l)))
  {
    if httpMethod != "POST" {
      return Response(405, Failure("Method not allowed"));
    }
    if body.None? {
      return Response(500, Failure("Internal server error"));
    }
    var ip := body.value;
    if !Truthy(ip) {
      return Response(400, Failure("IP address required"));
    }
    var info := Detect(ip.value, l);
    resp := Response(200, Detected(info));
  }

  // ---------------------------------------------------------------------------
  // properties of the attribution

  /** Every company of the table has a non-empty name, so a match always gives a name. */
  lemma MatchIsTruthy(s: string)
    ensures FirstMatch(KnownCompanies, s).Some? ==> Truthy(FirstMatch(KnownCompanies, s))
  {
    assert forall i :: 0 <= i < |KnownCompanies| ==> KnownCompanies[i].company != "";
  }

  /** Without either credential the result is the initial record exactly when reverse DNS
      finds no known company. */
  lemma NoCredentials(ip: string, l: Lookups)
    requires !Truthy(l.ipinfoToken) && !Truthy(l.clearbitKey)
    ensures Attribution(ip, l) == Initial <==>
              (PtrHost(ip, l).None? || FirstMatch(KnownCompanies, PtrHost(ip, l).value).None?)
  {
  }

  /** A table match on the organisation string gives the first matching company at 0.7 from
      `ipinfo-pattern`; when Clearbit names nobody it is also the final answer. */
  lemma OrgPatternWins(ip: string, l: Lookups, company: string)
    requires IpinfoAnswered(l) && Truthy(l.ipinfo.data.org)
    requires FirstMatch(KnownCompanies, l.ipinfo.data.org.value) == Some(company)
    ensures var r := IpinfoStage(l, Initial);
            r.name == Some(company) && r.confidence == 70 && r.source == "ipinfo-pattern"
    ensures !ClearbitAnswered(l) ==>
              var r := Attribution(ip, l);
              r.name == Some(company) && r.confidence == 70 && r.source == "ipinfo-pattern"
  {
    MatchIsTruthy(l.ipinfo.data.org.value);
  }

  /** The organisation itself is used exactly when no pattern matched and it names no
      carrier; it then loses its AS number and has confidence 0.4. */
  lemma OrgFallback(l: Lookups)
    ensures IpinfoStage(l, Initial).source == "ipinfo-org" <==>
              IpinfoAnswered(l) && Truthy(l.ipinfo.data.org)
              && FirstMatch(KnownCompanies, l.ipinfo.data.org.value).None?
              && !IsCarrier(l.ipinfo.data.org.value)
    ensures IpinfoStage(l, Initial).source == "ipinfo-org" ==>
              IpinfoStage(l, Initial).name == Some(StripAsn(l.ipinfo.data.org.value))
              && IpinfoStage(l, Initial).confidence == 40
  {
    if IpinfoAnswered(l) && Truthy(l.ipinfo.data.org) {
      MatchIsTruthy(l.ipinfo.data.org.value);
    }
  }

  /** A Clearbit company overwrites name and domain at 0.95; reverse DNS can only replace a
      missing or empty name afterwards, and keeps the confidence at 0.95. */
  lemma ClearbitOverwrites(ip: string, l: Lookups)
    requires ClearbitAnswered(l)
    ensures var c := l.clearbit.data.value;
            var r := Attribution(ip, l);
            r.domain == c.domain && r.confidence == 95
            && (Truthy(c.name) ==> r.name == c.name && r.source == "clearbit")
  {
  }

  /** The domain comes from Clearbit and from no other stage. */
  lemma DomainOnlyFromClearbit(ip: string, l: Lookups)
    ensures Attribution(ip, l).domain == if ClearbitAnswered(l) then l.clearbit.data.value.domain else None
  {
  }

  /** The geography fields of a record. */
  function Geo(r: CompanyInfo): (Option<string>, Option<string>, Option<string>, Option<string>) {
    (r.country, r.city, r.region, r.org)
  }

  /** Geography comes only from an ipinfo answer, and one is always copied. */
  lemma GeoOnlyFromIpinfo(ip: string, l: Lookups)
    ensures Geo(Attribution(ip, l)) ==
              if IpinfoAnswered(l) then
                var d := l.ipinfo.data;
                (d.country, d.city, d.region, d.org)
              else (None, None, None, None)
  {
    var a := IpinfoStage(l, Initial);
    var b := ClearbitStage(l, a);
    assert Geo(b) == Geo(a);
    assert Geo(RdnsStage(ip, l, b)) == Geo(b);
    if IpinfoAnswered(l) {
      var d := l.ipinfo.data;
      var g := CopyGeo(Initial, d);
      if Truthy(d.org) {
        var company := FirstMatch(KnownCompanies, d.org.value);
        assert Geo(FromOrg(g, d.org.value)) == Geo(g);
      }
    }
  }

  /** Reverse DNS never lowers the confidence, leaves a named record of confidence at least
      0.6 alone, and otherwise takes the first company matching the PTR host name. */
  lemma RdnsMonotone(ip: string, l: Lookups, r: CompanyInfo)
    ensures RdnsStage(ip, l, r).confidence >= r.confidence
    ensures !NeedsRdns(r) ==> RdnsStage(ip, l, r) == r
    ensures RdnsStage(ip, l, r) != r ==>
              RdnsStage(ip, l, r).name == FirstMatch(KnownCompanies, PtrHost(ip, l).value)
              && RdnsStage(ip, l, r).source == "rdns"
  {
  }

  /** The confidence never drops from stage to stage and is one of 0, 0.4, 0.6, 0.7, 0.95. */
  lemma ConfidenceLevels(ip: string, l: Lookups)
    ensures var a := IpinfoStage(l, Initial);
            var b := ClearbitStage(l, a);
            a.confidence <= b.confidence <= Attribution(ip, l).confidence
    ensures Attribution(ip, l).confidence in {0, 40, 60, 70, 95}
  {
    var a := IpinfoStage(l, Initial);
    assert a.confidence in {0, 40, 70};
    var b := ClearbitStage(l, a);
    assert b.confidence in {0, 40, 70, 95};
    RdnsMonotone(ip, l, b);
  }

  /** The PTR name of a dotted quad `a.b.c.d` is `d.c.b.a.in-addr.arpa`. */
  lemma PtrNameQuad(a: string, b: string, c: string, d: string)
    requires '.' !in a && '.' !in b && '.' !in c && '.' !in d
    ensures PtrName(a + "." + b + "." + c + "." + d) == d + "." + c + "." + b + "." + a + ".in-addr.arpa"
  {
    var labels := [a, b, c, d];
    JoinFour(a, b, c, d);
    SplitJoin(labels, '.');
    var rev := Reverse(labels);
    assert rev == [d, c, b, a];
    JoinFour(d, c, b, a);
  }

  lemma JoinFour(a: string, b: string, c: string, d: string)
    ensures Join([a, b, c, d], ".") == a + "." + b + "." + c + "." + d
  {
    assert Join([d], ".") == d;
    assert [c, d][1..] == [d];
    assert Join([c, d], ".") == c + "." + d;
    assert [b, c, d][1..] == [c, d];
    assert Join([b, c, d], ".") == b + "." + (c + "." + d);
    assert [a, b, c, d][1..] == [b, c, d];
  }
}

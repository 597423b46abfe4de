/** The answers of the external lookup services that the attribution code combines, and the
    two tests it applies to an ipinfo organisation string. */
module Enrichment {
  import opened Wrappers
  import opened Text

  /** The outcome of one `fetch` to a lookup service, JSON decoding included: the call
      threw, the response was not ok, or it was ok and decoded to `data`. */
  datatype Fetched<+T> = Threw | NotOk | Ok(data: T)

  /** The fields of an ipinfo.io answer that are read. */
  datatype GeoData = GeoData(country: Option<string>, city: Option<string>,
                             region: Option<string>, org: Option<string>)

  /** The `company` object of a Clearbit Reveal answer. */
  datatype RevealCompany = RevealCompany(name: Option<string>, domain: Option<string>)

  /** Everything the attribution of one IP address depends on besides the address: the two
      service credentials, the ipinfo and Clearbit answers for that address, and the
      dns.google answer for a PTR query name (`Some(h)` when `Answer[0].data` is `h`). */
  datatype Lookups = Lookups(
    ipinfoToken: Option<string>,
    ipinfo: Fetched<GeoData>,
    clearbitKey: Option<string>,
    clearbit: Fetched<Option<RevealCompany>>,
    ptr: string -> Fetched<Option<string>>)

  /** The ipinfo stage runs and its answer arrived. */
  predicate IpinfoAnswered(l: Lookups) {
    Truthy(l.ipinfoToken) && l.ipinfo.Ok?
  }

  /** The Clearbit stage runs and its answer names a company. */
  predicate ClearbitAnswered(l: Lookups) {
    Truthy(l.clearbitKey) && l.clearbit.Ok? && l.clearbit.data.Some?
  }

  /** The case-sensitive carrier test: the organisation mentions `ISP` or `Telecom`. */
  predicate IsCarrier(org: string) {
    Contains(org, "ISP") || Contains(org, "Telecom")
  }

  /** The number of leading white-space characters. */
  function SpaceRun(s: string): (r: nat)
    ensures r <= |s|
    ensures forall i :: 0 <= i < r ==> IsSpace(s[i])
    ensures r < |s| ==> !IsSpace(s[r])
    decreases |s|
  {
    if |s| > 0 && IsSpace(s[0]) then 1 + SpaceRun(s[1..]) else 0
  }

  /** `/^AS\d+\s+/` matches: `org` starts with `AS`, at least one decimal digit and a
      white-space character. */
  predicate HasAsnPrefix(org: string) {
    |org| >= 2 && org[0] == 'A' && org[1] == 'S' &&
    exists k :: 3 <= k < |org| && (forall i :: 2 <= i < k ==> '0' <= org[i] <= '9') && IsSpace(org[k])
  }

  /** The length of the leading `AS<digits><white space>` of `org`, or 0 when it has none. */
  function AsnLength(org: string): (n: nat)
    ensures n <= |org|
    ensures n > 0 ==> 2 <= |org| && org[0] == 'A' && org[1] == 'S' && (n == |org| || !IsSpace(org[n]))
  {
    if |org| >= 2 && org[0] == 'A' && org[1] == 'S' then
      var k := DigitRun(org[2..], 10);
      if 0 < k && 2 + k < |org| && IsSpace(org[2 + k]) then
        var w := SpaceRun(org[2 + k..]);
        assert w < |org| - (2 + k) ==> org[2 + k + w] == org[2 + k..][w];
        2 + k + w
      else 0
    else 0
  }

  /** `org.replace(/^AS\d+\s+/, '')`: one leading autonomous-system number ("AS", one or
      more decimal digits, one or more white-space characters) is removed; any other
      string is returned as it is. */
  function StripAsn(org: string): (r: string)
    ensures |r| <= |org| && r == org[|org| - |r|..]
    ensures r != org ==> 2 <= |org| && org[0] == 'A' && org[1] == 'S' && (r == [] || !IsSpace(r[0]))
  {
    org[AsnLength(org)..]
  }

  /** The prefix is removed exactly when the pattern matches; any other organisation is
      returned as it is. */
  lemma StripAsnExactly(org: string)
    ensures AsnLength(org) > 0 <==> HasAsnPrefix(org)
    ensures StripAsn(org) != org <==> HasAsnPrefix(org)
    ensures !HasAsnPrefix(org) ==> StripAsn(org) == org
  {
    if AsnLength(org) > 0 {
      var k := 2 + DigitRun(org[2..], 10);
      assert forall i :: 2 <= i < k ==> '0' <= org[i] <= '9' by {
        forall i | 2 <= i < k ensures '0' <= org[i] <= '9' {
          assert org[i] == org[2..][i - 2];
        }
      }
      assert 3 <= k < |org| && IsSpace(org[k]);
    }
    if HasAsnPrefix(org) {
      var k :| 3 <= k < |org| && (forall i :: 2 <= i < k ==> '0' <= org[i] <= '9') && IsSpace(org[k]);
      var d := DigitRun(org[2..], 10);
      assert org[2..][k - 2] == org[k];
      SpaceIsNoDigit(org[k]);
      assert forall i :: 0 <= i < k - 2 ==> org[2..][i] == org[i + 2];
      assert d == k - 2;
    }
    assert org[0..] == org;
  }

  lemma {:induction false} SpaceRunThen(w: string, t: string)
    requires forall i :: 0 <= i < |w| ==> IsSpace(w[i])
    requires t == [] || !IsSpace(t[0])
    ensures SpaceRun(w + t) == |w|
    decreases |w|
  {
    if w == [] {
      assert w + t == t;
    } else {
      assert (w + t)[1..] == w[1..] + t;
      SpaceRunThen(w[1..], t);
    }
  }

  lemma SpaceIsNoDigit(c: char)
    requires IsSpace(c)
    ensures DigitValue(c) >= 10
  {
  }

  lemma Regroup(a: string, b: string, c: string, d: string)
    ensures a + b + c + d == a + (b + (c + d))
  {
  }

  lemma DropPrefix(a: string, b: string)
    ensures (a + b)[|a|..] == b
  {
  }

  lemma AsnLengthOf(org: string, k: nat, m: nat)
    requires |org| >= 2 && org[0] == 'A' && org[1] == 'S'
    requires DigitRun(org[2..], 10) == k && 0 < k && 2 + k < |org| && IsSpace(org[2 + k])
    requires SpaceRun(org[2 + k..]) == m
    ensures AsnLength(org) == 2 + k + m
  {
  }

  lemma StripAsnDigits(ds: string, w: string, name: string)
    requires ds != [] && forall i :: 0 <= i < |ds| ==> '0' <= ds[i] <= '9'
    requires w != [] && forall i :: 0 <= i < |w| ==> IsSpace(w[i])
    requires name == [] || !IsSpace(name[0])
    ensures StripAsn("AS" + ds + w + name) == name
  {
    var tail := w + name;
    var org := "AS" + (ds + tail);
    var k := |ds|;
    assert "AS" + ds + w + name == org by {
      Regroup("AS", ds, w, name);
    }
    assert org[2..] == ds + tail && org[0] == 'A' && org[1] == 'S' by {
      DropPrefix("AS", ds + tail);
    }
    assert DigitRun(org[2..], 10) == k by {
      assert tail[0] == w[0];
      SpaceIsNoDigit(w[0]);
      DigitRunThen(ds, tail);
    }
    assert org[2 + k..] == tail by {
      DropPrefix(ds, tail);
      assert org[2 + k..] == (ds + tail)[k..];
    }
    assert SpaceRun(org[2 + k..]) == |w| by {
      SpaceRunThen(w, name);
    }
    assert IsSpace(org[2 + k]) by {
      assert org[2 + k] == tail[0] == w[0];
    }
    AsnLengthOf(org, k, |w|);
    assert org[2 + k + |w|..] == name by {
      DropPrefix(w, name);
      assert org[2 + k + |w|..] == tail[|w|..];
    }
  }

  /** The prefix written as "AS" + number + white space is exactly what is removed. */
  lemma StripAsnPrefix(n: nat, w: string, name: string)
    requires w != [] && forall i :: 0 <= i < |w| ==> IsSpace(w[i])
    requires name == [] || !IsSpace(name[0])
    ensures StripAsn("AS" + NatToString(n) + w + name) == name
  {
    StripAsnDigits(NatToString(n), w, name);
  }
}

/** The table of well-known companies and the case-insensitive test of an organisation
    string or a host name against it. */
module CompanyPatterns {
  import opened Wrappers
  import opened Text

  /** One table entry: the company's display name and the literal alternatives of its
      regular expression, in lower case (every pattern of the table is an alternation of
      literals with the `i` flag). */
  datatype Pattern = Pattern(company: string, keywords: seq<string>)

  /** The twelve entries, in declaration order, which is the order `Object.entries` visits
      them. `x\.com` is the literal `x.com`. */
  const KnownCompanies: seq<Pattern> := [
    Pattern("Google", ["google", "googleapis"]),
    Pattern("Microsoft", ["microsoft", "azure", "msn"]),
    Pattern("Amazon", ["amazon", "aws"]),
    Pattern("Apple", ["apple"]),
    Pattern("Meta", ["facebook", "meta", "instagram"]),
    Pattern("Netflix", ["netflix"]),
    Pattern("Salesforce", ["salesforce"]),
    Pattern("LinkedIn", ["linkedin"]),
    Pattern("Twitter", ["twitter", "x.com"]),
    Pattern("Stripe", ["stripe"]),
    Pattern("OpenAI", ["openai"]),
    Pattern("Anthropic", ["anthropic"])
  ]

  /** `pattern.test(s)`: some alternative occurs in `s`, ignoring the case of ASCII letters.
      Folding ASCII only is exact here: without the `u` flag a case-insensitive JavaScript
      pattern never maps a non-ASCII character onto an ASCII one. */
  predicate Matches(p: Pattern, s: string) {
    exists j :: 0 <= j < |p.keywords| && Contains(Lower(s), p.keywords[j])
  }

  /** The company of the first entry, in table order, whose pattern matches `s`. */
  function FirstMatch(table: seq<Pattern>, s: string): (r: Option<string>)
    ensures r.None? <==> forall i :: 0 <= i < |table| ==> !Matches(table[i], s)
    ensures r.Some? ==> exists i :: 0 <= i < |table| && Matches(table[i], s) && r.value == table[i].company
                                    && forall j :: 0 <= j < i ==> !Matches(table[j], s)
    decreases |table|
  {
    if table == [] then None
    else if Matches(table[0], s) then Some(table[0].company)
    else
      var r := FirstMatch(table[1..], s);
      assert forall i :: 1 <= i < |table| ==> table[i] == table[1..][i - 1];
      r
  }

  /** The `for … of` loop over the table that stops at the first match. */
  method FindCompany(table: seq<Pattern>, s: string) returns (r: Option<string>)
    ensures r == FirstMatch(table, s)
  {
    r := None;
    var i := 0;
    while i < |table|
      invariant 0 <= i <= |table|
      invariant FirstMatch(table[i..], s) == FirstMatch(table, s)
    {
      assert table[i..][1..] == table[i + 1..];
      if Matches(table[i], s) {
        r := Some(table[i].company);
        break;
      }
      i := i + 1;
    }
  }

  /** A character of the needle that the haystack lacks rules the needle out. */
  lemma {:induction false} MissingCharNotContained(hay: string, needle: string, c: char)
    requires c in needle && c !in hay
    ensures !Contains(hay, needle)
    decreases |hay|
  {
    if hay != [] {
      MissingCharNotContained(hay[1..], needle, c);
    }
  }

  /** For each keyword of `p`, `cs` names one of its characters that `h` lacks. */
  lemma NotMatchedBy(p: Pattern, h: string, cs: seq<char>)
    requires Lower(h) == h
    requires |cs| == |p.keywords|
    requires forall j :: 0 <= j < |cs| ==> cs[j] in p.keywords[j] && cs[j] !in h
    ensures !Matches(p, h)
  {
    forall j | 0 <= j < |cs| ensures !Contains(Lower(h), p.keywords[j]) {
      MissingCharNotContained(h, p.keywords[j], cs[j]);
    }
  }

  /** The first matching entry decides. */
  lemma FirstMatchAt(table: seq<Pattern>, s: string, i: nat)
    requires i < |table| && Matches(table[i], s)
    requires forall j :: 0 <= j < i ==> !Matches(table[j], s)
    ensures FirstMatch(table, s) == Some(table[i].company)
  {
    var r := FirstMatch(table, s);
    var k :| 0 <= k < |table| && Matches(table[k], s) && r.value == table[k].company
             && forall j :: 0 <= j < k ==> !Matches(table[j], s);
    assert k == i;
  }

  /** The Dropbox mail host is lower case already. */
  lemma DropboxHostLower(h: string)
    requires h == "mail.dropbox.com"
    ensures Lower(h) == h
  {
  }

  lemma DropboxNotGoogle(h: string)
    requires h == "mail.dropbox.com" && Lower(h) == h
    ensures !Matches(KnownCompanies[0], h)
  {
    assert KnownCompanies[0] == Pattern("Google", ["google", "googleapis"]);
    NotMatchedBy(KnownCompanies[0], h, "gg");
  }

  lemma DropboxNotMicrosoft(h: string)
    requires h == "mail.dropbox.com" && Lower(h) == h
    ensures !Matches(KnownCompanies[1], h)
  {
    assert KnownCompanies[1] == Pattern("Microsoft", ["microsoft", "azure", "msn"]);
    NotMatchedBy(KnownCompanies[1], h, "szs");
  }

  lemma DropboxNotAmazon(h: string)
    requires h == "mail.dropbox.com" && Lower(h) == h
    ensures !Matches(KnownCompanies[2], h)
  {
    assert KnownCompanies[2] == Pattern("Amazon", ["amazon", "aws"]);
    NotMatchedBy(KnownCompanies[2], h, "zw");
  }

  lemma DropboxNotApple(h: string)
    requires h == "mail.dropbox.com" && Lower(h) == h
    ensures !Matches(KnownCompanies[3], h)
  {
    assert KnownCompanies[3] == Pattern("Apple", ["apple"]);
    NotMatchedBy(KnownCompanies[3], h, "e");
  }

  lemma DropboxNotMeta(h: string)
    requires h == "mail.dropbox.com" && Lower(h) == h
    ensures !Matches(KnownCompanies[4], h)
  {
    assert KnownCompanies[4] == Pattern("Meta", ["facebook", "meta", "instagram"]);
    NotMatchedBy(KnownCompanies[4], h, "fen");
  }

  lemma DropboxNotNetflix(h: string)
    requires h == "mail.dropbox.com" && Lower(h) == h
    ensures !Matches(KnownCompanies[5], h)
  {
    assert KnownCompanies[5] == Pattern("Netflix", ["netflix"]);
    NotMatchedBy(KnownCompanies[5], h, "n");
  }

  lemma DropboxNotSalesforce(h: string)
    requires h == "mail.dropbox.com" && Lower(h) == h
    ensures !Matches(KnownCompanies[6], h)
  {
    assert KnownCompanies[6] == Pattern("Salesforce", ["salesforce"]);
    NotMatchedBy(KnownCompanies[6], h, "s");
  }

  lemma DropboxNotLinkedIn(h: string)
    requires h == "mail.dropbox.com" && Lower(h) == h
    ensures !Matches(KnownCompanies[7], h)
  {
    assert KnownCompanies[7] == Pattern("LinkedIn", ["linkedin"]);
    NotMatchedBy(KnownCompanies[7], h, "k");
  }

  lemma DropboxMatchesTwitter(h: string)
    requires h == "mail.dropbox.com"
    ensures Matches(KnownCompanies[8], h)
  {
    assert Lower(h) == h;
    assert h[11..16] == "x.com";
    ContainsAt(h, "x.com", 11);
    assert Contains(Lower(h), KnownCompanies[8].keywords[1]);
  }

  /** Matching is by substring: a Dropbox mail host contains `x.com` and is attributed to
      Twitter, since no earlier entry matches it. */
  lemma DropboxHostIsTwitter()
    ensures FirstMatch(KnownCompanies, "mail.dropbox.com") == Some("Twitter")
  {
    var h := "mail.dropbox.com";
    DropboxHostLower(h);
    DropboxNotGoogle(h);
    DropboxNotMicrosoft(h);
    DropboxNotAmazon(h);
    DropboxNotApple(h);
    DropboxNotMeta(h);
    DropboxNotNetflix(h);
    DropboxNotSalesforce(h);
    DropboxNotLinkedIn(h);
    DropboxMatchesTwitter(h);
    FirstMatchAt(KnownCompanies, h, 8);
  }

  /** Case is ignored: an upper-case organisation string "AS15169 GOOGLE LLC" names Google. */
  lemma UpperCaseGoogle()
    ensures FirstMatch(KnownCompanies, "AS15169 GOOGLE LLC") == Some("Google")
  {
    var s := "AS15169 GOOGLE LLC";
    var low := Lower(s);
    assert s[8] == 'G' && s[9] == 'O' && s[10] == 'O' && s[11] == 'G' && s[12] == 'L' && s[13] == 'E';
    assert low[8] == 'g' && low[9] == 'o' && low[10] == 'o' && low[11] == 'g' && low[12] == 'l' && low[13] == 'e';
    assert low[8..14] == "google";
    ContainsAt(Lower(s), "google", 8);
    assert Contains(Lower(s), KnownCompanies[0].keywords[0]);
    FirstMatchAt(KnownCompanies, s, 0);
  }
}

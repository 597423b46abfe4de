# Portfolio site: visitor analytics, blog publishing, notifications and client state

This project is a Dafny model of the behaviour of a personal portfolio site. It covers the
serverless API routes, the development server's stand-ins for them, and the client-side state
machines. The model proves properties of each.

- **Company attribution** (`CompanyPatterns`, `Enrichment`, `CompanyDetect`). The lookup route
  runs three stages over one result record:
  - the ipinfo organisation, matched against the known-company table or used as a name once
    its `AS<digits>` prefix is stripped;
  - a Clearbit company;
  - a reverse-DNS fallback.

  The model proves the stage order, the confidence levels, where each field comes from, and
  that confidence never decreases.
- **Visit ingestion** (`KvStore`, `Access`, `Track`). The tracking route does these steps:
  - resolves the client IP;
  - detects the company;
  - builds the visitor record and its id;
  - issues SET, LPUSH, LTRIM 0 999 and INCR to a key-value store.

  The store is a class whose methods are proved against a command semantics. The model proves
  that the recent list stays within 1000 ids, newest first, and that the day counter increases
  by exactly one.
- **The dashboard** (`Visitors`, `Counts`). The route does these steps:
  - checks the bearer token;
  - reads `limit` and `offset` as `parseInt` does, with the default and the cap;
  - reads an id range and keeps the records that parse;
  - counts companies, countries and referrers in loops proved against tallies.

  The model proves that the counts add up to the number of visitors.
- **Blog publishing** (`Blog`, `BlogCreate`). The create route runs its checks in order, then:
  - recognises the slug;
  - parses the tags;
  - escapes the frontmatter and computes the reading time;
  - maps GitHub's answer to its own.

  The blog index derives slugs from module paths and sorts posts newest first. A published
  slug reads back as itself.
- **Notifications** (`Notify`). The route checks the method, the secret, the fields and the
  mail configuration. It builds the subject from the priority emoji, and the body paragraph
  with `<br>` for each line break.
- **The development server** (`DevApi`). Its routes are related to the deployed ones: where
  they agree and where they differ (no slug check, no offset, no referrer counts).
- **The landing page script** (`Landing`). It covers these objects:
  - the typing animation as a class stepping through its texts, with its reachable states
    and the full type-and-delete cycle;
  - the theme switch;
  - the chat widget, whose typing indicator is never shown twice.
- **The React stores and the chat input** (`ThemeStore`, `ChatStore`, `ChatInput`). These are
  classes whose actions are proved against state functions. Lemmas about those functions cover
  toggling, idempotence, rehydration, the message history under any run of actions, and the
  submit rules.

JavaScript semantics are written out where they matter:
- `||` on optional strings, and destructuring defaults (which apply only to missing values);
- `split`, `trim`, `replace` with a string pattern and with a global character pattern;
- `parseInt`, including NaN;
- Redis LRANGE/LTRIM index normalisation for negative indices.

Confidence values are integer hundredths: 95 stands for 0.95.

## Model

| member | source | states |
|---|---|---|
| Text.TrimStart | api/analytics/track.ts:129 | the leading white space is removed: the result is a suffix that does not start with white space, and only white space was dropped |
| Text.TrimEnd | api/analytics/track.ts:129 | the trailing white space is removed: the result is a prefix that does not end with white space, and only white space was dropped |
| Text.TrimStartSpaces | api/blog/create.ts:37 | white space before a text that starts with a non-space goes |
| Text.TrimEndUnchanged | api/blog/create.ts:37 | a text ending in a non-space keeps its end |
| Text.TrimAfterSpaces | api/blog/create.ts:37 | trimming `w + t` for white space `w` and trimmed `t` gives `t` |
| Text.Split | api/analytics/track.ts:129-187 | `split` on one character gives at least one piece, and no piece holds the separator |
| Text.Reverse | api/company-detect.ts:113 | `reverse` puts the elements in opposite order |
| Text.SplitNoSeparator | src/lib/blog.ts:25 | a text without the separator is one piece |
| Text.SplitAfterPiece | src/lib/blog.ts:25 | a piece and the separator split off as the first piece |
| Text.SplitAppendPiece | src/lib/blog.ts:25 | the separator followed by a separator-free text adds that text as the last piece |
| Text.LastPieceAfter | src/lib/blog.ts:25 | `pop()` after the split gives the text after the last separator |
| Text.SplitJoin | api/company-detect.ts:113 | splitting a join on the same separator gives the pieces back when none holds the separator |
| Text.JoinCons | api/blog/create.ts:45 | a character in front of the first item comes first in the join |
| Text.ReplaceChar | api/analytics/track.ts:165 | a global one-character replace whose replacement lacks the character leaves none of it |
| Text.ReplaceCharLength | api/notify.ts:97 | each replaced character adds the length of `w` less one character |
| Text.ReplaceCharIsSplitJoin | api/notify.ts:97 | the global replace is splitting at the character and joining with the replacement |
| Text.ReplaceFirstPrefix | api/analytics/visitors.ts:24 | a string pattern replaces one leading occurrence |
| Text.ReplaceCharNotIn | api/analytics/track.ts:165 | a character absent from the text and the replacement stays absent |
| Text.ReplaceCharAppend | api/blog/create.ts:42-44 | a global one-character replace of a concatenation is the concatenation of the replaced parts |
| Text.ContainsAt | api/company-detect.ts:60 | a needle found at some position is contained |
| Text.Lower | api/company-detect.ts:60 | lower-casing character by character |
| Text.Prefix | api/analytics/visitors.ts:120 | `substring(0, n)`: a prefix whose length is the smaller of `n` and the length of `s` |
| Text.NatToString | api/analytics/track.ts:165 | a decimal rendering is a non-empty string of digits |
| Text.DigitRun | api/analytics/visitors.ts:44 | the maximal prefix of digits of the radix |
| Text.DigitRunAll | api/analytics/visitors.ts:44 | a string of digits is read entirely |
| Text.DigitRunThen | api/analytics/visitors.ts:44 | digits followed by a non-digit are read up to the non-digit |
| Text.DigitValueOfChar | api/analytics/visitors.ts:44 | a digit character has its value |
| Text.ValueOfSnoc | api/analytics/visitors.ts:44 | one more digit multiplies by ten and adds it |
| Text.ValueOfNatToString | api/analytics/visitors.ts:44 | a rendered number denotes itself |
| Text.ParseUnsignedNatToString | api/analytics/visitors.ts:44 | an unsigned rendering reads back as the number |
| Text.ParseIntNatToString | api/analytics/visitors.ts:44-92 | `parseInt` reads back what a template literal writes for a natural number |
| Text.ParseIntNegative | api/analytics/visitors.ts:44 | `parseInt` reads a minus sign in front of a decimal number as its negation |
| CompanyPatterns.FirstMatch | api/company-detect.ts:15-28 | nothing is found exactly when no entry of the table matches; otherwise the result is the company of a matching entry with no matching entry before it |
| CompanyPatterns.FindCompany | api/company-detect.ts:59-66 | the `for … of` scan that breaks at the first match returns the first matching company of the table |
| CompanyPatterns.NotMatchedBy | api/company-detect.ts:15-28 | a lower-case string that lacks some character of every alternative of an entry does not match that entry |
| CompanyPatterns.MissingCharNotContained | api/company-detect.ts:60 | a string that lacks a character of a keyword does not contain the keyword |
| CompanyPatterns.FirstMatchAt | api/company-detect.ts:59-66 | a matching entry preceded only by non-matching ones decides the result |
| CompanyPatterns.DropboxHostIsTwitter | api/company-detect.ts:24 | the host `mail.dropbox.com` is attributed to Twitter, because `x\.com` is matched as a substring and no earlier entry matches |
| CompanyPatterns.DropboxMatchesTwitter | api/company-detect.ts:24 | the Twitter entry matches `mail.dropbox.com` |
| CompanyPatterns.UpperCaseGoogle | api/company-detect.ts:16 | the `i` flag: `AS15169 GOOGLE LLC` is attributed to Google |
| Enrichment.SpaceRun | api/company-detect.ts:70 | the `\s+` part of the ASN pattern: the length of the maximal leading run of white space |
| Enrichment.AsnLength | api/company-detect.ts:70 | a non-zero length means the string starts with `AS` and the match ends at the end or before a non-space |
| Enrichment.StripAsn | api/company-detect.ts:70 | the result is a suffix of the organisation; it differs from it only when the organisation starts with `AS`, and then it does not start with white space |
| Enrichment.StripAsnExactly | api/company-detect.ts:70 | the prefix is found and removed exactly when the organisation matches `^AS\d+\s+`; any other organisation is returned unchanged |
| Enrichment.StripAsnDigits | api/company-detect.ts:70 | `AS`, a non-empty digit run and non-empty white space are removed exactly, leaving the rest |
| Enrichment.StripAsnPrefix | api/company-detect.ts:70 | `AS` followed by a decimal number and white space is removed exactly |
| Enrichment.SpaceRunThen | api/company-detect.ts:70 | white space followed by a non-space has a run of exactly its length |
| Enrichment.SpaceIsNoDigit | api/company-detect.ts:70 | no white-space character is a digit, so `\d+` and `\s+` cannot overlap |
| Enrichment.AsnLengthOf | api/company-detect.ts:70 | the match length is `2` plus the digit run plus the white-space run |
| CompanyDetect.FromOrg | api/company-detect.ts:58-74 | deciding the name from the organisation leaves domain, geography and organisation fields unchanged |
| CompanyDetect.IpinfoStage | api/company-detect.ts:45-79 | the ipinfo stage never sets the domain |
| CompanyDetect.RdnsStage | api/company-detect.ts:108-136 | the reverse-DNS stage changes only name, confidence and source |
| CompanyDetect.RunOrg | api/company-detect.ts:58-74 | the field-by-field update with the breaking table loop computes `FromOrg` |
| CompanyDetect.RunIpinfo | api/company-detect.ts:45-79 | the ipinfo stage as run computes `IpinfoStage`, including the token check, non-ok answers and thrown requests |
| CompanyDetect.RunClearbit | api/company-detect.ts:81-106 | the Clearbit stage as run computes `ClearbitStage` |
| CompanyDetect.ClearbitStage | api/company-detect.ts:81-106 | a Clearbit company sets name, domain, confidence 0.95 and source `clearbit`; without one the record is unchanged; geography and organisation are never touched |
| CompanyDetect.PtrNameLabels | api/company-detect.ts:113 | the PTR query name ends in `.in-addr.arpa`, and the text before it splits at its dots into the address labels, last first |
| CompanyDetect.PtrHost | api/company-detect.ts:115-118 | a host name exactly when the PTR query is answered ok with a truthy first datum, which is then that datum and non-empty |
| CompanyDetect.RunRdns | api/company-detect.ts:108-136 | the reverse-DNS stage, whose loop re-tests the stage condition and breaks at the first match, computes `RdnsStage` |
| CompanyDetect.Detect | api/company-detect.ts:43-136 | the three stages in order compute `Attribution` |
| CompanyDetect.Handle | api/company-detect.ts:30-143 | 405 for anything but POST; 500 for a body that cannot be destructured; 400 without a truthy address; otherwise 200 with the attribution |
| CompanyDetect.MatchIsTruthy | api/company-detect.ts:15-28 | a table match always yields a non-empty name |
| CompanyDetect.NoCredentials | api/company-detect.ts:46-83 | without tokens the answer is the initial record exactly when reverse DNS finds no known company |
| CompanyDetect.OrgPatternWins | api/company-detect.ts:59-66 | a pattern hit on the organisation gives that company at 0.7 from `ipinfo-pattern`, and it is the final answer when Clearbit names nobody |
| CompanyDetect.OrgFallback | api/company-detect.ts:69-73 | the source is `ipinfo-org` exactly when there is an organisation, no pattern matched it and it names no carrier; the name is then the organisation without its AS number at 0.4 |
| CompanyDetect.ClearbitOverwrites | api/company-detect.ts:96-109 | a Clearbit company fixes domain and confidence 0.95 for the final answer, and with a name it keeps name and source |
| CompanyDetect.DomainOnlyFromClearbit | api/company-detect.ts:98 | the domain of the answer is Clearbit's, and absent without a Clearbit company |
| CompanyDetect.GeoOnlyFromIpinfo | api/company-detect.ts:52-55 | country, city, region and organisation are those of the ipinfo answer when there is one, and absent otherwise |
| CompanyDetect.RdnsMonotone | api/company-detect.ts:109-130 | reverse DNS never lowers the confidence, leaves a named record of confidence at least 0.6 alone, and otherwise sets the first company matching the PTR host with source `rdns` |
| CompanyDetect.ConfidenceLevels | api/company-detect.ts:62-125 | the confidence never drops from stage to stage and is one of 0, 0.4, 0.6, 0.7 and 0.95 |
| CompanyDetect.PtrNameQuad | api/company-detect.ts:113 | the PTR query name of `a.b.c.d` is `d.c.b.a.in-addr.arpa` |
| CompanyDetect.JoinFour | api/company-detect.ts:113 | joining four labels with dots |
| KvStore.Take | api/analytics/visitors.ts:48-49 | a prefix of the list whose length is the smaller of `n` and the list's length |
| KvStore.Range | api/analytics/visitors.ts:48-49 | the inclusive LRANGE/LTRIM range: on non-negative indices the slice `start .. stop` clamped to the list, empty when `stop < start` |
| KvStore.RangeFromHead | api/analytics/track.ts:183 | a range from index 0 is the prefix of `stop + 1` elements |
| KvStore.RangeAllButLast | api/analytics/visitors.ts:44-49 | a stop of `-2` counts from the end and drops only the last element |
| KvStore.ExecAllStep | api/analytics/track.ts:164-192 | issuing one more command of a sequence applies it to the state reached so far |
| KvStore.ExecAnsweredStep | api/analytics/track.ts:164-192 | one more request takes effect on the state reached so far unless the store answers it with an error, which leaves the state as it was |
| KvStore.ExecAnsweredAll | api/analytics/track.ts:164-192 | with no request answered by an error, the requests have the effect of all their commands |
| KvStore.TrimKeeps | api/analytics/track.ts:180-184 | LTRIM changes only the trimmed list, which then holds the range |
| KvStore.Store.Set | api/analytics/track.ts:166-170 | SET replaces the string under the key and nothing else |
| KvStore.Store.LPush | api/analytics/track.ts:173-177 | LPUSH adds a new head to the list and changes nothing else |
| KvStore.Store.LTrim | api/analytics/track.ts:180-184 | LTRIM keeps the range, removing a list trimmed to nothing |
| KvStore.Store.Incr | api/analytics/track.ts:188-192 | INCR adds one to the counter, counting from 0 |
| KvStore.Store.Get | api/analytics/visitors.ts:68-77 | GET gives the stored string, or `null` for a missing key |
| KvStore.Store.GetCounter | api/analytics/visitors.ts:86-92 | GET on a counter gives its decimal rendering, or `null` |
| KvStore.Store.LRange | api/analytics/visitors.ts:48-62 | LRANGE gives the range of the list, without changing the store |
| KvStore.PushRecent | api/analytics/track.ts:172-184 | LPUSH then LTRIM 0 999: the new id first, followed by a prefix of the old list, at most 1000 ids |
| KvStore.PushAllNewestFirst | api/analytics/track.ts:172-184 | after any number of visits the recent list is the ids newest first followed by the earlier list, cut at 1000 |
| KvStore.TakeCons | api/analytics/track.ts:183 | cutting before and after adding a head agree |
| KvStore.ReverseSnoc | api/analytics/track.ts:176 | the newest id comes first |
| Access.BearerAccepted | api/analytics/visitors.ts:24-29 | `Bearer <password>` is accepted, and a configured password refuses a request without the header |
| Access.StoreConfiguredEither | api/analytics/track.ts:155-158 | the store is used exactly when a URL and a token are set, each under the KV or the Upstash name |
| Track.LookupIpinfo | api/analytics/track.ts:37-54 | the ipinfo step as run gives `FromIpinfo`, and reports whether the request threw |
| Track.DetectCompany | api/analytics/track.ts:18-82 | `detectCompany` as run, with the outer `try` skipping Clearbit after an ipinfo failure, computes `DetectionOf` |
| Track.NoCredentialsNoCompany | api/analytics/track.ts:37-58 | without either credential nothing is detected |
| Track.OrgCompany | api/analytics/track.ts:42-52 | without Clearbit, the company is present exactly for a present organisation that names no carrier, and is then the organisation without its AS number at 0.5, with no domain |
| Track.ClearbitOverrides | api/analytics/track.ts:65-79 | a Clearbit company sets company and domain at 0.9, unless the ipinfo request threw, in which case nothing is detected |
| Track.DetectionLevels | api/analytics/track.ts:33-70 | the confidence is one of 0, 0.5 and 0.9, and a domain only comes from Clearbit |
| Track.ClientIp | api/analytics/track.ts:128-131 | the client address is never empty |
| Track.ClientIpFirstHop | api/analytics/track.ts:129 | for a forwarded chain the address is the trimmed first hop, when that is not blank |
| Track.ClientIpFallback | api/analytics/track.ts:129-131 | without a usable forwarded address, the socket address, else `unknown` |
| Track.SplitHead | api/analytics/track.ts:129 | the first piece of a joined chain is its first hop |
| Track.VisitorId | api/analytics/track.ts:165 | the visitor id contains no `.` |
| Track.SplitThree | api/analytics/track.ts:165 | three colon-free pieces joined by `:` split back into themselves |
| Track.VisitorIdFields | api/analytics/track.ts:165 | an IPv4 id splits into `visitor`, the time and the dashed address, and the time reads back with `parseInt` |
| Track.ExecFour | api/analytics/track.ts:164-192 | four commands applied in order |
| Track.VisitWrites | api/analytics/track.ts:164-192 | a recorded visit stores its record under its id, heads the recent list, keeps at most 1000 ids and adds one to the day counter, leaving every other list and counter as it was |
| Track.FailedTrimOverflows | api/analytics/track.ts:173-184 | when LTRIM fails after LPUSH, a full recent list holds 1001 ids |
| Track.AnsweredVisitWrites | api/analytics/track.ts:164-192 | with some requests answered by an error: the record is stored unless the SET is rejected, the id heads the list unless the LPUSH is, the list is cut to 1000 unless the LTRIM is, the day counter gains one unless the INCR is, and no other key changes |
| Track.RejectedTrimOverflows | api/analytics/track.ts:180-184 | an LTRIM answered by an error leaves a full recent list holding 1001 ids |
| Track.RejectedIncrUncounted | api/analytics/track.ts:188-192 | an INCR answered by an error leaves the day count as it was while the record is stored and listed |
| Track.Issue | api/analytics/track.ts:166-192 | one request to the store: its command takes effect unless the store answers it with an error |
| Track.Notification | api/analytics/track.ts:85-118 | a notification is sent for every visit exactly when both the Resend key and the address are set |
| Track.PlannedCommands | api/analytics/track.ts:155-193 | the four writes of the visit when the store is configured, none otherwise |
| Track.WriteVisit | api/analytics/track.ts:164-192 | the four requests in order until the first that throws, each taking effect unless the store answers it with an error; completed exactly when none threw |
| Track.Record | api/analytics/track.ts:155-193 | the planned commands are issued up to the first that throws, those answered by an error leaving the store as it was, and recording completes exactly when none threw |
| Track.Handle | api/analytics/track.ts:120-203 | 405 for anything but POST and 500 without a body, with the store untouched; otherwise the store holds the effect of the issued requests that it did not reject, and the answer is 500 when a request threw, else 200 with the notification for the record, whether or not the store rejected a request |
| Visitors.PageLimit | api/analytics/visitors.ts:43-44 | the limit never exceeds 100; a missing, unparsable or zero limit is 50, otherwise the parsed number capped at 100 |
| Visitors.PageLimitDefault | api/analytics/visitors.ts:43-44 | a missing limit is 50 |
| Visitors.PageLimitDecimal | api/analytics/visitors.ts:43-44 | a decimal limit is capped at 100, and 0 means 50 |
| Visitors.PageOffsetDecimal | api/analytics/visitors.ts:43-45 | a missing offset is 0 and a decimal offset is read as it is |
| Visitors.PageSlice | api/analytics/visitors.ts:48-49 | a page at a non-negative offset is the contiguous slice from the offset, at most `limit` ids |
| Visitors.NegativeLimit | api/analytics/visitors.ts:44-49 | `limit=-1` passes the cap and requests `0 .. -2`, which is every id but the last however long the list is |
| Visitors.Collected | api/analytics/visitors.ts:65-82 | never more records than ids |
| Visitors.CollectedAll | api/analytics/visitors.ts:66-78 | when every id yields a record, each record sits at the position of its id |
| Visitors.CollectedNone | api/analytics/visitors.ts:79-81 | when no id yields a record the list is empty |
| Visitors.Collect | api/analytics/visitors.ts:65-82 | the fetch loop, which skips an id whose request throws, is not ok, has no result or does not parse, computes `Collected` |
| Visitors.CompanyKeys | api/analytics/visitors.ts:95-103 | at most one company key per record |
| Visitors.CountryKeys | api/analytics/visitors.ts:106-110 | one key per record: its country, or `Unknown` |
| Visitors.ReferrerKeys | api/analytics/visitors.ts:113-124 | one key per record: its referrer group |
| Visitors.CompanyKeysSnoc | api/analytics/visitors.ts:99-103 | one more record adds its company key, if any |
| Visitors.CountryKeysSnoc | api/analytics/visitors.ts:107-110 | one more record adds its country key |
| Visitors.ReferrerKeysSnoc | api/analytics/visitors.ts:114-124 | one more record adds its referrer key |
| Visitors.CompanyStep | api/analytics/visitors.ts:100-102 | one loop step bumps the company's count when the record has a company, and changes nothing otherwise |
| Visitors.CountryStep | api/analytics/visitors.ts:108-109 | one loop step bumps the record's country |
| Visitors.CountCompanies | api/analytics/visitors.ts:98-103 | the company `forEach` builds the tally of the company keys |
| Visitors.CountCountries | api/analytics/visitors.ts:106-110 | the country `forEach` builds the tally of the country keys |
| Visitors.CountReferrers | api/analytics/visitors.ts:113-124 | the referrer `forEach` builds the tally of the referrer groups |
| Visitors.CountsAddUp | api/analytics/visitors.ts:98-124 | the country counts and the referrer counts each add up to the number of records; the company counts add up to the records with a company |
| Visitors.UniqueCompaniesAreKeys | api/analytics/visitors.ts:95-103 | `uniqueCompanies` is the number of keys of the company counts |
| Visitors.MissingCountryIsUnknown | api/analytics/visitors.ts:108 | a record without a country is counted under `Unknown` |
| Visitors.CompanyKeysMembers | api/analytics/visitors.ts:95-100 | a name is counted exactly when some record has it as a non-empty company |
| Visitors.TodayIsCounter | api/analytics/visitors.ts:86-92 | the number shown for today is the day's counter, 0 when there is none |
| Visitors.Summarize | api/analytics/visitors.ts:94-135 | the three loops and the distinct count compute `StatsOf`, whose total is the records plus the offset |
| Visitors.ListPage | api/analytics/visitors.ts:64-135 | the listing is the collected records of the page with their statistics and the day's counter, shown as 0 when the store answers that request with an error; a throwing request for the counter gives 500 `Internal server error` |
| Visitors.Handle | api/analytics/visitors.ts:17-141 | 405 for anything but GET, 401 for a wrong token under a configured password, zeroed statistics without a store, 500 when the list request or the request for the day's counter throws, else the page's records and statistics with the day's counter, or 0 when the store answers that request with an error |
| Counts.Bump | api/analytics/visitors.ts:101 | `counts[k] = (counts[k] \|\| 0) + 1`: adds `k`, raises its count by one and leaves other counts alone |
| Counts.SumRemove | api/analytics/visitors.ts:98-124 | the sum of a count map splits off any one key |
| Counts.SumBump | api/analytics/visitors.ts:101-123 | one bump adds exactly one to the sum |
| Counts.TallySnoc | api/analytics/visitors.ts:99-124 | counting one more key bumps its count |
| Counts.TallySum | api/analytics/visitors.ts:98-124 | the counts add up to the number of keys counted |
| Counts.OccurrencesSnoc | api/analytics/visitors.ts:99-124 | one more key adds one occurrence of itself |
| Counts.TallyCounts | api/analytics/visitors.ts:98-124 | a key is counted exactly when it occurs, and then with its number of occurrences |
| Counts.TallyKeys | api/analytics/visitors.ts:95 | the keys of the tally are exactly the distinct keys |
| Blog.StripMdx | src/lib/blog.ts:26 | one `.mdx` is removed exactly when the name ends with it, and nothing else changes |
| Blog.SlugFromPath | src/lib/blog.ts:24-27 | the slug holds no `/`: it is taken from the last path segment |
| Blog.MetaOf | src/lib/blog.ts:31-34 | a post is its module's frontmatter under the slug of its path, unless the frontmatter has a `slug` of its own, which, spread later, replaces it |
| Blog.SlugFromWrittenPath | src/lib/blog.ts:24-27 | a file `<slug>.mdx` in any directory is read back as `<slug>` |
| Blog.InsertPermutes | src/lib/blog.ts:35 | inserting one post adds exactly that post and loses none |
| Blog.InsertNoNewer | src/lib/blog.ts:35 | inserting brings in no post newer than a bound that the post and the list respect |
| Blog.ConsNewestFirst | src/lib/blog.ts:35 | a post no older than every post of a newest-first list can head it |
| Blog.TailNewestFirst | src/lib/blog.ts:35 | the tail of a newest-first list is newest first and holds nothing newer than the head |
| Blog.InsertNewestFirst | src/lib/blog.ts:35 | insertion keeps a list newest first |
| Blog.SortByDate | src/lib/blog.ts:35 | the comparator sort is a permutation of its input and orders it newest first |
| Blog.SortByDateStable | src/lib/blog.ts:35 | the sort is stable: the posts of any one date keep their order of the module table |
| Blog.StableStep | src/lib/blog.ts:35 | sorting one more post keeps each date's order when sorting the others did |
| Blog.SortByDateLast | src/lib/blog.ts:35 | the sort of a non-empty list inserts its last post into the sort of the others |
| Blog.InsertSameTime | src/lib/blog.ts:35 | insertion into a newest-first list places the post after every post of its own date |
| Blog.InsertAtHeadSameTime | src/lib/blog.ts:35 | a post newer than the head of a newest-first list comes after no post of its date |
| Blog.InsertBehindSameTime | src/lib/blog.ts:35 | inserting behind the head keeps the head before the inserted post |
| Blog.SameTimeAppend | src/lib/blog.ts:35 | the posts of one date in a concatenation are those of the first part, then those of the second |
| Blog.SameTimeNone | src/lib/blog.ts:35 | a list whose posts are all older than a date has none of that date |
| Blog.SameTimeSnoc | src/lib/blog.ts:35 | the posts of one date in a non-empty list: those before the last, then the last if it has that date |
| Blog.Metas | src/lib/blog.ts:30-34 | one post per module, in module order |
| Blog.AllPosts | src/lib/blog.ts:29-36 | `getAllPosts` lists every module's post exactly once, newest first |
| Blog.AllPostsFromModules | src/lib/blog.ts:29-36 | every listed post is the post of some module, under the slug of its path unless its frontmatter names another |
| Blog.AllPostsComplete | src/lib/blog.ts:29-36 | every module's post is listed |
| Blog.FirstWithSlug | src/lib/blog.ts:39-41 | the index of the first module whose path yields the slug, no earlier one does |
| Blog.PostBySlug | src/lib/blog.ts:38-48 | `null` exactly when no module's path has the slug; otherwise the post of the first module whose path has it, which reads back the slug unless its frontmatter overrides it |
| Blog.WrittenPostFound | src/lib/blog.ts:20-48 | in a glob table, the post whose key is `../../content/blog/<slug>.mdx` is the one found under the slug, and it reads back the slug when its frontmatter has none |
| Blog.GlobKey | src/lib/blog.ts:20 | the key of a file in the glob is the file's path behind `../../` |
| Blog.PostGlobKey | src/lib/blog.ts:20 | the key of the post file of a slug is `../../content/blog/<slug>.mdx` |
| Blog.GlobSlugsDistinct | src/lib/blog.ts:20-41 | two modules of a glob table whose paths give the same slug are the same module |
| Blog.OverriddenSlugNotFound | src/lib/blog.ts:29-47 | a frontmatter `slug` that no file name gives is listed by `getAllPosts`, but `getPostBySlug` on it answers `null` |
| BlogCreate.SlugFromPieces | api/blog/create.ts:29 | the character-by-character slug matcher accepts exactly the hyphen-separated words |
| BlogCreate.SlugIsWordsJoined | api/blog/create.ts:29 | a slug is accepted exactly when each hyphen-separated piece is a non-empty run of lower-case letters and digits |
| BlogCreate.SlugShape | api/blog/create.ts:29 | an accepted slug is not empty, does not start or end with a hyphen and has no doubled hyphen |
| BlogCreate.JoinedWordsAreSlug | api/blog/create.ts:29 | words joined by hyphens are accepted |
| BlogCreate.WordsFromCons | api/blog/create.ts:29 | the word test of a list with a head |
| BlogCreate.AllSlugCharsCons | api/blog/create.ts:29 | the character test of a string with a head |
| BlogCreate.NonEmpty | api/blog/create.ts:37 | `filter(Boolean)` keeps only non-empty items of the input, and all of them when none is empty |
| BlogCreate.TrimAll | api/blog/create.ts:37 | `map(t => t.trim())` trims each item |
| BlogCreate.TrimPiece | api/blog/create.ts:37 | a trimmed item is trimmed and keeps out a character the item did not hold |
| BlogCreate.TagsOfTextItems | api/blog/create.ts:37 | parsed tags are non-empty, trimmed and free of commas |
| BlogCreate.TagsOfJoinedText | api/blog/create.ts:34-38 | tags typed as a comma-and-space separated list are read back as the list |
| BlogCreate.Padded | api/blog/create.ts:37 | each later tag is read with one leading space |
| BlogCreate.JoinPadded | api/blog/create.ts:37 | joining by `, ` is joining the padded tags by `,` |
| BlogCreate.PiecesHaveNoComma | api/blog/create.ts:37 | the pieces of a joined tag list hold no comma |
| BlogCreate.JoinHead | api/blog/create.ts:45 | joining a list with a head |
| BlogCreate.JoinFirst | api/blog/create.ts:45 | joining splits off the first item |
| BlogCreate.JoinIsPiecesLong | api/blog/create.ts:37 | a joined list of two or more tags splits at its commas into the first tag and the padded rest |
| BlogCreate.JoinIsPieces | api/blog/create.ts:37 | a joined tag list is its pieces joined by `,` |
| BlogCreate.JoinedPieces | api/blog/create.ts:37 | a joined tag list splits at its commas into the first tag and the padded rest |
| BlogCreate.TrimTrimmed | api/blog/create.ts:37 | trimming leaves a trimmed text alone |
| BlogCreate.TrimPadded | api/blog/create.ts:37 | trimming removes the one leading space of a padded tag |
| BlogCreate.TrimmedPieces | api/blog/create.ts:37 | trimming the pieces gives back the tags |
| BlogCreate.TrimPieces | api/blog/create.ts:37 | trimming the split pieces of a joined list gives back the tags |
| BlogCreate.EscapeReadBack | api/blog/create.ts:42-44 | the quote escaping as written reads back as YAML when the text has no backslash: the value is the text and what follows the closing quote is left |
| BlogCreate.EscapeLosesTrailingBackslash | api/blog/create.ts:42-44 | the title `a\` escaped as written leaves its closing quote escaped, and YAML reads no value back |
| BlogCreate.ReadQuotedEscaped | api/blog/create.ts:42-44 | in a double-quoted YAML scalar, `\\` reads as a backslash and `\"` as a quote |
| BlogCreate.ReadQuotedPlain | api/blog/create.ts:42-44 | in a double-quoted YAML scalar, any character but a backslash or a quote reads as itself |
| BlogCreate.EscapeYamlReadBack | api/blog/create.ts:42-44 | the corrected escaping always reads back: the value is the text and what follows the closing quote is left |
| BlogCreate.EscapeYamlReadStep | api/blog/create.ts:42-44 | one more character of the corrected escaping reads back |
| BlogCreate.EscapeYamlCons | api/blog/create.ts:42-44 | the corrected escaping of a non-empty text begins with its first character, escaped when it is a backslash or a quote |
| BlogCreate.EscapedCharReadBack | api/blog/create.ts:42-44 | an escaped backslash or quote prepends that character to the value read |
| BlogCreate.PlainCharReadBack | api/blog/create.ts:42-44 | another character prepends itself to the value read |
| BlogCreate.EscapeYamlIsReplaceBoth | api/blog/create.ts:42-44 | the corrected escaping is the two global replacements, backslashes first |
| BlogCreate.EscapeYamlAgrees | api/blog/create.ts:42-44 | the corrected escaping agrees with the written one on text without a backslash |
| BlogCreate.EscapeYamlNotIn | api/blog/create.ts:42-44 | the corrected escaping brings in no character but a backslash |
| BlogCreate.QuoteAll | api/blog/create.ts:45 | every tag is quoted |
| BlogCreate.SplitSpace | api/blog/create.ts:46 | `split(/\s+/)` always gives at least one piece |
| BlogCreate.SplitSpaceNoSpace | api/blog/create.ts:46 | a text without white space is one piece |
| BlogCreate.SplitSpaceAfterWord | api/blog/create.ts:46 | a word and a space split off as the first piece |
| BlogCreate.SplitSpaceJoin | api/blog/create.ts:46 | words separated by single spaces are split back into the words |
| BlogCreate.ReadingMinutesBlocks | api/blog/create.ts:46 | at least one minute, and otherwise the number of started blocks of 200 words |
| BlogCreate.ReadingTimeOfWords | api/blog/create.ts:46 | a text of `n` words reads in `max(1, ceil(n / 200))` minutes, written `<n> min read` |
| BlogCreate.FrontmatterLines | api/blog/create.ts:40-48 | seven lines, opened and closed by `---`, with title and description in the corrected escaping |
| BlogCreate.FrontmatterAsWritten | api/blog/create.ts:42-44 | without a backslash in the title or the description, their lines are exactly the ones the route writes with its quote-only escaping |
| BlogCreate.FrontmatterDoublesBackslash | api/blog/create.ts:42-44 | the title `a\` is written with a doubled backslash here, a line the route does not write |
| BlogCreate.NotInConcat | api/blog/create.ts:40-48 | a character absent from two texts is absent from their concatenation |
| BlogCreate.NotInJoin | api/blog/create.ts:40-48 | a character absent from the items and the separator is absent from the join |
| BlogCreate.FrontmatterHasSevenLines | api/blog/create.ts:40-48 | field values without line breaks give a frontmatter that splits back into exactly its seven lines |
| BlogCreate.CommitOf | api/blog/create.ts:50-66 | the commit is for `content/blog/<slug>.mdx` with the message `Add blog post: <title>` |
| BlogCreate.Published | api/blog/create.ts:70-87 | 201 with `/blog/<slug>` on success, 409 for GitHub's 422, GitHub's status otherwise, 500 when the request or the error body throws |
| BlogCreate.Rejection | api/blog/create.ts:4-31 | no early answer exactly for an authorised POST with GitHub configured, the four required fields and a well-formed slug; early answers are 400, 401, 405 or 500 |
| BlogCreate.Handle | api/blog/create.ts:3-88 | a commit is requested exactly when no early answer applies, and the answer is then the outcome of the commit |
| BlogCreate.MethodCheckedFirst | api/blog/create.ts:4-6 | a non-POST request is refused before anything else |
| BlogCreate.AuthCheckedBeforeBody | api/blog/create.ts:8-13 | a wrong token under a configured password is refused before the configuration and the body |
| BlogCreate.ConfigCheckedBeforeFields | api/blog/create.ts:15-20 | an authorised POST without a GitHub token or repository gets 500 `GitHub integration not configured`, whatever its body |
| BlogCreate.FieldsCheckedBeforeSlug | api/blog/create.ts:22-26 | with GitHub configured, a body missing a required field gets the 400 naming the fields, whatever its slug |
| BlogCreate.SlugCheckedLast | api/blog/create.ts:28-31 | a body with every required field but an ill-formed slug gets the slug's 400 and nothing is committed |
| BlogCreate.PublishedPathHoldsSlug | api/blog/create.ts:51-83 | a published post is at the path of its slug, and the blog index reads that path back as the slug, both as written and as the glob's key |
| BlogCreate.SlugPathReadsBack | api/blog/create.ts:51 | the file of a well-formed slug reads back as the slug, both as written and as the glob's key |
| BlogCreate.SlugHasNoSlash | api/blog/create.ts:28 | a well-formed slug holds no `/` |
| BlogCreate.PublishedPostFound | api/blog/create.ts:51-83 | once a post is published, the blog index finds the published file's module under its slug in any glob table that holds it, and the post reads back the slug when its frontmatter has none |
| Notify.Shown | api/notify.ts:44 | a template slot prints the value, or `undefined` when it is missing |
| Notify.PriorityEmoji | api/notify.ts:24-44 | an emoji entry exists exactly for a missing priority or one of `low`, `normal`, `high`, and it is empty exactly for `low` |
| Notify.SubjectLineParts | api/notify.ts:44 | the subject line is the emoji, the bracketed type and then the subject, which is its suffix |
| Notify.LowPriorityPlain | api/notify.ts:39-44 | a low-priority subject has no emoji |
| Notify.DefaultPriority | api/notify.ts:24 | a missing priority is the normal priority |
| Notify.Paragraph | api/notify.ts:97 | the paragraph holds no line break |
| Notify.ParagraphLines | api/notify.ts:97 | the paragraph is the body's lines joined by `<br>`, three characters longer per line break |
| Notify.Details | api/notify.ts:47-64 | a details table exactly for metadata with at least one entry, one row per entry in order |
| Notify.Refusal | api/notify.ts:13-35 | no early answer exactly for a POST whose secret header equals the configured secret, with a body, a truthy subject and body, and mail configured |
| Notify.Answer | api/notify.ts:110-120 | 200 exactly when Resend answered ok; 500 `Failed to send email` for a readable error, 500 `Internal server error` when anything throws |
| Notify.Handle | api/notify.ts:11-121 | the status is one of 200, 400, 401, 405 and 500, and a message is sent exactly when no early answer applies |
| Notify.MethodFirst | api/notify.ts:13-15 | a non-POST request is refused first |
| Notify.SecretChecked | api/notify.ts:18-21 | a differing secret is refused whatever the body; with no secret configured a request without the header passes |
| Notify.MissingFieldsRejected | api/notify.ts:24-28 | a request that passes the secret check but lacks a subject or a body gets 400 `Subject and body required`, whether or not mail is configured |
| Notify.UnconfiguredMail | api/notify.ts:30-35 | without a mail configuration a valid request succeeds with `success: false` and nothing is sent |
| Notify.SentMessage | api/notify.ts:44-116 | a sent message goes to the configured address with the composed subject, the subject as heading, the body's lines joined by `<br>` and the details; `success: true` exactly when Resend answered ok |
| DevApi.DevTrack | vite.config.ts:45-48 | every tracking request succeeds with `dev: true`, and no store is involved |
| DevApi.DevStoreIsStore | vite.config.ts:41-66 | a store the development server uses is one the deployed endpoint uses too; one set up under the Upstash names only is not seen |
| DevApi.DevIds | vite.config.ts:79-81 | at most 50 ids are read |
| DevApi.DevIdsDefaultPage | vite.config.ts:79 | the ids read are the 50 newest, the deployed endpoint's default page |
| DevApi.DevStatsAgree | vite.config.ts:104-121 | the statistics agree with the deployed endpoint's at offset 0, but for the missing referrer counts |
| DevApi.DevStatsAddUp | vite.config.ts:104-121 | the country counts add up to the total, and `uniqueCompanies` is the number of counted companies |
| DevApi.CountBoth | vite.config.ts:104-110 | the one `forEach` builds the tallies of the company keys and of the country keys |
| DevApi.DevListPage | vite.config.ts:83-126 | the listing is the collected records with their statistics and the day's counter, shown as 0 when the store answers that request with an error; a throwing request for that counter gives 500 `Failed to fetch analytics` |
| DevApi.DevVisitors | vite.config.ts:51-128 | 405 for anything but GET, 401 for a wrong token, zeroed statistics without the KV names, 500 when the list answer fails to parse or the request for the day's counter throws, else the records of ids `0..49` with their statistics and the day's counter, or 0 when the store answers that request with an error |
| DevApi.DevRejection | vite.config.ts:131-184 | no early answer exactly for an authorised POST with GitHub configured and a JSON object holding the four required fields; a body that is not JSON is refused before the fields are looked at |
| DevApi.DevCreate | vite.config.ts:131-245 | a commit is requested exactly when no early answer applies |
| DevApi.InvalidJsonFirst | vite.config.ts:164-172 | a body that is not JSON gets 400 `Invalid JSON body` and no commit |
| DevApi.DevCreateAgrees | vite.config.ts:186-244 | with a well-formed slug the development route writes the same file with the same message and answers as the deployed endpoint does |
| DevApi.DevSkipsSlugCheck | vite.config.ts:179-204 | an ill-formed slug is committed at its path, where the deployed endpoint refuses it with 400 |
| Landing.SubstringTo | main.js:27-30 | `substring(0, end)` is a prefix, and exactly `s[..end]` for an end within the text |
| Landing.OptionOr | main.js:15-17 | a missing or zero option takes the default |
| Landing.Step | main.js:22-45 | a step stays within the texts |
| Landing.Delay | main.js:34-37 | the next delay is the type speed, the delete speed or the pause |
| Landing.StartReachable | main.js:12-14 | the initial position is one the animation passes through |
| Landing.StepReachable | main.js:22-45 | with non-empty texts each step keeps the text index in range and the character index between 0 and the current text's length |
| Landing.StepShowsPrefix | main.js:26-32 | after each step the element shows the first `charIndex` characters of the current text followed by the cursor |
| Landing.StepDirection | main.js:26-42 | typing goes up by one and deleting down by one; completing a text turns to deleting after the pause, and emptying it turns to typing the next text, cyclically |
| Landing.EmptyTextKeepsTyping | main.js:36 | an empty text is never finished: typing it runs past its end without turning |
| Landing.Run | main.js:44 | repeated steps stay within the texts |
| Landing.RunAdd | main.js:44 | `a + b` steps are `a` steps followed by `b` steps |
| Landing.TypeUp | main.js:29-31 | short of the end, `k` typing steps add `k` characters |
| Landing.DeleteDown | main.js:26-28 | above one character, `k` deleting steps remove `k` characters |
| Landing.Cycle | main.js:22-45 | a text of `n` characters is typed out and deleted again in `2n` steps, after which the next text starts from nothing |
| Landing.TypingAnimation.constructor | main.js:9-20 | the initial position with the `\|\|` defaults 60, 30 and 800, after the first step |
| Landing.TypingAnimation.Type | main.js:22-45 | `type()` moves to `Step`, writes `Shown` and schedules after `Delay` |
| Landing.NextTheme | main.js:253 | `light` becomes `dark` and anything else, a missing attribute included, `light` |
| Landing.ToggleTwice | main.js:250-257 | two toggles restore a light or dark theme; a page without the attribute ends up dark |
| Landing.InitialTheme | main.js:336-345 | a saved theme wins; without one a page that does not prefer dark gets `light`; otherwise the attribute is left alone |
| Landing.ThemeDocument.ToggleTheme | main.js:250-257 | the new theme is set and saved |
| Landing.ThemeDocument.InitializeTheme | main.js:336-345 | the attribute becomes `InitialTheme`, and storage is only read |
| Landing.FirstIndex | main.js:145-182 | the first child of a kind: none before it, and the length exactly when there is none |
| Landing.RemoveFirst | main.js:145-185 | `remove()` on the first child of a kind takes exactly one such child out, and changes nothing when there is none |
| Landing.IndicatorsAppend | main.js:176 | indicators of a concatenation add up |
| Landing.IndicatorsAbsent | main.js:183 | a list without an indicator counts none |
| Landing.IndicatorsRemoveFirst | main.js:182-185 | removing the first child of a kind takes away one indicator exactly when it removes one |
| Landing.IndicatorsSplice | main.js:182-185 | taking out one child takes away its indicator, if it is one |
| Landing.ChatWidget.AddMessage | main.js:133-155 | the welcome message goes and the message is appended, nothing else changes, and without a list nothing happens |
| Landing.ChatWidget.ShowError | main.js:190-199 | the error note is appended to the list, when there is one |
| Landing.ChatWidget.ShowTyping | main.js:158-178 | nothing while the flag is set or without a list; otherwise one indicator is appended and the flag set, so there is never more than one |
| Landing.ChatWidget.HideTyping | main.js:181-187 | the indicator goes and the flag is cleared |
| Landing.ChatWidget.SendMessage | main.js:202-231 | nothing happens when a control is missing, the trimmed input is empty or the button is disabled; otherwise the trimmed text is sent, the input cleared and the button disabled |
| Landing.ChatWidget.ReceiveReply | main.js:233-246 | the client connects first, and a failed connection appends its note; the indicator goes; a prediction after a connection appends its reply, otherwise the apology follows; the button is enabled again |
| Landing.ChatWidget.Connect | main.js:96-109 | nothing once connected; otherwise a failed attempt leaves the widget unconnected and appends the connection note, and a successful one connects it |
| Landing.ReplyText | main.js:112-130 | the reply is the first datum when truthy, else `Sorry, I didn't receive a proper response.` |
| Landing.ExchangeAppends | main.js:202-247 | a message and its reply leave the earlier list with the two messages appended and no indicator |
| Landing.ConnectFailureAppends | main.js:202-247 | a message sent before the client could connect leaves the earlier list with the message, the connection note and the apology appended, and no indicator |
| ThemeStore.Flip | src/stores/theme.ts:16 | a toggle always changes the theme |
| ThemeStore.Toggled | src/stores/theme.ts:14-19 | the theme changes and the `light` class follows it |
| ThemeStore.WithTheme | src/stores/theme.ts:20-24 | exactly the given theme is set and the `light` class follows it |
| ThemeStore.Rehydrated | src/stores/theme.ts:28-32 | the theme of the state the callback receives brings the `light` class in step with it; a callback without state changes nothing |
| ThemeStore.ToggleTwice | src/stores/theme.ts:14-19 | two toggles give back the theme, and the whole state when it was in step |
| ThemeStore.SetThemeIdempotent | src/stores/theme.ts:20-24 | setting a theme twice is setting it once, whatever the state before |
| ThemeStore.ToggleIsSet | src/stores/theme.ts:14-24 | a toggle is setting the other theme |
| ThemeStore.ThemeStoreObject.constructor | src/stores/theme.ts:13 | the store starts dark |
| ThemeStore.ThemeStoreObject.ToggleTheme | src/stores/theme.ts:14-19 | the new state is `Toggled` of the old |
| ThemeStore.ThemeStoreObject.SetTheme | src/stores/theme.ts:20-24 | the new state is `WithTheme` of the old |
| ThemeStore.ThemeStoreObject.Rehydrate | src/stores/theme.ts:28-32 | the new state is `Rehydrated` of the old |
| ChatStore.Apply | src/stores/chat.ts:24-37 | adding appends one message and keeps the earlier ones; each setter changes only its own flag and no message |
| ChatStore.RunMessages | src/stores/chat.ts:24-37 | after any run of actions the conversation is the messages added since the last clear, after the earlier ones when nothing was cleared |
| ChatStore.FromInitial | src/stores/chat.ts:21-37 | from the initial state the conversation is exactly the messages added since the last clear |
| ChatStore.SettersCommute | src/stores/chat.ts:24-36 | the two flag setters commute with each other and with adding a message |
| ChatStore.ChatStoreObject.constructor | src/stores/chat.ts:21-23 | no messages, not loading, not connected |
| ChatStore.ChatStoreObject.AddMessage | src/stores/chat.ts:24-34 | exactly one message with the given content and role is appended, with the identifier and the time stamp supplied |
| ChatStore.ChatStoreObject.SetLoading | src/stores/chat.ts:35 | only the loading flag changes |
| ChatStore.ChatStoreObject.SetConnected | src/stores/chat.ts:36 | only the connected flag changes |
| ChatStore.ChatStoreObject.ClearMessages | src/stores/chat.ts:37 | the messages are emptied and the flags kept |
| ChatInput.BlankIsSpaces | src/components/chat/ChatInput.tsx:22-23 | a text is blank after trimming exactly when it is all white space |
| ChatInput.Height | src/components/chat/ChatInput.tsx:17 | the height never exceeds 120 and is the content height below that |
| ChatInput.Submitted | src/components/chat/ChatInput.tsx:21-27 | something is sent exactly when the button would be enabled, and then the trimmed, non-empty text |
| ChatInput.ChatInputBox.Change | src/components/chat/ChatInput.tsx:42 | the text becomes the typed value |
| ChatInput.ChatInputBox.Resize | src/components/chat/ChatInput.tsx:14-19 | the height becomes `min(scrollHeight, 120)` |
| ChatInput.ChatInputBox.HandleSubmit | src/components/chat/ChatInput.tsx:21-27 | the trimmed text is sent and the box cleared exactly when it is not blank and the box is enabled; otherwise nothing changes |
| ChatInput.ChatInputBox.HandleKeyDown | src/components/chat/ChatInput.tsx:29-34 | Enter without Shift cancels the default and submits; any other key sends nothing and changes nothing |
| ChatInput.KeyMatchesButton | src/components/chat/ChatInput.tsx:23-53 | nothing is sent exactly when the button is disabled, in particular from a box holding only white space |
| ChatInput.ChatInputBox.constructor | src/components/chat/ChatInput.tsx:10 | the box starts empty |

## Left out

- Network and foreign calls are inputs, not requests. This covers ipinfo, Clearbit, dns.google, Resend, GitHub and the Upstash REST store. Each answer is a parameter (a lookup function or an outcome datatype). A store request either throws, given as the index of the first that does, or is answered; the set of answered requests that the store rejects with `ok: false` is a parameter too. The handlers do not inspect those answers.
- `Date.now()`, `toISOString`, `crypto.randomUUID`, `JSON.parse`/`JSON.stringify`, `new URL(...).hostname` and `Buffer` base64 are parameters or uninterpreted inputs. The model does not implement the URL standard or base64.
- The regular-expression engine is not modelled. The company table is a list of case-insensitive substring alternatives; the slug and `AS<digits>` patterns are recursive predicates. Case folding is ASCII lower-casing, which is exact for the table's ASCII patterns.
- Timers and asynchronous ordering are left out: `setTimeout` rescheduling of the typing animation, `await`, concurrent requests to the same store. `TypingAnimation.Type` is one step; the delay it chooses is a field.
- DOM details without state of interest are left out: scrolling the chat list, focusing the input, the `style.height = 'auto'` reset, and console logging.
- The chat widget's welcome message and its controls come from the page's HTML. The constructor takes which controls exist as arguments.
- `Landing.ChatWidget.ReceiveReply` takes the prediction as an input: the first datum of `client.predict`, or a thrown error. `Client.connect` is a foreign call; whether it throws is an input of `Landing.ChatWidget.Connect`, which models `initGradioClient`, also called once on page load (main.js:373).
- `Landing.TypingAnimation.constructor` requires at least one text. With an empty list the current text is `undefined` in the page script and the first step throws; the model does not reproduce that. An empty text within the list is covered: `Landing.EmptyTextKeepsTyping`.
- The HTML and CSS markup of the notification e-mail and of the visit notification is left out. The model keeps only the heading, the paragraph and the details rows.
- `Notify.PriorityEmoji` does not model priorities that name properties inherited by plain objects, such as `constructor`. The model treats them as having no entry.
- Notify: a Resend error answer whose body cannot be read as JSON is modelled as the catch-all 500 `Internal server error`. This is the path on which reading the body throws.
- `DevApi.DevRejection`: a `null` JSON body makes the development route's destructuring throw. The model answers that case with a 500, while the development server leaves the request without an answer.
- The floating-point display of confidence (`Math.round(conf * 100)`) is not modelled, because confidence is in hundredths.
- `ThemeStore.ThemeStoreObject.Rehydrate`: the persist middleware's storage format is not modelled. The argument is the theme of the state the callback receives; with empty storage that is the current theme, and `None` stands for the callback receiving no state, as on a hydration error.
- Thin wrappers are not part of this model: `src/lib/gradio.ts`, `src/lib/analytics.ts` and `src/components/chat/ChatContainer.tsx`. The chat store that `ChatContainer` drives is modelled.
- Presentation code is not modelled: pages, sections, the header, footer, buttons, animated text and chat message components.
- Three.js scenes and floating-point scroll or tilt effects are not modelled.
- Static data files (projects, skills, experience) have no behaviour and are not modelled.
- `Visitors.CountsAddUp`: the count maps are modelled as maps with no keys of their own. In the source they are plain objects. A key naming an inherited property, such as a `constructor` referrer, starts from that property's value and not from 0. A `__proto__` key is not stored at all. The sums stated here hold only for keys that are not such property names. The same holds for `Visitors.CountCompanies`, `Visitors.CountCountries`, `Visitors.CountReferrers` and `DevApi.CountBoth`.
- `Text.Prefix`: strings are sequences of code points. JavaScript's `substring` and `length` count UTF-16 code units, so a prefix of 30 units (the referrer key) can split a surrogate pair, which the model cannot express. This holds for texts outside the Basic Multilingual Plane only.
- `Landing.SubstringTo`: the same difference between code points and UTF-16 units applies to the typing animation's `substring(0, charIndex)` on texts outside the Basic Multilingual Plane.
- `Visitors.Handle`: a list answer that is ok but cannot be read as JSON is folded into `listOk`, giving the same 500.
- `Text.ParseIntNatToString`: numbers are unbounded naturals. JavaScript numbers are doubles, which are exact only up to 2^53 and print in exponent form (`1e+21`) from 10^21 on, so the round trip holds only below those bounds. This also applies to the `offset` and `limit` query values (`Visitors.PageOffset`, `Visitors.PageLimit`), the day counter and the millisecond clock in the visitor id.
- `Blog.SortByDate`: the time of a date is a total function to integers, so a date that `new Date` cannot parse, whose time is NaN, is not represented. With such a date the comparator answers NaN and the order `sort` produces is not specified. The same holds for `Blog.AllPosts`, `Blog.SortByDateStable` and `Blog.AllPostsFromModules`.
- `Blog.MetaOf`: the frontmatter is modelled as the declared fields plus an optional string `slug`. Further keys would also be spread into the post; they, and a `slug` that is not a string, are not modelled.
- `BlogCreate.QuoteAll`: tags, the date and the reading time are written between quotes without escaping, as the route does. A tag holding a quote or a backslash gives frontmatter that does not read back; only title and description are escaped.
- `BlogCreate.FrontmatterLines`: the title and description lines use the corrected escaping `BlogCreate.EscapeYaml` (see "## Findings"), not the route's quote-only escaping. A backslash in a title or description is committed doubled, where the route commits it single, so `BlogCreate.CommitOf`, `BlogCreate.Handle` and `DevApi.DevCreate` describe the file the route evidently intends rather than the one it writes. Without a backslash the two are the same line for line (`BlogCreate.FrontmatterAsWritten`); `BlogCreate.FrontmatterDoublesBackslash` shows the difference on `a\`.

## Findings

| source | as written | input that shows it | evidently intended | confidence | as-written member | corrected member |
|---|---|---|---|---|---|---|
| api/blog/create.ts:42-44 | title and description escape only `"`, so a backslash stays as it is | the title `a\` gives `title: "a\"`, whose closing quote is escaped and which YAML cannot read | escape `\` first, then `"`, so the value always reads back | not executed | BlogCreate.EscapeLosesTrailingBackslash | BlogCreate.EscapeYamlReadBack |

The frontmatter model (`BlogCreate.FrontmatterLines`) uses the corrected escaping `BlogCreate.EscapeYaml`. `BlogCreate.EscapeYamlAgrees` shows that it writes the same text as the route for every value without a backslash.

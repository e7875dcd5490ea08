# ip-spyclub core, modelled in Dafny

ip-spyclub is a web tool that shows what a visitor's connection reveals about them. This
project models its decision logic:

- **The DNS leak tests.** There are three of them:
  - the in-browser four-probe test (`DNSLeakTestService`);
  - the `dns-leak-test` edge function, which runs the same probes server-side and compares
    every resolver against Romania;
  - the hidden test page that `DNSLeakIframeService` loads in an iframe, together with the
    host-side single-flight state machine that drives it.

  All three share the browserleaks payload parser, the probe schedule (IPv4, IPv4, IPv6, IPv6,
  one second apart) and the summary helpers of `dnsUtils`: leak rule, unique counts, average
  time and provider buckets.
- **The Scamalytics edge function**: request validation, risk tiers, the blacklist-source list
  and the field defaults of its answer.
- **The IP analysis summary**: `isBlacklisted` and `blacklistCount`, and the placeholder fraud
  analysis.
- **Three UI rules**:
  - the fraud-score colour and label of `SecurityCard`;
  - the address check of `SearchSection`;
  - the GMT offset, timezone match and device type of `BrowserAnalysisCard`.

Modules:

- `Js` holds the JavaScript value semantics the code relies on: JSON values, truthiness, `||`,
  `?.`, property reads that throw on null, `Object.entries`/`Object.values`, `toLowerCase` (on
  ASCII letters only),
  `includes`, `split(', ')[0]` and the `\s` white-space class.
- `DnsTypes` holds the records of `src/types/dns.ts`.
- `DnsUtils` holds `src/utils/dnsUtils.ts`.
- `DnsParse` holds the parser. Its three copies (dnsApiClient, dnsLeakTestService and the edge function) behave identically, so it is defined once.
- `DnsPipeline` holds what the two four-probe tests share.
- `LeakTestService` and `EdgeDnsLeakTest` hold the two four-probe tests.
- `IframePage` and `IframeHost` hold the iframe test.
- `Scamalytics`, `IpAnalysis`, `SecurityCard`, `SearchSection` and `BrowserAnalysis` hold the
  rest.

How inputs and randomness are modelled:

- Network replies are inputs: a failed fetch is `None`, and a reply is the JSON value it
  parsed to.
- Values drawn with `Math.random` (asn, response time, reliability, subdomain labels, the
  placeholder score) are nondeterministic choices. The model states only their bounds or
  alphabet.
- Records are compared through `Shapes`, which erases those drawn fields.

Three behaviours of the code that are easy to misread:

- No step deduplicates servers by address. The probe loop appends every parsed record, and the
  page's `Set` holds object literals, which are all distinct.
- The parser can throw: `location.split` on a non-string location is a TypeError. In the
  edge function nothing catches it, so the whole run ends with a 500 and the error result. In
  the browser's four-probe test the parse sits inside `fetchDNSData`'s `try`, whose `catch`
  returns null, so only that probe is dropped and the run goes on.
- The three leak rules really do differ:
  - the first server's country, compared ignoring case;
  - a fixed "romania", compared ignoring case;
  - a substring test for "Romania" that skips "Unknown" and "Local Network".

## Model

| member | source | states |
|---|---|---|
| DnsUtils.GenerateRandomString | src/utils/dnsUtils.ts:4-11 | the result has exactly `length` characters (none when `length` is not positive), each from the 36-character alphabet a-z0-9 |
| DnsUtils.DetectLeakIff | src/utils/dnsUtils.ts:17-21 | with string or falsy countries, detectLeak never throws and is true exactly when some server has a non-empty country whose lowercase differs from the user country's lowercase; an empty list gives false |
| DnsUtils.NonTextCountryNeverClean | src/utils/dnsUtils.ts:18-20 | a truthy country that is not a string makes the test throw unless an earlier server already reported a leak: the result is never a clean `false` |
| DnsUtils.DetectLeakIgnoresCase | src/utils/dnsUtils.ts:19 | "GERMANY" and "germany" against "Germany" are no leak; adding "France" is a leak |
| DnsUtils.TotalTimeBetween | src/utils/dnsUtils.ts:23-26 | when every `responseTime \|\| 0` lies in [lo, hi], the sum lies between n·lo and n·hi |
| DnsUtils.AverageBetween | src/utils/dnsUtils.ts:23-26 | the exact average of a non-empty list, and its rounding, lie between any bounds of the `responseTime \|\| 0` values |
| DnsUtils.DistinctCountBound | src/utils/dnsUtils.ts:28-34 | the count of distinct Set elements other than the excluded value is at most the number of values, and is zero exactly when every value is the excluded one |
| DnsUtils.UniqueCountsBounded | src/utils/dnsUtils.ts:28-34 | getUniqueCountries and getUniqueISPs never exceed the number of servers; the country count is zero exactly when every country is "Unknown" (a missing country counts as a value) |
| DnsUtils.ServersWithIspSpec | src/utils/dnsUtils.ts:36-43 | a provider bucket is an order-preserving subsequence of the servers holding exactly those whose lowercased isp contains the key |
| DnsUtils.GroupByProviderSpec | src/utils/dnsUtils.ts:36-43 | grouping throws exactly when some isp is neither absent, null nor a string; otherwise each of the four buckets is its substring filter, and one server may sit in several |
| DnsParse.BuildServer | src/services/dnsApiClient.ts:47-68 | the record of one kept entry with a text location is the reference record of that entry once its drawn fields are erased, and its drawn asn and response time are in range |
| DnsParse.ParseEntries | src/services/dnsApiClient.ts:44-73 | the loop over the entries throws exactly when the reference parse of the entries throws; otherwise its records, drawn fields erased, are that parse, each with its drawn fields in range |
| DnsParse.ParseDnsResponse | src/services/dnsApiClient.ts:38-74 | a falsy or entry-less payload gives []; the parse throws exactly when the reference parse throws; otherwise the records, drawn fields erased, are the reference parse, and every drawn field is in range (asn "AS" + 10000..99999, time 10..109) |
| DnsParse.ParseEntriesShapeSpec | src/services/dnsApiClient.ts:44-73 | one record per entry that is an array of three or more, in entry order (so no more records than entries), each with ip, hostname, country, isp = org = details[2], location verbatim, type resolver, port 53 and UDP/UDP6 by family |
| DnsParse.ParseEntriesThrowsIff | src/services/dnsApiClient.ts:47-51 | the parse throws exactly when some kept entry has a location that is not a string |
| DnsParse.PrefixThrows | src/services/dnsApiClient.ts:46-71 | a throw in the first entries is a throw of the whole parse |
| DnsParse.SkippedEntryIgnored | src/services/dnsApiClient.ts:46-47 | an entry that is not an array of three or more is skipped on its own: the entries around it parse as if it were absent |
| DnsParse.NothingKeptParsesEmpty | src/services/dnsApiClient.ts:46-47 | a payload with no kept entry parses to the empty list |
| DnsParse.StringPayloadParsesEmpty | src/services/dnsApiClient.ts:46-47 | a JSON string payload (whose entries are its characters) parses to the empty list |
| DnsParse.ParsedCountries | src/services/dnsApiClient.ts:50-56 | every parsed record has a non-empty string country |
| DnsParse.CountryOfSpec | src/services/dnsApiClient.ts:50-51 | the country is the text before the first ", " (the whole location when there is none), or "Unknown" when that text is empty; it is never empty and never contains ", " |
| DnsParse.HostnameSpec | src/services/dnsApiClient.ts:55 | the hostname is "ipv4"/"ipv6", "-dns-", the test number in decimal and "-", followed by the address character by character with each '.' and ':' replaced by '-'; so it holds no '.' or ':' |
| DnsPipeline.ScheduleSteps | src/services/dnsLeakTestService.ts:103-124 | the loop's trace is fetch v4 #1, pause 1000, fetch v4 #2, pause 1000, fetch v6 #3, pause 1000, fetch v6 #4, with no pause after the last probe |
| DnsPipeline.StepsPrefix | src/services/dnsLeakTestService.ts:110-124 | the trace of the first k probes is a prefix of the full trace |
| DnsPipeline.AggregateSpec | src/services/dnsLeakTestService.ts:126-172 | the run completes exactly when neither the leak rule nor a provider filter throws; it then keeps every collected record, counts them all, bounds the unique counts by that number and chooses the message by the leak flag alone; otherwise it is the error result |
| DnsPipeline.ErrorResultSpec | src/services/dnsLeakTestService.ts:177-198 | the error result has status error, no leak, no servers, all-zero details and four empty groups |
| DnsPipeline.AverageReported | src/services/dnsLeakTestService.ts:129-131 | the reported rounded average lies within any bounds of the collected records' times |
| LeakTestService.FetchDnsData | src/services/dnsLeakTestService.ts:14-56 | the fetch yields the parsed body, or null for a failed fetch; with a callback and a truthy body, the callback receives that body's records in order |
| LeakTestService.RunProbe | src/services/dnsLeakTestService.ts:113-118 | one probe adds the records of its body (nothing when it failed or the body is falsy), announces, when a callback is given, the same records once the drawn fields are erased (the callback's records come from a separate parse of the body, with their own asn, response time and reliability), and every added record is in range with a non-empty country |
| LeakTestService.PerformDnsLeakTest | src/services/dnsLeakTestService.ts:96-200 | the run's trace is the fixed schedule; the collected records are the concatenation, in probe order, of each probe's records, with no deduplication; the callback sees the same records once the drawn fields are erased (its records come from a separate parse of each body, with their own asn, response time and reliability); the result is the aggregation against the first server's country |
| LeakTestService.FailedProbeAddsNothing | src/services/dnsLeakTestService.ts:48-55 | a failed probe contributes no record and does not stop the loop |
| LeakTestService.ProbeIps | src/services/dnsLeakTestService.ts:115-118 | a probe adds one record per kept entry of its body, in entry order |
| LeakTestService.SameReplyFourTimes | src/services/dnsLeakTestService.ts:110-118 | the same body answering all four probes yields its addresses four times over: nothing is deduplicated |
| LeakTestService.ServiceResultSpec | src/services/dnsLeakTestService.ts:137-147 | with parsed (string) countries the run completes exactly when every isp is absent or text; leakDetected holds exactly when some country differs, ignoring case, from the first server's; an empty or uniform list gives no leak |
| EdgeDnsLeakTest.EdgeRunProbe | supabase/functions/dns-leak-test/index.ts:111-117 | one probe's parse throws exactly when the reference probe throws; otherwise its records, drawn fields erased, are the reference probe's, each with drawn fields in range and a non-empty text country |
| EdgeDnsLeakTest.RunProbes | supabase/functions/dns-leak-test/index.ts:108-122 | the loop throws exactly when the concatenated reference probes throw, its trace is always a prefix of the fixed schedule and all of it when nothing throws, and the collected records are the concatenation of the probes' records in order |
| EdgeDnsLeakTest.Serve | supabase/functions/dns-leak-test/index.ts:89-206 | OPTIONS answers 200 with no body and runs no probe; otherwise a parser throw in any probe gives 500 with the error result; else the four probes run on the fixed schedule, the records are concatenated in order, and the answer is 200 with the aggregation against "Romania" |
| EdgeDnsLeakTest.ThrowPropagates | supabase/functions/dns-leak-test/index.ts:108-122 | a throw while parsing one probe ends the whole run as a throw |
| EdgeDnsLeakTest.EdgeResultSpec | supabase/functions/dns-leak-test/index.ts:134-175 | the request succeeds exactly when every isp is absent or text; leakDetected holds exactly when some non-empty country is not "romania" ignoring case; the location is the fixed Romanian one whatever the servers |
| EdgeDnsLeakTest.NothingFoundNoLeak | supabase/functions/dns-leak-test/index.ts:127-175 | with no servers the request answers 200, completed, with no leak and zero servers |
| IframePage.FilterSpec | src/services/dnsLeakIframeService.ts:361-366 | a filter keeps its input's order and exactly the elements that pass |
| IframePage.DetectViaTiming | src/services/dnsLeakIframeService.ts:114-157 | the three lookups append their records, in order, to the shared list |
| IframePage.TimingRecordsSpec | src/services/dnsLeakIframeService.ts:141-154 | a record is added exactly for a lookup that threw within 50 ms, and it is the local-router record with that time |
| IframePage.DetectViaMultipleQueries | src/services/dnsLeakIframeService.ts:159-202 | the connectivity records are appended, in target order, to the shared list |
| IframePage.TierSpec | src/services/dnsLeakIframeService.ts:194 | reliability is high below 100 ms, medium from 100 to under 300, low from 300, and never improves as the time grows |
| IframePage.ConnectivityRecordsSpec | src/services/dnsLeakIframeService.ts:183-195 | a record exists exactly for each target that answered in under 1000 ms, with that target and time |
| IframePage.ConnectivityRecordFields | src/services/dnsLeakIframeService.ts:183-195 | a connectivity record carries its time, the tier of that time, the target's host and name, and a "detected-" hostname free of white space |
| IframePage.DetectViaBrowserLeaks | src/services/dnsLeakIframeService.ts:204-262 | the two probe URLs are a dns4 and a dns6 URL under random a-z0-9 labels; the list keeps what was found and appends the records of both replies, each with a time in 20..69 |
| IframePage.LeaksEntries | src/services/dnsLeakIframeService.ts:229-251 | one reply adds, in entry order, the records of its usable entries when it is a JSON object or array, and nothing otherwise |
| IframePage.LeaksEntriesSpec | src/services/dnsLeakIframeService.ts:229-250 | keys "undefined" and "0.0.0.0" add nothing; each record comes from an entry, with country = details[1] or "Unknown" and isp = details[2] or "Unknown ISP", without splitting |
| IframePage.LeaksFieldExamples | src/services/dnsLeakIframeService.ts:234-236 | "Germany, Berlin" is kept whole; a two-item array has isp "Unknown ISP"; an empty country gives "Unknown"; a non-array gives both defaults |
| IframePage.SecondUrlIsIpv6 | src/services/dnsLeakIframeService.ts:207-210 | the second URL contains "dns6", so its records use UDP6 |
| IframePage.PageLeakIff | src/services/dnsLeakIframeService.ts:331-337 | with string or falsy countries, the page reports a leak exactly when some country is truthy, not "Unknown", not "Local Network" and does not contain "Romania" |
| IframePage.PageLeakExamples | src/services/dnsLeakIframeService.ts:331-337 | a country ending in "Romania" (such as "Bucharest, Romania") is no leak; adding any other non-empty country of at most seven letters other than "Unknown" (such as "Germany") is a leak |
| IframePage.OriginBucketsSpec | src/services/dnsLeakIframeService.ts:361-366 | each bucket is an order-preserving subsequence; local is exactly the "Local Network" servers; public and isp are disjoint and cover every other server; international excludes Romania, Local Network and falsy countries |
| IframePage.ConnectivityBucket | src/services/dnsLeakIframeService.ts:162-167 | of the four connectivity targets only OpenDNS lands in the public bucket; the other three land in isp |
| IframePage.PostedResultSpec | src/services/dnsLeakIframeService.ts:321-394 | the posted result completes exactly when the page's leak test does not throw; it then reports every server, bounded counts and the message of its leak flag; otherwise it is the error result |
| IframePage.Detect | src/services/dnsLeakIframeService.ts:72-90 | the three detectors run in order on one list, whose records are the concatenation of their findings |
| IframePage.Announce | src/services/dnsLeakIframeService.ts:105-107 | one DNS_SERVER_DETECTED message per server, in order |
| IframePage.PerformRealDnsTest | src/services/dnsLeakIframeService.ts:59-112 | the fallback list is used exactly when the detectors found nothing; the page posts every server's announcement and then one DNS_TEST_COMPLETED with the posted result |
| IframeHost.Host.constructor | src/services/dnsLeakIframeService.ts:5-9 | the service starts with no run, no frame, no handler, no timer and no outcome |
| IframeHost.Host.Cleanup | src/services/dnsLeakIframeService.ts:484-489 | the iframe, if any, is removed from the document and forgotten; nothing else changes, so a second call changes nothing |
| IframeHost.Host.Finally | src/services/dnsLeakIframeService.ts:474-479 | after settlement the four static handles are null |
| IframeHost.Host.Start | src/services/dnsLeakIframeService.ts:400-482 | while a run is in flight the same run is returned and nothing changes; otherwise a new run gets its iframe, message handler and 15 s timer |
| IframeHost.Host.ServerDetectedMessage | src/services/dnsLeakIframeService.ts:419-423 | the registered callback, if any, receives the server once per registered handler; no other state changes |
| IframeHost.Host.TestCompletedMessage | src/services/dnsLeakIframeService.ts:424-430 | every handler removes itself, the iframe is cleaned up and the run resolves with the posted result; the handles are cleared |
| IframeHost.Host.LoadError | src/services/dnsLeakIframeService.ts:445-452 | the run's handler is removed, the iframe cleaned up and the run rejected with a load failure |
| IframeHost.Host.Timeout | src/services/dnsLeakIframeService.ts:460-467 | the timer's own handler is removed, the current iframe cleaned up, and whatever run is in flight is rejected with a timeout |
| IframeHost.StaleTimerScenario | src/services/dnsLeakIframeService.ts:460-467 | run 0 resolves, run 1 starts, run 0's timer fires: run 1 is rejected with a timeout and its handler and timer outlive it |
| IframeHost.DuplicateCallbackScenario | src/services/dnsLeakIframeService.ts:419-423 | after that, a third run's callback receives every detected server twice |
| IframeHost.GuardedHost.Start | src/services/dnsLeakIframeService.ts:403-432 | single flight as above, and the iframe, handler and timer exist exactly while their run is in flight |
| IframeHost.GuardedHost.ServerDetectedMessage | src/services/dnsLeakIframeService.ts:422-423 | the callback receives each detected server exactly once |
| IframeHost.GuardedHost.Timeout | src/services/dnsLeakIframeService.ts:460-467 | a timer that fires belongs to the run in flight, and rejects that run and no other |
| IframeHost.GuardedScenario | src/services/dnsLeakIframeService.ts:460-467 | on the corrected host, the scenario above leaves run 1 in flight with its own handler and timer only |
| Scamalytics.RiskTierByScore | supabase/functions/scamalytics-analysis/index.ts:97-102 | for a risk string that is no keyword, the tier is very high exactly from 75, high from 50 to 74, moderate from 25 to 49, low below 25 |
| Scamalytics.RiskTierMonotone | supabase/functions/scamalytics-analysis/index.ts:97-102 | for a fixed risk string a larger score never gives a lower tier |
| Scamalytics.RiskTierWithoutScore | supabase/functions/scamalytics-analysis/index.ts:97-102 | a score that is no number leaves only the risk keyword to decide the tier |
| Scamalytics.IspTierTextPrefixed | supabase/functions/scamalytics-analysis/index.ts:104-109 | every tier's ISP label is its plain label with "ISP " in front |
| Scamalytics.IspLevelPrefixed | supabase/functions/scamalytics-analysis/index.ts:104-109 | getIspRiskLevel is getRiskLevel with "ISP " in front |
| Scamalytics.TierTextInjective | supabase/functions/scamalytics-analysis/index.ts:97-102 | different tiers have different labels |
| Scamalytics.CollectBlacklistSources | supabase/functions/scamalytics-analysis/index.ts:112-124 | after the four checks, the list holds exactly the sources whose flag is truthy, in strictly increasing rank (IPSum, Spamhaus, IP2Proxy, X4BNet), and none when external_datasources is missing |
| Scamalytics.ListsNext | supabase/functions/scamalytics-analysis/index.ts:112-124 | one more check keeps that property for one more rank: the source is appended exactly when its flag is truthy |
| Scamalytics.ListedSources | supabase/functions/scamalytics-analysis/index.ts:112-124 | a finished list names a source exactly when its flag is truthy, lists each at most once in the order IPSum, Spamhaus, IP2Proxy, X4BNet, and is empty for a missing external_datasources |
| Scamalytics.ProcessAnswer | supabase/functions/scamalytics-analysis/index.ts:126-139 | each field is its upstream value or its default (0, false, "Unknown"); the two levels come from the tier rules; proxyDetected always equals isDatacenter; the blacklist sources are exactly the flagged ones in rank order; a missing scamalytics block gives zero scores, the low labels and false flags |
| Scamalytics.Serve | supabase/functions/scamalytics-analysis/index.ts:48-163 | OPTIONS answers 200 with no body; an unreadable body gives 500; a falsy ip gives 400 and missing credentials 500, both without an upstream call; otherwise the upstream is called and a null or failed answer gives 500, else 200 with a body that is the processed form of the upstream answer, field by field as ProcessAnswer states |
| IpAnalysis.CountTruthy | src/services/ipAnalysisService.ts:80 | the count is at most the number of values and positive exactly when some value is truthy |
| IpAnalysis.LookupReplaced | src/services/ipAnalysisService.ts:77-81 | overwriting a field changes no other field's value |
| IpAnalysis.LookupAssigned | src/services/ipAnalysisService.ts:77-81 | after the spread-and-override, the derived field has the new value and every other field its old one |
| IpAnalysis.BlacklistSummary | src/services/ipAnalysisService.ts:77-81 | isBlacklisted is true exactly when blacklistCount is positive, and false exactly when it is 0; the count is at most the number of blacklists; a missing blacklists field gives false and 0; every other field of the answer is kept |
| IpAnalysis.NullAnswerThrows | src/services/ipAnalysisService.ts:79 | a null answer makes the summary throw |
| IpAnalysis.GetScamalyticsAnalysis | src/services/ipAnalysisService.ts:170-175 | the placeholder score lies in 5..34 and the risk level is the fixed pending note |
| SecurityCard.ColorMatchesText | src/components/SecurityCard.tsx:12-24 | for every score the colour and the label are in the same tier |
| SecurityCard.DisplayMonotone | src/components/SecurityCard.tsx:12-24 | a higher score never shows a lower colour or label tier |
| SecurityCard.Boundaries | src/components/SecurityCard.tsx:12-24 | 24 is low, 25 moderate, 49 moderate, 50 high, 74 high, 75 very high |
| SecurityCard.TextAgreesWithScamalytics | src/components/SecurityCard.tsx:19-24 | the card's label equals the Scamalytics getRiskLevel for every score when the risk string is no keyword |
| SecurityCard.PlaceholderNeverHigh | src/components/SecurityCard.tsx:12-24 | a placeholder score always shows a low or moderate colour and label |
| SearchSection.DigitRun | src/components/SearchSection.tsx:28 | the leading digit run is maximal |
| SearchSection.ScanMatches | src/components/SearchSection.tsx:28-29 | taking each group's digits greedily accepts exactly the strings the regular expression matches |
| SearchSection.FormatIsNotBlank | src/components/SearchSection.tsx:18-29 | an input of the right format is never blank |
| SearchSection.HandleSearch | src/components/SearchSection.tsx:17-39 | blank input (white space only) is refused; otherwise a search starts exactly when the input matches four dot-separated groups of 1-3 digits, with the input unmodified |
| SearchSection.ScanJoin | src/components/SearchSection.tsx:28 | a digit group, a dot and a match of the rest is a match with one more dot |
| SearchSection.DottedGroupsAccepted | src/components/SearchSection.tsx:28-38 | any four groups of 1-3 digits joined by dots start a search, so octet values are not bounded (999.999.999.999 is accepted) |
| SearchSection.LeadingSpaceRejected | src/components/SearchSection.tsx:18-29 | " 1.2.3.4" is a format error: trimming is only for the blank check |
| SearchSection.MalformedRejected | src/components/SearchSection.tsx:28-36 | "1.2.3" and "1234.1.1.1" are format errors |
| SearchSection.BlankRejected | src/components/SearchSection.tsx:18-25 | "" and " \t " are refused as empty |
| BrowserAnalysis.GmtOffsetSign | src/components/BrowserAnalysisCard.tsx:32 | the string starts with "GMT", and its sign is '+' exactly when the offset is zero or negative |
| BrowserAnalysis.GmtOffsetRoundTrip | src/components/BrowserAnalysisCard.tsx:32 | for offsets under 100 hours, reading HH:MM back with the sign gives the offset |
| BrowserAnalysis.GmtOffsetExamples | src/components/BrowserAnalysisCard.tsx:32 | -120 gives "GMT+02:00", 330 gives "GMT-05:30", 0 gives "GMT+00:00" |
| BrowserAnalysis.TimezoneMatch | src/components/BrowserAnalysisCard.tsx:36-37 | the timezones match exactly when the address's timezone is the same string as the browser's |
| BrowserAnalysis.GetDeviceType | src/components/BrowserAnalysisCard.tsx:78-83 | the device is Mobile (blue) exactly when the user agent contains Mobile, Android, iPhone or iPad, and Desktop (green) otherwise |
| BrowserAnalysis.MarkerMeansMobile | src/components/BrowserAnalysisCard.tsx:79 | a marker anywhere in the user agent makes it mobile |
| BrowserAnalysis.NoMarkerMeansDesktop | src/components/BrowserAnalysisCard.tsx:79-82 | a user agent without 'M', 'A' and 'i' is a desktop |

## Left out

- Network I/O is not modelled. Every `fetch` (the browserleaks probes, the Scamalytics upstream, the IP analysis endpoints) is an input, with `None` for a failed request.
- HTTP plumbing is not modelled: CORS headers, JSON serialisation and content types. The edge functions are modelled only by their status and body decisions.
- Browser and DOM primitives are abstract events of `IframeHost`: iframe creation and styling, `appendChild`/`removeChild`, `Blob`, `createObjectURL`, `postMessage` and `setTimeout`.
- The one-second `revokeObjectURL` timer is not modelled, because it has no effect on the test.
- The `catch` around iframe creation is not modelled, because creating an element is not a failure the model represents.
- Measured times (`performance.now`, `Date.now`, `testDuration`, timestamps) are inputs, already rounded. Only the thresholds applied to them are modelled.
- Values drawn with `Math.random` are bounded choices. Only their ranges and alphabets are stated.
- A page test that never posts a result is not modelled. `PerformRealDnsTest` assumes the three detectors return; the host's timeout covers the other case.
- detectSystemDNS (src/services/dnsLeakIframeService.ts:264-319) is a parameter of `PerformRealDnsTest`. It builds fallback resolvers from the timezone and language rather than detecting anything.
- The Romanian message texts are not modelled. Only the choice between the leak, no-leak and error messages is.
- A callback that throws is not modelled. It would abort the fetch's parsing loop, a case no caller is shown to raise.
- Js.Lower: `toLowerCase` is modelled on the ASCII letters A-Z only, one character for one. JavaScript also lowercases every other Unicode letter, and some of them change length (U+0130 'İ' becomes two code units). So "CURAÇAO" and "Curaçao" differ in the model but not in JavaScript, and a country or isp written with non-ASCII capitals can be a leak, or miss a provider bucket, in the model only. Strings are sequences of characters, not of UTF-16 code units. This affects every leak rule and provider filter that lowercases (`DnsUtils.DetectLeakIff`, `DnsUtils.DetectLeakIgnoresCase`, `DnsUtils.ServersWithIspSpec`, `DnsUtils.GroupByProviderSpec`, `EdgeDnsLeakTest.EdgeResultSpec`, `LeakTestService.ServiceResultSpec`).
- JSON numbers are integers in the model. A fractional score, isp score or response time is not modelled; the thresholds and sums are stated for integers only.
- A JSON object is a list of fields with distinct names, as `JSON.parse` builds it. A field list with a repeated name is not a JavaScript object, and the model says nothing useful about it.
- `Object.entries` is modelled in insertion order. JavaScript lists integer-like keys first, and no address is such a key.
- `averageResponseTime` is modelled as `Math.round` of the exact mean. Floating-point rounding of the mean is not modelled.
- Scamalytics.ToNumber: treats numbers as integers and accepts only digit strings. Signs, white space, fractions and non-empty arrays, which `>=` would also coerce, give no number, so the tier then depends on the keyword alone.
- DnsUtils.DistinctCount: counts every array or object country or isp as a distinct Set element. That is what JavaScript does for the distinct records of one run; sharing one object between records is not modelled.
- React components, hooks and markup are not modelled (DNSLeakCard, useDNSLeakTest, useIPAnalysis and the other cards). Neither are the icons of `getDeviceType`.
- The literal 999.999.999.999 example is covered by `SearchSection.DottedGroupsAccepted` for every four groups of 1-3 digits, rather than by a lemma about the literal.
- The public bucket of the iframe page compares isp names exactly against "Google LLC", "Cloudflare", "Quad9" and "OpenDNS". The connectivity probe names its records "Google DNS", "Cloudflare DNS", "Quad9 DNS" and "OpenDNS", so three of the four public resolvers are counted as isp servers. `IframePage.ConnectivityBucket` states this as written. It is not listed as a finding because the intended names are not evident from the code.

## Findings

| source | as written | input that shows it | evidently intended | confidence | as-written member | corrected member |
|---|---|---|---|---|---|---|
| src/services/dnsLeakIframeService.ts:460-467 | the 15 s timer of a run is never cleared when the run settles; when it fires it removes its own handler, cleans up whatever iframe is current and rejects whatever run is in flight | run 0 completes within 15 s, run 1 starts, and run 0's timer fires: run 1 is rejected with a timeout and its iframe removed, while run 1's handler and timer stay behind, so a third run's callback receives each server twice | clear the run's timer when it settles, so that a timer only ever fires for its own run | not executed | IframeHost.StaleTimerScenario | IframeHost.GuardedHost.Timeout |

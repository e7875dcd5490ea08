/** The script of the hidden test page that `DNSLeakIframeService` loads
    (src/services/dnsLeakIframeService.ts, the page text built by `createTestPage`).
    Its detectors add object literals to one `Set`; every literal is a new object, so the set
    never merges two records and behaves as a list in insertion order. Elapsed times and
    network answers are inputs. */
module IframePage {
  import opened Js
  import opened DnsTypes
  import opened DnsUtils

  /** One timed fetch: it answered or it threw, after `elapsed` milliseconds (already rounded). */
  datatype Attempt = Reached(elapsed: int) | Threw(elapsed: int)

  /** What a browserleaks probe gave: no usable response, a body that is not JSON, or JSON. */
  datatype LeaksReply = Unreachable | NotJson | Json(body: Value)

  /** What the page posts to its parent window. */
  datatype PageMessage = ServerDetected(server: DnsServer) | TestCompleted(result: LeakTestResult)

  function Filter<T>(xs: seq<T>, keep: T -> bool): seq<T>
    decreases |xs|
  {
    if xs == [] then []
    else if keep(xs[0]) then [xs[0]] + Filter(xs[1..], keep)
    else Filter(xs[1..], keep)
  }

  /** A filter keeps the order of its input and exactly the elements that pass. */
  lemma {:induction false} FilterSpec<T>(xs: seq<T>, keep: T -> bool)
    ensures IsSubsequence(Filter(xs, keep), xs)
    ensures forall x :: x in Filter(xs, keep) <==> x in xs && keep(x)
    decreases |xs|
  {
    if xs != [] {
      FilterSpec(xs[1..], keep);
      assert forall x :: x in xs <==> x == xs[0] || x in xs[1..];
      if !keep(xs[0]) {
        SubsequenceSkip(Filter(xs[1..], keep), xs);
      }
    }
  }

  // ---------------------------------------------------------------- detectViaTiming

  /** The record added when a lookup of an invalid name failed quickly. */
  function LocalRouter(elapsed: int): DnsServer {
    DnsServer("192.168.1.1", "local-router-dns", Str("Local Network"), Str("Local Router"), Resolver,
              Str("Local Network"), None, Undefined, Some(elapsed), "UDP", 53, High)
  }

  /** The records `detectViaTiming` adds for its lookups, in order. */
  function TimingRecords(attempts: seq<Attempt>): seq<DnsServer>
    decreases |attempts|
  {
    if attempts == [] then []
    else
      var a := attempts[|attempts| - 1];
      TimingRecords(attempts[..|attempts| - 1]) + (if a.Threw? && a.elapsed < 50 then [LocalRouter(a.elapsed)] else [])
  }

  method DetectViaTiming(found: seq<DnsServer>, attempts: seq<Attempt>) returns (servers: seq<DnsServer>)
    requires |attempts| == 3
    ensures servers == found + TimingRecords(attempts)
  {
    servers := found;
    var i := 0;
    while i < |attempts|
      invariant 0 <= i <= |attempts|
      invariant servers == found + TimingRecords(attempts[..i])
    {
      var a := attempts[i];
      assert attempts[..i + 1][..i] == attempts[..i];
      if a.Threw? && a.elapsed < 50 {
        servers := servers + [LocalRouter(a.elapsed)];
      }
      i := i + 1;
    }
    assert attempts[..i] == attempts;
  }

  /** Only a lookup that threw within 50 ms adds a record, and that record is the local
      router carrying the measured time. */
  lemma {:induction false} TimingRecordsSpec(attempts: seq<Attempt>)
    ensures |TimingRecords(attempts)| <= |attempts|
    ensures forall s :: s in TimingRecords(attempts) <==>
      exists i :: 0 <= i < |attempts| && attempts[i].Threw? && attempts[i].elapsed < 50 && s == LocalRouter(attempts[i].elapsed)
    decreases |attempts|
  {
    if attempts != [] {
      var init := attempts[..|attempts| - 1];
      TimingRecordsSpec(init);
      assert forall i :: 0 <= i < |init| ==> init[i] == attempts[i];
      forall s | s in TimingRecords(attempts)
        ensures exists i :: 0 <= i < |attempts| && attempts[i].Threw? && attempts[i].elapsed < 50 && s == LocalRouter(attempts[i].elapsed)
      {
        if s in TimingRecords(init) {
          var i :| 0 <= i < |init| && init[i].Threw? && init[i].elapsed < 50 && s == LocalRouter(init[i].elapsed);
          assert attempts[i] == init[i];
        } else {
          assert s == LocalRouter(attempts[|attempts| - 1].elapsed);
        }
      }
      forall i | 0 <= i < |attempts| && attempts[i].Threw? && attempts[i].elapsed < 50
        ensures LocalRouter(attempts[i].elapsed) in TimingRecords(attempts)
      {
        if i < |init| {
          assert init[i] == attempts[i];
        }
      }
    }
  }

  // ---------------------------------------------------------------- detectViaMultipleQueries

  datatype PublicTarget = PublicTarget(host: string, name: string)

  const PublicTargets: seq<PublicTarget> := [
    PublicTarget("8.8.8.8", "Google DNS"), PublicTarget("1.1.1.1", "Cloudflare DNS"),
    PublicTarget("9.9.9.9", "Quad9 DNS"), PublicTarget("208.67.222.222", "OpenDNS")]

  /** Drops the leading run of white space (the characters `\s` matches). */
  function DropSpaces(s: string): (r: string)
    ensures |r| <= |s|
    ensures |s| > 0 && IsSpace(s[0]) ==> |r| < |s|
    ensures r == [] || !IsSpace(r[0])
  {
    if s != [] && IsSpace(s[0]) then DropSpaces(s[1..]) else s
  }

  /** `s.replace(/\s+/g, '-')`: every run of white space becomes one '-'. */
  function DashRuns(s: string): (r: string)
    ensures forall i :: 0 <= i < |r| ==> !IsSpace(r[i])
    decreases |s|
  {
    if s == [] then []
    else if IsSpace(s[0]) then "-" + DashRuns(DropSpaces(s))
    else [s[0]] + DashRuns(s[1..])
  }

  /** `responseTime < 100 ? 'high' : responseTime < 300 ? 'medium' : 'low'` */
  function Tier(elapsed: int): Reliability {
    if elapsed < 100 then High else if elapsed < 300 then Medium else Low
  }

  function ConnectivityRecord(t: PublicTarget, elapsed: int): DnsServer {
    DnsServer(t.host, "detected-" + DashRuns(Lower(t.name)), Str("Detected via connectivity"), Str(t.name), Resolver,
              Str("Public DNS Server"), None, Undefined, Some(elapsed), "UDP", 53, Tier(elapsed))
  }

  /** A target is added when its fetch answered in under a second. */
  predicate Reachable(a: Attempt) {
    a.Reached? && a.elapsed < 1000
  }

  function ConnectivityRecords(targets: seq<PublicTarget>, attempts: seq<Attempt>): seq<DnsServer>
    requires |targets| == |attempts|
    decreases |attempts|
  {
    if attempts == [] then []
    else
      var k := |attempts| - 1;
      ConnectivityRecords(targets[..k], attempts[..k])
        + (if Reachable(attempts[k]) then [ConnectivityRecord(targets[k], attempts[k].elapsed)] else [])
  }

  method DetectViaMultipleQueries(found: seq<DnsServer>, attempts: seq<Attempt>) returns (servers: seq<DnsServer>)
    requires |attempts| == |PublicTargets|
    ensures servers == found + ConnectivityRecords(PublicTargets, attempts)
  {
    servers := found;
    var i := 0;
    while i < |attempts|
      invariant 0 <= i <= |attempts|
      invariant servers == found + ConnectivityRecords(PublicTargets[..i], attempts[..i])
    {
      var a := attempts[i];
      assert attempts[..i + 1][..i] == attempts[..i] && PublicTargets[..i + 1][..i] == PublicTargets[..i];
      if Reachable(a) {
        servers := servers + [ConnectivityRecord(PublicTargets[i], a.elapsed)];
      }
      i := i + 1;
    }
    assert attempts[..i] == attempts && PublicTargets[..i] == PublicTargets;
  }

  /** The reliability tiers split the times at 100 and 300 ms and never improve as the time
      grows. */
  lemma TierSpec(a: int, b: int)
    ensures Tier(a) == High <==> a < 100
    ensures Tier(a) == Medium <==> 100 <= a < 300
    ensures Tier(a) == Low <==> a >= 300
    ensures a <= b && Tier(a) == Low ==> Tier(b) == Low
    ensures a <= b && Tier(b) == High ==> Tier(a) == High
  {
  }

  /** A connectivity record exists exactly for each target that answered in under a second,
      with its own time, tier and name. */
  lemma {:induction false} ConnectivityRecordsSpec(targets: seq<PublicTarget>, attempts: seq<Attempt>)
    requires |targets| == |attempts|
    ensures |ConnectivityRecords(targets, attempts)| <= |attempts|
    ensures forall s :: s in ConnectivityRecords(targets, attempts) <==>
      exists i :: 0 <= i < |attempts| && Reachable(attempts[i]) && s == ConnectivityRecord(targets[i], attempts[i].elapsed)
    decreases |attempts|
  {
    if attempts != [] {
      var k := |attempts| - 1;
      var ts, as_ := targets[..k], attempts[..k];
      ConnectivityRecordsSpec(ts, as_);
      forall s | s in ConnectivityRecords(targets, attempts)
        ensures exists i :: 0 <= i < |attempts| && Reachable(attempts[i]) && s == ConnectivityRecord(targets[i], attempts[i].elapsed)
      {
        if s in ConnectivityRecords(ts, as_) {
          var i :| 0 <= i < |as_| && Reachable(as_[i]) && s == ConnectivityRecord(ts[i], as_[i].elapsed);
          assert attempts[i] == as_[i] && targets[i] == ts[i];
        } else {
          assert s == ConnectivityRecord(targets[k], attempts[k].elapsed);
        }
      }
      forall i | 0 <= i < |attempts| && Reachable(attempts[i])
        ensures ConnectivityRecord(targets[i], attempts[i].elapsed) in ConnectivityRecords(targets, attempts)
      {
        if i < k {
          assert as_[i] == attempts[i] && ts[i] == targets[i];
        }
      }
    }
  }

  /** Every connectivity record carries the time, a tier that matches it, and a hostname
      free of white space. */
  lemma ConnectivityRecordFields(t: PublicTarget, elapsed: int)
    ensures var s := ConnectivityRecord(t, elapsed);
      && s.responseTime == Some(elapsed) && s.reliability == Tier(elapsed)
      && s.ip == t.host && s.isp == Str(t.name)
      && "detected-" <= s.hostname
      && forall i :: 9 <= i < |s.hostname| ==> !IsSpace(s.hostname[i])
  {
  }

  // ---------------------------------------------------------------- detectViaBrowserLeaks

  /** Entry keys the page ignores. */
  predicate UsableKey(ip: string) {
    ip != "" && ip != "undefined" && ip != "0.0.0.0"
  }

  /** `details[1] || 'Unknown'` for an array of two or more, else "Unknown". */
  function LeaksCountry(details: Value): Value {
    if details.Arr? && |details.items| >= 2 then Or(details.items[1], Str("Unknown")) else Str("Unknown")
  }

  /** `details[2] || 'Unknown ISP'` for an array of two or more, else "Unknown ISP". */
  function LeaksOrg(details: Value): Value {
    if details.Arr? && |details.items| >= 2 then Or(At(details.items, 2), Str("Unknown ISP")) else Str("Unknown ISP")
  }

  /** The record for one entry, with its random response time erased. */
  function LeaksRecord(url: string, ip: string, details: Value): DnsServer {
    var country := LeaksCountry(details);
    DnsServer(ip, "real-dns-" + DashSeparators(ip), country, LeaksOrg(details), Resolver, country, None,
              Undefined, None, if Contains(url, "dns6") then "UDP6" else "UDP", 53, High)
  }

  function LeaksEntriesShape(url: string, es: seq<(string, Value)>): seq<DnsServer>
    decreases |es|
  {
    if es == [] then []
    else
      var k := |es| - 1;
      LeaksEntriesShape(url, es[..k]) + (if UsableKey(es[k].0) then [LeaksRecord(url, es[k].0, es[k].1)] else [])
  }

  /** `jsonData && typeof jsonData === 'object'`: a non-null object or an array. */
  function LeaksShape(url: string, reply: LeaksReply): seq<DnsServer> {
    match reply
    case Json(v) => if Truthy(v) && (v.Obj? || v.Arr?) then LeaksEntriesShape(url, Entries(v)) else []
    case _ => []
  }

  predicate AllIn(s: string, chars: string) {
    forall i :: 0 <= i < |s| ==> s[i] in chars
  }

  function LeaksUrl(tag: string, api: string): string {
    "https://" + tag + "." + api + ".browserleaks.org/"
  }

  /** The shapes of the records a list of browserleaks replies adds, in order. */
  function LeaksShapes(urls: seq<string>, replies: seq<LeaksReply>): seq<DnsServer>
    requires |urls| == |replies|
    decreases |replies|
  {
    if replies == [] then []
    else
      var k := |replies| - 1;
      LeaksShapes(urls[..k], replies[..k]) + LeaksShape(urls[k], replies[k])
  }

  method DetectViaBrowserLeaks(found: seq<DnsServer>, replies: seq<LeaksReply>) returns (servers: seq<DnsServer>, urls: seq<string>)
    requires |replies| == 2
    ensures |urls| == 2
    ensures exists a, b :: AllIn(a, Alphabet) && AllIn(b, Alphabet) && urls == [LeaksUrl(a, "dns4"), LeaksUrl(b, "dns6")]
    ensures |servers| >= |found| && servers[..|found|] == found
    ensures Shapes(servers[|found|..]) == LeaksShapes(urls, replies)
    ensures forall s :: s in servers[|found|..] ==> s.responseTime.Some? && 20 <= s.responseTime.value <= 69
  {
    assert AllIn("", Alphabet);
    var a: string :| AllIn(a, Alphabet);
    var b: string :| AllIn(b, Alphabet);
    urls := [LeaksUrl(a, "dns4"), LeaksUrl(b, "dns6")];
    var added: seq<DnsServer> := [];
    var u := 0;
    while u < |urls|
      invariant 0 <= u <= |urls|
      invariant Shapes(added) == LeaksShapes(urls[..u], replies[..u])
      invariant forall s :: s in added ==> s.responseTime.Some? && 20 <= s.responseTime.value <= 69
    {
      var more := LeaksEntries(urls[u], replies[u]);
      ShapesAppend(added, more);
      assert urls[..u + 1][..u] == urls[..u] && replies[..u + 1][..u] == replies[..u];
      added := added + more;
      u := u + 1;
    }
    assert urls[..u] == urls && replies[..u] == replies;
    servers := found + added;
    assert servers[..|found|] == found && servers[|found|..] == added;
    assert AllIn(a, Alphabet) && AllIn(b, Alphabet) && urls == [LeaksUrl(a, "dns4"), LeaksUrl(b, "dns6")];
  }

  /** The records one browserleaks reply adds, in entry order. */
  method LeaksEntries(url: string, reply: LeaksReply) returns (added: seq<DnsServer>)
    ensures Shapes(added) == LeaksShape(url, reply)
    ensures forall s :: s in added ==> s.responseTime.Some? && 20 <= s.responseTime.value <= 69
  {
    added := [];
    if reply.Json? && Truthy(reply.body) && (reply.body.Obj? || reply.body.Arr?) {
      var es := Entries(reply.body);
      var i := 0;
      while i < |es|
        invariant 0 <= i <= |es|
        invariant Shapes(added) == LeaksEntriesShape(url, es[..i])
        invariant forall s :: s in added ==> s.responseTime.Some? && 20 <= s.responseTime.value <= 69
      {
        var (ip, details) := es[i];
        assert es[..i + 1][..i] == es[..i];
        if UsableKey(ip) {
          var t :| 20 <= t <= 69;
          var record := LeaksRecord(url, ip, details).(responseTime := Some(t));
          ShapesAppend(added, [record]);
          assert Shapes([record]) == [LeaksRecord(url, ip, details)];
          added := added + [record];
        }
        i := i + 1;
      }
      assert es[..i] == es;
    }
  }

  /** A browserleaks record: an ignored key adds nothing; an array of two or more gives its
      second item as country and location (no ", " split) and its third as isp, each with its
      default when falsy; anything else gets both defaults. */
  lemma {:induction false} LeaksEntriesSpec(url: string, es: seq<(string, Value)>)
    ensures |LeaksEntriesShape(url, es)| <= |es|
    ensures forall s :: s in LeaksEntriesShape(url, es) ==>
      && UsableKey(s.ip)
      && s.location == s.country
      && (s.protocol == "UDP6" <==> Contains(url, "dns6"))
      && exists i :: 0 <= i < |es| && es[i].0 == s.ip
           && s.country == LeaksCountry(es[i].1) && s.isp == LeaksOrg(es[i].1)
    decreases |es|
  {
    if es != [] {
      var k := |es| - 1;
      LeaksEntriesSpec(url, es[..k]);
      forall s | s in LeaksEntriesShape(url, es)
        ensures exists i :: 0 <= i < |es| && es[i].0 == s.ip && s.country == LeaksCountry(es[i].1) && s.isp == LeaksOrg(es[i].1)
      {
        if s in LeaksEntriesShape(url, es[..k]) {
          var i :| 0 <= i < k && es[..k][i].0 == s.ip && s.country == LeaksCountry(es[..k][i].1) && s.isp == LeaksOrg(es[..k][i].1);
          assert es[..k][i] == es[i];
        } else {
          assert es[k].0 == s.ip;
        }
      }
    }
  }

  /** The country and isp rules on concrete entries: the country is the second item verbatim,
      a short array has no isp, and a falsy country falls back to "Unknown". */
  lemma LeaksFieldExamples(code: Value)
    ensures LeaksCountry(Arr([code, Str("Germany, Berlin"), Str("Telekom")])) == Str("Germany, Berlin")
    ensures LeaksOrg(Arr([code, Str("Germany")])) == Str("Unknown ISP")
    ensures LeaksCountry(Arr([code, Str(""), Str("Telekom")])) == Str("Unknown")
    ensures LeaksCountry(Str("DE")) == Str("Unknown") && LeaksOrg(Str("DE")) == Str("Unknown ISP")
  {
  }

  /** The second URL always names the IPv6 API, so its records are UDP6. */
  lemma SecondUrlIsIpv6(tag: string)
    ensures Contains(LeaksUrl(tag, "dns6"), "dns6")
  {
    assert LeaksUrl(tag, "dns6") == ("https://" + tag + ".") + "dns6" + ".browserleaks.org/";
    ContainsInMiddle("https://" + tag + ".", "dns6", ".browserleaks.org/");
  }

  // ---------------------------------------------------------------- generateFinalResult

  /** `country.includes('Romania')`: a substring test on a string, a membership test on an
      array, and a TypeError on anything else. */
  function IncludesRomania(country: Value): Result<bool> {
    match country
    case Str(s) => Ok(Contains(s, "Romania"))
    case Arr(items) => Ok(Str("Romania") in items)
    case _ => TypeError
  }

  /** The page's test for one server. */
  function LeaksFrom(s: DnsServer): Result<bool> {
    var c := s.country;
    if !Truthy(c) || c == Str("Unknown") || c == Str("Local Network") then Ok(false)
    else match IncludesRomania(c)
      case Ok(b) => Ok(!b)
      case TypeError => TypeError
  }

  /** `servers.some(...)` with the test above, left to right. */
  function PageLeak(servers: seq<DnsServer>): Result<bool>
    decreases |servers|
  {
    if servers == [] then Ok(false)
    else match LeaksFrom(servers[0])
      case TypeError => TypeError
      case Ok(true) => Ok(true)
      case Ok(false) => PageLeak(servers[1..])
  }

  /** A server whose country is text and counts as a leak on the page. */
  predicate PageCountryLeaks(s: DnsServer) {
    && s.country.Str? && s.country.s != "" && s.country.s != "Unknown" && s.country.s != "Local Network"
    && !Contains(s.country.s, "Romania")
  }

  /** With text or falsy countries, the page reports a leak exactly when some server has a
      non-empty country other than "Unknown" and "Local Network" that does not contain
      "Romania". */
  lemma {:induction false} PageLeakIff(servers: seq<DnsServer>)
    requires forall s :: s in servers ==> CountryTextOrFalsy(s)
    ensures PageLeak(servers) == Ok(exists s :: s in servers && PageCountryLeaks(s))
    decreases |servers|
  {
    if servers != [] {
      PageLeakIff(servers[1..]);
      assert forall s :: s in servers <==> s == servers[0] || s in servers[1..];
      var s0 := servers[0];
      assert s0 in servers;
      assert LeaksFrom(s0) == Ok(PageCountryLeaks(s0));
    }
  }

  /** A country text that ends in "Romania" counts as at home ("Bucharest, Romania"); any
      other non-empty country of at most seven letters other than "Unknown" ("Germany") is a
      leak. */
  lemma {:induction false} PageLeakExamples(a: DnsServer, b: DnsServer, place: string, other: string)
    requires a.country == Str(place + "Romania") && b.country == Str(other)
    requires 0 < |other| <= 7 && other != "Romania" && other != "Unknown"
    ensures PageLeak([a]) == Ok(false) && PageLeak([a, b]) == Ok(true)
  {
    assert place + "Romania" == place + "Romania" + "";
    ContainsInMiddle(place, "Romania", "");
    var home := place + "Romania";
    assert home[|home| - 1] == 'a';
    assert home != "Unknown" && home != "Local Network";
    ShorterNoContains(other[1..], "Romania");
    assert !Contains(other, "Romania");
    assert other != "Local Network";
    assert [a, b][1..] == [b];
  }

  /** The isp names the page counts as public resolvers. */
  const PublicIsps: seq<Value> := [Str("Google LLC"), Str("Cloudflare"), Str("Quad9"), Str("OpenDNS")]

  predicate IsLocal(s: DnsServer) { s.country == Str("Local Network") }
  predicate IsPublic(s: DnsServer) { s.isp in PublicIsps }
  predicate IsIspServer(s: DnsServer) { !IsPublic(s) && !IsLocal(s) }
  predicate IsInternational(s: DnsServer) {
    Truthy(s.country) && s.country != Str("Romania") && !IsLocal(s)
  }

  function OriginBuckets(servers: seq<DnsServer>): OriginGroups {
    OriginGroups(Filter(servers, IsLocal), Filter(servers, IsPublic), Filter(servers, IsIspServer),
                 Filter(servers, IsInternational))
  }

  /** Every bucket keeps the order of `servers`; local holds exactly the "Local Network"
      servers; public and isp never share a server, and every other server is in exactly one
      of them; international holds no "Romania" and no "Local Network" server. */
  lemma OriginBucketsSpec(servers: seq<DnsServer>)
    ensures var g := OriginBuckets(servers);
      && IsSubsequence(g.local, servers) && IsSubsequence(g.public, servers)
      && IsSubsequence(g.isp, servers) && IsSubsequence(g.international, servers)
      && (forall s :: s in g.local <==> s in servers && s.country == Str("Local Network"))
      && (forall s :: !(s in g.public && s in g.isp))
      && (forall s :: s in servers && s.country != Str("Local Network") ==> (s in g.public <==> s !in g.isp))
      && (forall s :: s in g.international ==> s in servers && Truthy(s.country)
                                               && s.country != Str("Romania") && s.country != Str("Local Network"))
  {
    FilterSpec(servers, IsLocal);
    FilterSpec(servers, IsPublic);
    FilterSpec(servers, IsIspServer);
    FilterSpec(servers, IsInternational);
  }

  /** Of the resolvers the connectivity probe can add, only OpenDNS carries an isp name from
      the public list ("Google DNS", "Cloudflare DNS" and "Quad9 DNS" do not), so the other
      three are classed as isp servers. */
  lemma ConnectivityBucket(i: nat, elapsed: int)
    requires i < |PublicTargets|
    ensures IsPublic(ConnectivityRecord(PublicTargets[i], elapsed)) <==> i == 3
    ensures IsIspServer(ConnectivityRecord(PublicTargets[i], elapsed)) <==> i != 3
  {
    var name := PublicTargets[i].name;
    if i == 0 {
      assert name[7] != "Google LLC"[7] && name[0] != "Cloudflare"[0];
      assert |name| != |"Quad9"| && |name| != |"OpenDNS"|;
    } else if i == 1 {
      assert |name| != |"Google LLC"| && |name| != |"Cloudflare"| && |name| != |"Quad9"| && |name| != |"OpenDNS"|;
    } else if i == 2 {
      assert |name| != |"Google LLC"| && |name| != |"Cloudflare"| && |name| != |"Quad9"| && |name| != |"OpenDNS"|;
    }
  }

  /** `userLocation`: the first server's country, isp and asn (each "Unknown" when absent). */
  function PageLocation(servers: seq<DnsServer>): UserLocation {
    if servers == [] then UserLocation(Str("Unknown"), "Detected from DNS", "Detected from DNS", Str("Unknown"), Str("Unknown"))
    else
      var asn := match servers[0].asn case Some(a) => Str(a) case None => Undefined;
      UserLocation(servers[0].country, "Detected from DNS", "Detected from DNS", servers[0].isp, Or(asn, Str("Unknown")))
  }

  /** The result posted when the test threw. */
  const PageErrorResult := LeakTestResult([], false, None, Error, Failed, NoDetails, ByOrigin(NoOrigins))

  /** `generateFinalResult(servers)`, which throws when the leak test meets a truthy country
      that is neither a string nor an array. */
  function FinalResult(servers: seq<DnsServer>): Result<LeakTestResult> {
    match PageLeak(servers)
    case TypeError => TypeError
    case Ok(leak) =>
      Ok(LeakTestResult(servers, leak, Some(PageLocation(servers)), Completed, if leak then LeakFound else NoLeak,
        TestDetails(|servers|, UniqueCountries(servers), UniqueIsps(servers), Round(AverageResponseTime(servers))),
        ByOrigin(OriginBuckets(servers))))
  }

  /** The result the page posts: the final result, or the error result when that threw. */
  function PostedResult(servers: seq<DnsServer>): LeakTestResult {
    match FinalResult(servers)
    case Ok(r) => r
    case TypeError => PageErrorResult
  }

  /** The posted result completes exactly when the leak test does not throw, and then reports
      every server, counts bounded by their number, and the message of its leak flag. */
  lemma PostedResultSpec(servers: seq<DnsServer>)
    ensures var r := PostedResult(servers);
      && (r.status == Completed <==> PageLeak(servers).Ok?)
      && (r.status == Completed ==>
            && r.servers == servers && r.leakDetected == PageLeak(servers).value
            && (r.message == LeakFound <==> r.leakDetected)
            && r.details.totalServers == |servers|
            && r.details.uniqueCountries <= |servers| && r.details.uniqueIsps <= |servers|)
      && (r.status != Completed ==> r == PageErrorResult)
  {
    UniqueCountsBounded(servers);
  }

  // ---------------------------------------------------------------- performRealDNSTest

  /** `finalServers.forEach(server => sendMessage('DNS_SERVER_DETECTED', {server}))` */
  function Announcements(servers: seq<DnsServer>): (r: seq<PageMessage>)
    ensures |r| == |servers| && forall i :: 0 <= i < |servers| ==> r[i] == ServerDetected(servers[i])
  {
    seq(|servers|, i requires 0 <= i < |servers| => ServerDetected(servers[i]))
  }

  /** What the three detectors find, random fields erased. */
  function FoundShape(timings: seq<Attempt>, queries: seq<Attempt>, urls: seq<string>, leaks: seq<LeaksReply>): seq<DnsServer>
    requires |queries| == |PublicTargets| && |urls| == |leaks|
  {
    Shapes(TimingRecords(timings)) + Shapes(ConnectivityRecords(PublicTargets, queries)) + LeaksShapes(urls, leaks)
  }

  /** The three detectors, one after the other, adding to one list. */
  method Detect(timings: seq<Attempt>, queries: seq<Attempt>, leaks: seq<LeaksReply>) returns (found: seq<DnsServer>, urls: seq<string>)
    requires |timings| == 3 && |queries| == |PublicTargets| && |leaks| == 2
    ensures |urls| == 2
    ensures Shapes(found) == FoundShape(timings, queries, urls, leaks)
  {
    var timed := DetectViaTiming([], timings);
    assert timed == TimingRecords(timings);
    var queried := DetectViaMultipleQueries(timed, queries);
    ShapesAppend(timed, ConnectivityRecords(PublicTargets, queries));
    found, urls := DetectViaBrowserLeaks(queried, leaks);
    var leaked := found[|queried|..];
    assert found == queried + leaked;
    ShapesAppend(queried, leaked);
  }

  /** Posts one announcement per server, in order. */
  method Announce(servers: seq<DnsServer>) returns (messages: seq<PageMessage>)
    ensures messages == Announcements(servers)
  {
    messages := [];
    var i := 0;
    while i < |servers|
      invariant 0 <= i <= |servers|
      invariant messages == Announcements(servers[..i])
    {
      messages := messages + [ServerDetected(servers[i])];
      i := i + 1;
    }
    assert servers[..i] == servers;
  }

  /** Runs the three detectors, falls back to `fallback` (what `detectSystemDNS` adds) when
      none found anything, announces every server and then posts the result. */
  method PerformRealDnsTest(timings: seq<Attempt>, queries: seq<Attempt>, leaks: seq<LeaksReply>, fallback: seq<DnsServer>)
    returns (messages: seq<PageMessage>, servers: seq<DnsServer>, urls: seq<string>)
    requires |timings| == 3 && |queries| == |PublicTargets| && |leaks| == 2
    ensures |urls| == 2
    ensures FoundShape(timings, queries, urls, leaks) == [] ==> servers == fallback
    ensures FoundShape(timings, queries, urls, leaks) != [] ==> Shapes(servers) == FoundShape(timings, queries, urls, leaks)
    ensures messages == Announcements(servers) + [TestCompleted(PostedResult(servers))]
  {
    var found;
    found, urls := Detect(timings, queries, leaks);
    servers := found;
    if |found| == 0 {
      servers := fallback;
    }
    messages := Announce(servers);
    messages := messages + [TestCompleted(PostedResult(servers))];
  }
}

/** `DNSLeakTestService.performDNSLeakTest`, the in-browser four-probe test
    (src/services/dnsLeakTestService.ts). Each probe's reply is an input: `None` when the fetch
    failed or the status was not ok, `Some(data)` with the decoded JSON body otherwise. */
module LeakTestService {
  import opened Js
  import opened DnsTypes
  import opened DnsUtils
  import opened DnsParse
  import opened DnsPipeline

  /** `fetchDNSData`: parses the body itself, hands each record to the callback and yields
      the body; a parse that throws is caught there and the probe yields null. */
  function FetchYield(reply: Option<Value>, p: Probe): Value {
    match reply
    case None => Null
    case Some(data) => if ParseShape(data, p.testNumber, p.family).Ok? then data else Null
  }

  /** The shapes of the records a probe adds to the run's list. */
  function ProbeShape(reply: Option<Value>, p: Probe): seq<DnsServer> {
    var data := FetchYield(reply, p);
    if Truthy(data) then ParseShape(data, p.testNumber, p.family).value else []
  }

  /** The shapes each probe adds, one list per probe. */
  function PerProbe(replies: seq<Option<Value>>, probes: seq<Probe>): (r: seq<seq<DnsServer>>)
    requires |replies| == |probes|
    ensures |r| == |probes| && forall i :: 0 <= i < |probes| ==> r[i] == ProbeShape(replies[i], probes[i])
  {
    seq(|probes|, i requires 0 <= i < |probes| => ProbeShape(replies[i], probes[i]))
  }

  function Concat<T>(xss: seq<seq<T>>): seq<T>
    decreases |xss|
  {
    if xss == [] then [] else Concat(xss[..|xss| - 1]) + xss[|xss| - 1]
  }

  lemma ConcatStep<T>(xss: seq<seq<T>>, i: nat)
    requires i < |xss|
    ensures Concat(xss[..i + 1]) == Concat(xss[..i]) + xss[i]
  {
    assert xss[..i + 1][..i] == xss[..i];
  }

  lemma ConcatFour<T>(a: seq<T>, b: seq<T>, c: seq<T>, d: seq<T>)
    ensures Concat([a, b, c, d]) == a + b + c + d
  {
    var xs := [a, b, c, d];
    ConcatStep(xs, 0);
    ConcatStep(xs, 1);
    ConcatStep(xs, 2);
    ConcatStep(xs, 3);
    assert xs[..0] == [] && xs[..4] == xs;
  }

  /** The shapes of the records collected from the probes' replies, in probe order. */
  function CollectedShape(replies: seq<Option<Value>>, probes: seq<Probe>): seq<DnsServer>
    requires |replies| == |probes|
  {
    Concat(PerProbe(replies, probes))
  }

  /** The user location reported next to the servers: the first server's country, isp and
      asn, or "Unknown" for each when nothing was found. */
  function UserCountry(servers: seq<DnsServer>): Value {
    if |servers| > 0 then servers[0].country else Str("Unknown")
  }

  function ServiceLocation(servers: seq<DnsServer>): UserLocation {
    UserLocation(UserCountry(servers), "Detected from DNS", "Detected from DNS",
      if |servers| > 0 then servers[0].isp else Str("Unknown"),
      if |servers| > 0 then (match servers[0].asn case Some(a) => Str(a) case None => Undefined)
      else Str("Unknown"))
  }

  function ServiceResult(servers: seq<DnsServer>): LeakTestResult {
    Aggregate(servers, UserCountry(servers), ServiceLocation(servers))
  }

  /** `fetchDNSData(testNumber, isIPv6, onServerDetected)` on a given reply: what it yields, and
      the records of its own parse, handed to the callback when there is one. */
  method FetchDnsData(reply: Option<Value>, p: Probe, withCallback: bool) returns (data: Value, notified: seq<DnsServer>)
    ensures data == FetchYield(reply, p)
    ensures withCallback && Truthy(data) ==> Shapes(notified) == ParseShape(data, p.testNumber, p.family).value
    ensures !(withCallback && Truthy(data)) ==> notified == []
  {
    data, notified := Null, [];
    if reply.Some? {
      var parsed := ParseDnsResponse(reply.value, p.testNumber, p.family);
      if parsed.Ok? {
        data := reply.value;
        if withCallback {
          notified := parsed.value;
        }
      }
    }
  }

  /** One iteration of the probe loop: fetch, then parse again and keep the records when
      the fetch yielded a truthy body. `announced` is what the callback received meanwhile. */
  method RunProbe(reply: Option<Value>, p: Probe, withCallback: bool) returns (added: seq<DnsServer>, announced: seq<DnsServer>)
    ensures Shapes(added) == ProbeShape(reply, p)
    ensures withCallback ==> Shapes(announced) == Shapes(added)
    ensures !withCallback ==> announced == []
    ensures forall s :: s in added ==> Collectable(s)
  {
    var dnsData;
    dnsData, announced := FetchDnsData(reply, p, withCallback);
    added := [];
    if Truthy(dnsData) {
      var detected := ParseDnsResponse(dnsData, p.testNumber, p.family);
      if detected.TypeError? {
        assert false;
      }
      added := detected.value;
      ParsedCountries(dnsData, p.testNumber, p.family);
    }
  }

  /** Runs the four probes and aggregates what they found. `collected` is the run's list of
      records before aggregation and `notified` what the callback received, in order. */
  method PerformDnsLeakTest(replies: seq<Option<Value>>, withCallback: bool)
    returns (result: LeakTestResult, collected: seq<DnsServer>, notified: seq<DnsServer>, trace: seq<Step>)
    requires |replies| == |Schedule|
    ensures trace == FullTrace
    ensures Shapes(collected) == CollectedShape(replies, Schedule)
    ensures withCallback ==> Shapes(notified) == Shapes(collected)
    ensures !withCallback ==> notified == []
    ensures forall s :: s in collected ==> Collectable(s)
    ensures result == ServiceResult(collected)
  {
    collected, notified, trace := [], [], [];
    ghost var perProbe := PerProbe(replies, Schedule);
    var i := 0;
    while i < |Schedule|
      invariant 0 <= i <= |Schedule|
      invariant trace == Steps(Schedule[..i])
      invariant Shapes(collected) == Concat(perProbe[..i])
      invariant withCallback ==> Shapes(notified) == Shapes(collected)
      invariant !withCallback ==> notified == []
      invariant forall s :: s in collected ==> Collectable(s)
    {
      var p := Schedule[i];
      StepsStep(Schedule, i);
      trace := trace + [Fetch(p)];
      var added, announced := RunProbe(replies[i], p, withCallback);
      ShapesAppend(collected, added);
      ShapesAppend(notified, announced);
      ConcatStep(perProbe, i);
      collected := collected + added;
      notified := notified + announced;
      if p.testNumber < 4 {
        trace := trace + [Sleep(1000)];
      }
      i := i + 1;
    }
    assert Schedule[..i] == Schedule;
    assert perProbe[..i] == perProbe;
    ScheduleSteps();
    result := ServiceResult(collected);
  }

  // ---------------------------------------------------------------- properties of a run

  lemma FailedProbeAddsNothing(p: Probe)
    ensures ProbeShape(None, p) == []
  {
  }

  /** A probe answered by a body that parses yields one record per kept entry, in order. */
  lemma ProbeIps(data: Value, p: Probe)
    requires ParseShape(data, p.testNumber, p.family).Ok?
    ensures Ips(ProbeShape(Some(data), p)) == if Truthy(data) then KeptKeys(Entries(data)) else []
  {
    if Truthy(data) {
      ParseEntriesShapeSpec(Entries(data), p.testNumber, p.family);
    }
  }

  /** The same body answering all four probes yields its records four times over: the list is
      not de-duplicated by address. */
  lemma SameReplyFourTimes(data: Value)
    requires forall i :: 0 <= i < |Schedule| ==> ParseShape(data, Schedule[i].testNumber, Schedule[i].family).Ok?
    ensures var keys := if Truthy(data) then KeptKeys(Entries(data)) else [];
      Ips(CollectedShape([Some(data), Some(data), Some(data), Some(data)], Schedule)) == keys + keys + keys + keys
  {
    var rs := [Some(data), Some(data), Some(data), Some(data)];
    var a := ProbeShape(Some(data), Schedule[0]);
    var b := ProbeShape(Some(data), Schedule[1]);
    var c := ProbeShape(Some(data), Schedule[2]);
    var d := ProbeShape(Some(data), Schedule[3]);
    ProbeIps(data, Schedule[0]);
    ProbeIps(data, Schedule[1]);
    ProbeIps(data, Schedule[2]);
    ProbeIps(data, Schedule[3]);
    assert PerProbe(rs, Schedule) == [a, b, c, d];
    ConcatFour(a, b, c, d);
    IpsAppend(a, b);
    IpsAppend(a + b, c);
    IpsAppend(a + b + c, d);
  }

  lemma IpsAppend(a: seq<DnsServer>, b: seq<DnsServer>)
    ensures Ips(a + b) == Ips(a) + Ips(b)
  {
  }

  /** With text countries (which every parsed record has), the run completes exactly when
      every isp is absent or text; the leak flag is then raised exactly when some server's
      country differs, ignoring case, from the first server's. An empty list, or a list whose
      countries are all the same, raises no leak. */
  lemma {:induction false} ServiceResultSpec(servers: seq<DnsServer>)
    requires forall s :: s in servers ==> s.country.Str?
    ensures var r := ServiceResult(servers);
      && (r.status == Completed <==> forall s :: s in servers ==> IspTextOrAbsent(s))
      && (r.status == Completed ==>
            (r.leakDetected <==> exists s :: s in servers && CountryDiffers(s, servers[0].country.s)))
      && (servers == [] ==> r.status == Completed && !r.leakDetected && r.details.totalServers == 0)
      && ((forall s :: s in servers ==> s.country == servers[0].country) ==> !r.leakDetected)
  {
    var user := UserCountry(servers);
    GroupByProviderSpec(servers);
    AggregateSpec(servers, user, ServiceLocation(servers));
    forall s | s in servers ensures CountryTextOrFalsy(s) { }
    DetectLeakIff(servers, user.s);
    assert LeakAgainst(servers, user).Ok?;
    if forall s :: s in servers ==> s.country == servers[0].country {
      forall s | s in servers ensures !CountryDiffers(s, user.s) {
        assert s.country == servers[0].country;
      }
    }
  }
}

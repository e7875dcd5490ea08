/** What the two four-probe DNS leak tests share: the probe schedule, the trace of fetches
    and pauses it produces, and the aggregation of the collected records into a result
    (src/services/dnsLeakTestService.ts and supabase/functions/dns-leak-test/index.ts). */
module DnsPipeline {
  import opened Js
  import opened DnsTypes
  import opened DnsUtils

  datatype Probe = Probe(testNumber: nat, family: Family)

  /** The four probes, in the order they run. */
  const Schedule: seq<Probe> := [Probe(1, V4), Probe(2, V4), Probe(3, V6), Probe(4, V6)]

  /** An observable step of a run: a probe's fetch or a pause between probes. */
  datatype Step = Fetch(probe: Probe) | Sleep(ms: nat)

  /** Every probe is fetched in order and followed by a one-second pause, except the last. */
  const FullTrace: seq<Step> :=
    [Fetch(Probe(1, V4)), Sleep(1000), Fetch(Probe(2, V4)), Sleep(1000),
     Fetch(Probe(3, V6)), Sleep(1000), Fetch(Probe(4, V6))]

  /** The steps of one iteration of the probe loop. */
  function StepsFor(p: Probe): seq<Step> {
    [Fetch(p)] + (if p.testNumber < 4 then [Sleep(1000)] else [])
  }

  function Steps(ps: seq<Probe>): seq<Step>
    decreases |ps|
  {
    if ps == [] then [] else Steps(ps[..|ps| - 1]) + StepsFor(ps[|ps| - 1])
  }

  lemma StepsStep(ps: seq<Probe>, i: nat)
    requires i < |ps|
    ensures Steps(ps[..i + 1]) == Steps(ps[..i]) + StepsFor(ps[i])
  {
    assert ps[..i + 1][..i] == ps[..i];
  }

  /** Running the whole schedule produces exactly the trace above. */
  lemma ScheduleSteps()
    ensures Steps(Schedule) == FullTrace
  {
    var s1, s2, s3 := Schedule[..1], Schedule[..2], Schedule[..3];
    assert s1[..0] == [] && s2[..1] == s1 && s3[..2] == s2 && Schedule[..3] == s3;
    assert Steps(s1) == [Fetch(Probe(1, V4)), Sleep(1000)];
    assert Steps(s2) == Steps(s1) + [Fetch(Probe(2, V4)), Sleep(1000)];
    assert Steps(s3) == Steps(s2) + [Fetch(Probe(3, V6)), Sleep(1000)];
    assert Steps(Schedule) == Steps(s3) + [Fetch(Probe(4, V6))];
  }

  /** The steps of a prefix of the probes are a prefix of the steps of all of them. */
  lemma {:induction false} StepsPrefix(ps: seq<Probe>, k: nat)
    requires k <= |ps|
    ensures Steps(ps[..k]) <= Steps(ps)
    decreases |ps| - k
  {
    if k < |ps| {
      StepsPrefix(ps, k + 1);
      assert ps[..k + 1][..k] == ps[..k];
    } else {
      assert ps[..k] == ps;
    }
  }

  /** The result of a run that threw: nothing found, everything zero, no location. */
  const ErrorResult := LeakTestResult([], false, None, Error, Failed, NoDetails, ByProvider(NoProviders))

  /** The aggregation both tests run on the collected records, against the user's country
      `user` and with the user location they report. It throws (and the run ends with the
      error result) when the leak rule or a provider filter throws. */
  function Aggregate(servers: seq<DnsServer>, user: Value, location: UserLocation): LeakTestResult {
    match (LeakAgainst(servers, user), GroupByProvider(servers))
    case (Ok(leak), Ok(groups)) =>
      LeakTestResult(servers, leak, Some(location), Completed, if leak then LeakFound else NoLeak,
        TestDetails(|servers|, UniqueCountries(servers), UniqueIsps(servers), Round(AverageResponseTime(servers))),
        ByProvider(groups))
    case _ => ErrorResult
  }

  /** A run either completes, keeping every collected record, counting them all and choosing
      the message by the leak flag alone, or it ends with the error result. */
  lemma AggregateSpec(servers: seq<DnsServer>, user: Value, location: UserLocation)
    ensures var r := Aggregate(servers, user, location);
      && (r.status == Completed <==> LeakAgainst(servers, user).Ok? && GroupByProvider(servers).Ok?)
      && (r.status == Completed ==>
            && r.servers == servers
            && r.leakDetected == LeakAgainst(servers, user).value
            && r.userLocation == Some(location)
            && (r.message == LeakFound <==> r.leakDetected)
            && r.details.totalServers == |servers|
            && r.details.uniqueCountries <= r.details.totalServers
            && r.details.uniqueIsps <= r.details.totalServers
            && r.sources == ByProvider(GroupByProvider(servers).value))
      && (r.status != Completed ==> r == ErrorResult)
  {
    UniqueCountsBounded(servers);
  }

  /** The error result reports no servers, no leak, all-zero details and empty groups. */
  lemma ErrorResultSpec()
    ensures ErrorResult.status == Error && !ErrorResult.leakDetected && ErrorResult.servers == []
    ensures ErrorResult.details == TestDetails(0, 0, 0, 0)
    ensures ErrorResult.sources == ByProvider(ProviderGroups([], [], [], []))
  {
  }

  /** When every record's response time lies in [lo, hi], so does the reported average. */
  lemma AverageReported(servers: seq<DnsServer>, user: Value, location: UserLocation, lo: int, hi: int)
    requires Aggregate(servers, user, location).status == Completed && |servers| > 0
    requires forall s :: s in servers ==> lo <= TimeOrZero(s) <= hi
    ensures lo <= Aggregate(servers, user, location).details.averageResponseTime <= hi
  {
    AverageBetween(servers, lo, hi);
  }
}

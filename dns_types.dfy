/** The records a DNS leak test produces (the shapes declared in src/types/dns.ts). */
module DnsTypes {
  import opened Js

  datatype Family = V4 | V6

  datatype Reliability = High | Medium | Low

  datatype ServerKind = Resolver | Authoritative

  /** One detected resolver. Fields that are copied verbatim out of a probe payload
      (country, isp, location, org) can hold any JSON value; `Undefined` means absent. */
  datatype DnsServer = DnsServer(
    ip: string,
    hostname: string,
    country: Value,
    isp: Value,
    kind: ServerKind,
    location: Value,
    asn: Option<string>,
    org: Value,
    responseTime: Option<int>,
    protocol: string,
    port: int,
    reliability: Reliability)

  datatype UserLocation = UserLocation(country: Value, region: string, city: string, isp: Value, asn: Value)

  datatype TestStatus = Running | Completed | Error

  /** Which status message the run chose; the Romanian wording itself is not modelled. */
  datatype Message = LeakFound | NoLeak | Failed

  /** `testDetails` without the measured duration and the timestamp. The average is the
      value of `Math.round` on the exact mean. */
  datatype TestDetails = TestDetails(totalServers: nat, uniqueCountries: nat, uniqueIsps: nat, averageResponseTime: int)

  /** The four public-resolver buckets of the direct test. */
  datatype ProviderGroups = ProviderGroups(
    opendns: seq<DnsServer>, cloudflare: seq<DnsServer>, quad9: seq<DnsServer>, google: seq<DnsServer>)

  /** The four origin buckets of the in-page test. */
  datatype OriginGroups = OriginGroups(
    local: seq<DnsServer>, public: seq<DnsServer>, isp: seq<DnsServer>, international: seq<DnsServer>)

  datatype Sources = ByProvider(providers: ProviderGroups) | ByOrigin(origins: OriginGroups)

  datatype LeakTestResult = LeakTestResult(
    servers: seq<DnsServer>,
    leakDetected: bool,
    userLocation: Option<UserLocation>,
    status: TestStatus,
    message: Message,
    details: TestDetails,
    sources: Sources)

  const NoDetails := TestDetails(0, 0, 0, 0)
  const NoProviders := ProviderGroups([], [], [], [])
  const NoOrigins := OriginGroups([], [], [], [])

  /** A record with the randomly drawn fields (asn, responseTime, reliability) erased, so that
      two parses of the same payload can be compared. */
  function Shape(s: DnsServer): DnsServer {
    s.(asn := None, responseTime := None, reliability := High)
  }

  function Shapes(ss: seq<DnsServer>): (r: seq<DnsServer>)
    ensures |r| == |ss|
    ensures forall i :: 0 <= i < |ss| ==> r[i] == Shape(ss[i])
  {
    seq(|ss|, i requires 0 <= i < |ss| => Shape(ss[i]))
  }

  lemma ShapesAppend(a: seq<DnsServer>, b: seq<DnsServer>)
    ensures Shapes(a + b) == Shapes(a) + Shapes(b)
  {
  }

  /** Order-preserving sub-sequence. */
  predicate IsSubsequence<T(==)>(a: seq<T>, b: seq<T>)
    decreases |b|
  {
    if a == [] then true
    else if b == [] then false
    else if a[0] == b[0] then IsSubsequence(a[1..], b[1..])
    else IsSubsequence(a, b[1..])
  }
}

/** The `scamalytics-analysis` edge function (supabase/functions/scamalytics-analysis/index.ts):
    request checks, the risk tiers for the address and its ISP, the list of external
    blacklists that flag the address, and the defaults applied to the upstream answer. The
    upstream call is an input: `None` when the fetch threw, the status was not ok or the body
    was not JSON. */
module Scamalytics {
  import opened Js

  // ---------------------------------------------------------------- risk tiers

  datatype Tier = Low | Moderate | High | VeryHigh

  function Rank(t: Tier): nat {
    match t
    case Low => 0
    case Moderate => 1
    case High => 2
    case VeryHigh => 3
  }

  /** `Number(v)` for the values a score can take, `None` standing for NaN. A string counts
      when it is a plain run of decimal digits (the empty string is 0). */
  function ToNumber(v: Value): Option<int> {
    match v
    case Undefined => None
    case Null => Some(0)
    case Bool(b) => Some(if b then 1 else 0)
    case Num(n) => Some(n)
    case Str(s) => if AllDigits(s) then Some(DigitsValue(s)) else None
    case Arr(items) => if items == [] then Some(0) else None
    case Obj(_) => None
  }

  /** `score >= bound`, which is false when the score is not a number. */
  predicate AtLeast(score: Value, bound: int) {
    ToNumber(score).Some? && ToNumber(score).value >= bound
  }

  /** The tier both risk functions choose: the first of "very high"/75, "high"/50 and
      "medium"/25 that the risk string or the score reaches. */
  function RiskTier(risk: Value, score: Value): (t: Tier)
    ensures risk == Str("very high") ==> t == VeryHigh
    ensures risk == Str("high") ==> Rank(t) >= 2
    ensures risk == Str("medium") ==> Rank(t) >= 1
    ensures AtLeast(score, 75) ==> t == VeryHigh
    ensures AtLeast(score, 50) ==> Rank(t) >= 2
    ensures AtLeast(score, 25) ==> Rank(t) >= 1
  {
    if risk == Str("very high") || AtLeast(score, 75) then VeryHigh
    else if risk == Str("high") || AtLeast(score, 50) then High
    else if risk == Str("medium") || AtLeast(score, 25) then Moderate
    else Low
  }

  function TierText(t: Tier): string {
    match t
    case VeryHigh => "Risc foarte ridicat"
    case High => "Risc ridicat"
    case Moderate => "Risc moderat"
    case Low => "Risc scăzut"
  }

  function IspTierText(t: Tier): string {
    match t
    case VeryHigh => "ISP Risc foarte ridicat"
    case High => "ISP Risc ridicat"
    case Moderate => "ISP Risc moderat"
    case Low => "ISP Risc scăzut"
  }

  /** `getRiskLevel(risk, score)` */
  function GetRiskLevel(risk: Value, score: Value): string {
    TierText(RiskTier(risk, score))
  }

  /** `getIspRiskLevel(risk, score)` */
  function GetIspRiskLevel(risk: Value, score: Value): string {
    IspTierText(RiskTier(risk, score))
  }

  predicate IsKeyword(risk: Value) {
    risk == Str("very high") || risk == Str("high") || risk == Str("medium")
  }

  /** With a risk string that is none of the keywords, the numeric score alone picks the
      tier, by the thresholds 25, 50 and 75. */
  lemma RiskTierByScore(risk: Value, score: int)
    requires !IsKeyword(risk)
    ensures RiskTier(risk, Num(score)) == VeryHigh <==> score >= 75
    ensures RiskTier(risk, Num(score)) == High <==> 50 <= score < 75
    ensures RiskTier(risk, Num(score)) == Moderate <==> 25 <= score < 50
    ensures RiskTier(risk, Num(score)) == Low <==> score < 25
  {
  }

  /** For a fixed risk string a larger score never gives a lower tier. */
  lemma RiskTierMonotone(risk: Value, a: int, b: int)
    requires a <= b
    ensures Rank(RiskTier(risk, Num(a))) <= Rank(RiskTier(risk, Num(b)))
  {
  }

  /** A missing or non-numeric score leaves the tier to the risk string alone. */
  lemma RiskTierWithoutScore(risk: Value, score: Value)
    requires ToNumber(score).None?
    ensures RiskTier(risk, score) == (if risk == Str("very high") then VeryHigh
                                      else if risk == Str("high") then High
                                      else if risk == Str("medium") then Moderate
                                      else Low)
  {
  }

  /** Each ISP label is the tier's label with "ISP " in front. */
  lemma IspTierTextPrefixed(t: Tier)
    ensures IspTierText(t) == "ISP " + TierText(t)
  {
    match t
    case VeryHigh => assert "ISP Risc foarte ridicat" == "ISP " + "Risc foarte ridicat";
    case High => assert "ISP Risc ridicat" == "ISP " + "Risc ridicat";
    case Moderate => assert "ISP Risc moderat" == "ISP " + "Risc moderat";
    case Low => assert "ISP Risc scăzut" == "ISP " + "Risc scăzut";
  }

  /** `getIspRiskLevel` is `getRiskLevel` with "ISP " in front, for every risk and score. */
  lemma IspLevelPrefixed(risk: Value, score: Value)
    ensures GetIspRiskLevel(risk, score) == "ISP " + GetRiskLevel(risk, score)
  {
    IspTierTextPrefixed(RiskTier(risk, score));
  }

  lemma {:induction false} TierTextInjective(a: Tier, b: Tier)
    requires TierText(a) == TierText(b)
    ensures a == b
  {
  }

  // ---------------------------------------------------------------- blacklist sources

  datatype Source = IPSum | Spamhaus | IP2Proxy | X4BNet

  function SourceName(s: Source): string {
    match s
    case IPSum => "IPSum"
    case Spamhaus => "Spamhaus"
    case IP2Proxy => "IP2Proxy"
    case X4BNet => "X4BNet"
  }

  /** The position of each source in the order the function checks them. */
  function SourceRank(s: Source): nat {
    match s
    case IPSum => 0
    case Spamhaus => 1
    case IP2Proxy => 2
    case X4BNet => 3
  }

  /** The flag of a source under `external_datasources`, read with optional chaining. */
  predicate Flagged(ext: Value, s: Source) {
    match s
    case IPSum => Truthy(OptProp(OptProp(ext, "ipsum"), "ip_blacklisted"))
    case Spamhaus => Truthy(OptProp(OptProp(ext, "spamhaus_drop"), "ip_blacklisted"))
    case IP2Proxy => Truthy(OptProp(OptProp(ext, "ip2proxy_lite"), "ip_blacklisted"))
    case X4BNet => Truthy(OptProp(OptProp(ext, "x4bnet"), "is_blacklisted_spambot"))
  }

  /** `sources` lists, in rank order, exactly the flagged sources ranked below `upto`. */
  ghost predicate ListsBelow(sources: seq<Source>, ext: Value, upto: nat) {
    && (forall s :: s in sources <==> Flagged(ext, s) && SourceRank(s) < upto)
    && (forall i, j :: 0 <= i < j < |sources| ==> SourceRank(sources[i]) < SourceRank(sources[j]))
    && (Nullish(ext) ==> sources == [])
  }

  /** Appending the source of rank `upto` when it is flagged extends the list by one rank. */
  lemma ListsNext(before: seq<Source>, after: seq<Source>, ext: Value, s: Source)
    requires ListsBelow(before, ext, SourceRank(s))
    requires after == if Flagged(ext, s) then before + [s] else before
    ensures ListsBelow(after, ext, SourceRank(s) + 1)
  {
    forall t ensures t in after <==> Flagged(ext, t) && SourceRank(t) < SourceRank(s) + 1 {
      assert SourceRank(t) == SourceRank(s) <==> t == s;
    }
    if Nullish(ext) {
      assert !Flagged(ext, s);
    }
  }

  /** A list of every rank below 4 holds each flagged source once, in rank order, and nothing
      when `external_datasources` is missing. */
  lemma ListedSources(sources: seq<Source>, ext: Value)
    requires ListsBelow(sources, ext, 4)
    ensures forall s :: s in sources <==> Flagged(ext, s)
    ensures forall i, j :: 0 <= i < j < |sources| ==> SourceRank(sources[i]) < SourceRank(sources[j])
    ensures Nullish(ext) ==> sources == []
  {
    assert forall s :: SourceRank(s) < 4;
  }

  /** `blacklistSources`: the flagged sources in the fixed order, as `ListedSources` spells out. */
  method CollectBlacklistSources(ext: Value) returns (sources: seq<Source>)
    ensures ListsBelow(sources, ext, 4)
  {
    sources := [];
    ghost var before := sources;
    if Flagged(ext, IPSum) {
      sources := sources + [IPSum];
    }
    ListsNext(before, sources, ext, IPSum);
    before := sources;
    if Flagged(ext, Spamhaus) {
      sources := sources + [Spamhaus];
    }
    ListsNext(before, sources, ext, Spamhaus);
    before := sources;
    if Flagged(ext, IP2Proxy) {
      sources := sources + [IP2Proxy];
    }
    ListsNext(before, sources, ext, IP2Proxy);
    before := sources;
    if Flagged(ext, X4BNet) {
      sources := sources + [X4BNet];
    }
    ListsNext(before, sources, ext, X4BNet);
  }

  // ---------------------------------------------------------------- processed answer

  datatype Processed = Processed(
    fraudScore: Value, riskLevel: string, vpnDetected: Value, proxyDetected: Value,
    ispScore: Value, ispRisk: string, isDatacenter: Value, isAppleRelay: Value,
    isAmazonAws: Value, isGoogle: Value, proxyType: Value, blacklistSources: seq<Source>)

  /** `out` is `v || fallback`: the value itself when truthy, the fallback otherwise. */
  predicate Defaulted(out: Value, v: Value, fallback: Value) {
    (Truthy(v) ==> out == v) && (!Truthy(v) ==> out == fallback)
  }

  /** `p` is the `processedData` of the upstream answer `data`: every field is its `||` default,
      the two risk texts come from the risk rules, `proxyDetected` repeats `isDatacenter`, and
      the blacklist sources are exactly the flagged ones, in rank order. */
  predicate ProcessedFrom(p: Processed, data: Value)
    requires !Nullish(data)
  {
    var s := Prop(data, "scamalytics");
    var proxy := OptProp(s, "scamalytics_proxy");
    var ext := Prop(data, "external_datasources");
    && Defaulted(p.fraudScore, OptProp(s, "scamalytics_score"), Num(0))
    && Defaulted(p.ispScore, OptProp(s, "scamalytics_isp_score"), Num(0))
    && p.riskLevel == GetRiskLevel(OptProp(s, "scamalytics_risk"), OptProp(s, "scamalytics_score"))
    && p.ispRisk == GetIspRiskLevel(OptProp(s, "scamalytics_isp_risk"), OptProp(s, "scamalytics_isp_score"))
    && Defaulted(p.vpnDetected, OptProp(proxy, "is_vpn"), Bool(false))
    && Defaulted(p.isDatacenter, OptProp(proxy, "is_datacenter"), Bool(false))
    && p.proxyDetected == p.isDatacenter
    && Defaulted(p.isAppleRelay, OptProp(proxy, "is_apple_icloud_private_relay"), Bool(false))
    && Defaulted(p.isAmazonAws, OptProp(proxy, "is_amazon_aws"), Bool(false))
    && Defaulted(p.isGoogle, OptProp(proxy, "is_google"), Bool(false))
    && Defaulted(p.proxyType, OptProp(OptProp(ext, "ip2proxy_lite"), "proxy_type"), Str("Unknown"))
    && (forall src :: src in p.blacklistSources <==> Flagged(ext, src))
    && (forall i, j :: 0 <= i < j < |p.blacklistSources| ==>
          SourceRank(p.blacklistSources[i]) < SourceRank(p.blacklistSources[j]))
  }

  /** Builds `processedData` from an upstream answer that is not null. */
  method ProcessAnswer(data: Value) returns (p: Processed)
    requires !Nullish(data)
    ensures ProcessedFrom(p, data)
    ensures Nullish(Prop(data, "scamalytics")) ==>
      && p.fraudScore == Num(0) && p.ispScore == Num(0)
      && p.riskLevel == "Risc scăzut" && p.ispRisk == "ISP Risc scăzut"
      && p.vpnDetected == p.proxyDetected == p.isAppleRelay == p.isAmazonAws == p.isGoogle == Bool(false)
    ensures Nullish(Prop(data, "external_datasources")) ==> p.proxyType == Str("Unknown") && p.blacklistSources == []
  {
    var ext := Prop(data, "external_datasources");
    var sources := CollectBlacklistSources(ext);
    ListedSources(sources, ext);
    var s := Prop(data, "scamalytics");
    var proxy := OptProp(s, "scamalytics_proxy");
    var datacenter := Or(OptProp(proxy, "is_datacenter"), Bool(false));
    p := Processed(
      Or(OptProp(s, "scamalytics_score"), Num(0)),
      GetRiskLevel(OptProp(s, "scamalytics_risk"), OptProp(s, "scamalytics_score")),
      Or(OptProp(proxy, "is_vpn"), Bool(false)),
      datacenter,
      Or(OptProp(s, "scamalytics_isp_score"), Num(0)),
      GetIspRiskLevel(OptProp(s, "scamalytics_isp_risk"), OptProp(s, "scamalytics_isp_score")),
      datacenter,
      Or(OptProp(proxy, "is_apple_icloud_private_relay"), Bool(false)),
      Or(OptProp(proxy, "is_amazon_aws"), Bool(false)),
      Or(OptProp(proxy, "is_google"), Bool(false)),
      Or(OptProp(OptProp(ext, "ip2proxy_lite"), "proxy_type"), Str("Unknown")),
      sources);
  }

  // ---------------------------------------------------------------- request handling

  datatype Body = NoBody | ErrorBody(error: string) | Analysis(data: Processed)

  datatype Reply = Reply(status: nat, body: Body)

  /** The upstream call that was made: the account, the key and the address asked about. */
  datatype UpstreamRequest = UpstreamRequest(user: string, key: string, ip: Value)

  /** `!x` for an environment variable, which is either unset or a string. */
  predicate Missing(x: Option<string>) {
    x.None? || x.value == ""
  }

  const Failed := Reply(500, ErrorBody("Failed to analyze IP"))

  /** Handles one request. `request` is the parsed JSON body (`None` when it is not JSON),
      `user` and `key` the two environment variables, `upstream` the upstream answer. */
  method Serve(requestMethod: string, request: Option<Value>, user: Option<string>, key: Option<string>, upstream: Option<Value>)
    returns (reply: Reply, called: Option<UpstreamRequest>)
    ensures requestMethod == "OPTIONS" ==> reply == Reply(200, NoBody) && called.None?
    ensures requestMethod != "OPTIONS" && (request.None? || Nullish(request.value)) ==>
      reply == Failed && called.None?
    ensures requestMethod != "OPTIONS" && request.Some? && !Nullish(request.value) ==>
      var ip := Prop(request.value, "ip");
      && (!Truthy(ip) ==> reply == Reply(400, ErrorBody("IP address is required")) && called.None?)
      && (Truthy(ip) && (Missing(user) || Missing(key)) ==>
            reply == Reply(500, ErrorBody("Scamalytics credentials not configured")) && called.None?)
      && (Truthy(ip) && !Missing(user) && !Missing(key) ==>
            && called == Some(UpstreamRequest(user.value, key.value, ip))
            && (upstream.None? || Nullish(upstream.value) ==> reply == Failed)
            && (upstream.Some? && !Nullish(upstream.value) ==>
                  reply.status == 200 && reply.body.Analysis? && ProcessedFrom(reply.body.data, upstream.value)))
    ensures reply.status == 200 ==> requestMethod == "OPTIONS" || called.Some?
  {
    called := None;
    if requestMethod == "OPTIONS" {
      return Reply(200, NoBody), called;
    }
    if request.None? || Nullish(request.value) {
      return Failed, called;
    }
    var ip := Prop(request.value, "ip");
    if !Truthy(ip) {
      return Reply(400, ErrorBody("IP address is required")), called;
    }
    if Missing(user) || Missing(key) {
      return Reply(500, ErrorBody("Scamalytics credentials not configured")), called;
    }
    called := Some(UpstreamRequest(user.value, key.value, ip));
    if upstream.None? || Nullish(upstream.value) {
      return Failed, called;
    }
    var processed := ProcessAnswer(upstream.value);
    reply := Reply(200, Analysis(processed));
  }
}

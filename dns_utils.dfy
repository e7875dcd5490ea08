/** The shared helpers of the DNS leak test (src/utils/dnsUtils.ts) and the summary rules
    that the three pipelines repeat inline. */
module DnsUtils {
  import opened Js
  import opened DnsTypes

  const Alphabet := "abcdefghijklmnopqrstuvwxyz0123456789"

  /** `generateRandomString(length)`: each character is `chars.charAt(floor(random * 36))`;
      the random index is any index of the alphabet. */
  method GenerateRandomString(length: int) returns (result: string)
    ensures |result| == if length > 0 then length else 0
    ensures forall i :: 0 <= i < |result| ==> result[i] in Alphabet
  {
    result := "";
    var i := 0;
    while i < length
      invariant 0 <= i <= (if length > 0 then length else 0)
      invariant |result| == i
      invariant forall j :: 0 <= j < |result| ==> result[j] in Alphabet
    {
      var k :| 0 <= k < |Alphabet|;
      result := result + [Alphabet[k]];
      i := i + 1;
    }
  }

  // ---------------------------------------------------------------- leak rule

  /** `v.toLowerCase()`, which throws unless `v` is a string. */
  function LowerOf(v: Value): Result<string> {
    if v.Str? then Ok(Lower(v.s)) else TypeError
  }

  /** `servers.some(s => s.country && s.country.toLowerCase() !== user.toLowerCase())`,
      evaluated left to right and stopping at the first server that answers true. */
  function LeakAgainst(servers: seq<DnsServer>, user: Value): Result<bool>
    decreases |servers|
  {
    if servers == [] then Ok(false)
    else if !Truthy(servers[0].country) then LeakAgainst(servers[1..], user)
    else match (LowerOf(servers[0].country), LowerOf(user))
      case (Ok(c), Ok(u)) => if c != u then Ok(true) else LeakAgainst(servers[1..], user)
      case _ => TypeError
  }

  /** `detectLeak(dnsServers, userCountry)` */
  function DetectLeak(servers: seq<DnsServer>, userCountry: string): Result<bool> {
    LeakAgainst(servers, Str(userCountry))
  }

  predicate CountryTextOrFalsy(s: DnsServer) {
    !Truthy(s.country) || s.country.Str?
  }

  predicate CountryDiffers(s: DnsServer, user: string) {
    s.country.Str? && s.country.s != "" && Lower(s.country.s) != Lower(user)
  }

  /** When every country is a string or falsy, detectLeak is true exactly when some server
      has a non-empty country that differs from the user's ignoring case. An empty list, and
      servers with an absent or empty country, never raise it. */
  lemma {:induction false} DetectLeakIff(servers: seq<DnsServer>, user: string)
    requires forall s :: s in servers ==> CountryTextOrFalsy(s)
    ensures DetectLeak(servers, user) == Ok(exists s :: s in servers && CountryDiffers(s, user))
    decreases |servers|
  {
    if servers != [] {
      DetectLeakIff(servers[1..], user);
      var s0 := servers[0];
      assert forall s :: s in servers <==> s == s0 || s in servers[1..];
      assert s0 in servers;
      if Truthy(s0.country) {
        assert LowerOf(s0.country) == Ok(Lower(s0.country.s));
        assert LowerOf(Str(user)) == Ok(Lower(user));
        assert CountryDiffers(s0, user) <==> Lower(s0.country.s) != Lower(user);
      } else {
        assert !CountryDiffers(s0, user);
      }
    }
  }

  /** A truthy country that is not a string makes the expression throw unless an earlier
      server already answered true; it never gives a clean verdict. */
  lemma {:induction false} NonTextCountryNeverClean(servers: seq<DnsServer>, user: Value, k: nat)
    requires k < |servers| && Truthy(servers[k].country) && !servers[k].country.Str?
    ensures LeakAgainst(servers, user) != Ok(false)
    decreases k
  {
    if k > 0 && Truthy(servers[0].country) && servers[0].country.Str? && user.Str?
       && Lower(servers[0].country.s) == Lower(user.s) {
      NonTextCountryNeverClean(servers[1..], user, k - 1);
    } else if k > 0 && !Truthy(servers[0].country) {
      NonTextCountryNeverClean(servers[1..], user, k - 1);
    }
  }

  /** The comparison ignores case: "GERMANY" and "germany" against "Germany" are no leak,
      while one server in "France" is. */
  lemma DetectLeakIgnoresCase(a: DnsServer, b: DnsServer, c: DnsServer)
    requires a.country == Str("GERMANY") && b.country == Str("germany") && c.country == Str("France")
    ensures DetectLeak([a, b], "Germany") == Ok(false)
    ensures DetectLeak([a, b, c], "Germany") == Ok(true)
  {
    DetectLeakIff([a, b], "Germany");
    assert !CountryDiffers(a, "Germany") && !CountryDiffers(b, "Germany");
    DetectLeakIff([a, b, c], "Germany");
    assert CountryDiffers(c, "Germany");
  }

  // ---------------------------------------------------------------- response time

  /** `server.responseTime || 0` */
  function TimeOrZero(s: DnsServer): int {
    match s.responseTime
    case Some(t) => t
    case None => 0
  }

  function TotalTime(servers: seq<DnsServer>): int {
    if servers == [] then 0 else TimeOrZero(servers[0]) + TotalTime(servers[1..])
  }

  /** `calculateAverageResponseTime(servers)`, computed exactly. */
  function AverageResponseTime(servers: seq<DnsServer>): real {
    if |servers| == 0 then 0.0 else TotalTime(servers) as real / |servers| as real
  }

  /** `Math.round(x)`: the nearest integer, halves rounded up. */
  function Round(x: real): int {
    (x + 0.5).Floor
  }

  lemma {:induction false} TotalTimeBetween(servers: seq<DnsServer>, lo: int, hi: int)
    requires forall s :: s in servers ==> lo <= TimeOrZero(s) <= hi
    ensures |servers| * lo <= TotalTime(servers) <= |servers| * hi
    decreases |servers|
  {
    if servers != [] {
      var rest := servers[1..];
      assert forall s :: s in rest ==> s in servers;
      TotalTimeBetween(rest, lo, hi);
      assert servers[0] in servers;
      OneMore(|rest|, lo);
      OneMore(|rest|, hi);
    }
  }

  lemma OneMore(n: int, x: int)
    ensures (n + 1) * x == n * x + x
  {
  }

  /** The average of a non-empty list lies between any bounds of its `responseTime || 0`
      values, and so does its rounding. */
  lemma AverageBetween(servers: seq<DnsServer>, lo: int, hi: int)
    requires |servers| > 0
    requires forall s :: s in servers ==> lo <= TimeOrZero(s) <= hi
    ensures lo as real <= AverageResponseTime(servers) <= hi as real
    ensures lo <= Round(AverageResponseTime(servers)) <= hi
  {
    TotalTimeBetween(servers, lo, hi);
    QuotientBetween(TotalTime(servers), |servers|, lo, hi);
  }

  lemma QuotientBetween(t: int, n: int, lo: int, hi: int)
    requires n > 0 && n * lo <= t <= n * hi
    ensures lo as real <= t as real / n as real <= hi as real
  {
    var q := t as real / n as real;
    assert q * n as real == t as real;
    assert (n * lo) as real == n as real * lo as real;
    assert (n * hi) as real == n as real * hi as real;
    FactorSign(q - lo as real, n as real);
    FactorSign(hi as real - q, n as real);
  }

  lemma FactorSign(x: real, y: real)
    requires y > 0.0 && x * y >= 0.0
    ensures x >= 0.0
  {
  }

  // ---------------------------------------------------------------- distinct counts

  /** The non-array, non-object values other than `excluded`. */
  function PrimitivesExcept(vals: seq<Value>, excluded: Value): set<Value> {
    set v | v in vals && IsPrimitive(v) && v != excluded
  }

  function CompositeCount(vals: seq<Value>): nat {
    if vals == [] then 0 else (if IsPrimitive(vals[0]) then 0 else 1) + CompositeCount(vals[1..])
  }

  /** `[...new Set(vals)].filter(v => v !== excluded).length` for a primitive `excluded`. The
      Set compares primitives by value and arrays and objects by identity; every record comes
      from its own JSON entry, so each array or object occurrence is a distinct element. */
  function DistinctCount(vals: seq<Value>, excluded: Value): nat
    requires IsPrimitive(excluded)
  {
    |PrimitivesExcept(vals, excluded)| + CompositeCount(vals)
  }

  /** The first value joins the set of the rest when it is a primitive other than `excluded`. */
  lemma PrimitivesHead(vals: seq<Value>, excluded: Value)
    requires vals != []
    ensures PrimitivesExcept(vals, excluded) == PrimitivesExcept(vals[1..], excluded)
      + (if IsPrimitive(vals[0]) && vals[0] != excluded then {vals[0]} else {})
  {
    assert forall w :: w in vals <==> w == vals[0] || w in vals[1..];
  }

  /** Every value is `excluded` when the first one is and every later one is. */
  lemma AllExcludedHead(vals: seq<Value>, excluded: Value)
    requires vals != []
    ensures (forall v :: v in vals ==> v == excluded)
      <==> vals[0] == excluded && forall v :: v in vals[1..] ==> v == excluded
  {
    assert vals[0] in vals;
    assert forall w :: w in vals[1..] ==> w in vals;
    assert forall w :: w in vals ==> w == vals[0] || w in vals[1..];
  }

  lemma {:induction false} DistinctCountBound(vals: seq<Value>, excluded: Value)
    requires IsPrimitive(excluded)
    ensures DistinctCount(vals, excluded) <= |vals|
    ensures DistinctCount(vals, excluded) == 0 <==> forall v :: v in vals ==> v == excluded
    decreases |vals|
  {
    if vals != [] {
      DistinctCountBound(vals[1..], excluded);
      PrimitivesHead(vals, excluded);
      AllExcludedHead(vals, excluded);
      var v := vals[0];
      var rest := PrimitivesExcept(vals[1..], excluded);
      if IsPrimitive(v) && v != excluded {
        assert |rest + {v}| <= |rest| + 1;
        assert v in rest + {v};
      }
    }
  }

  function Countries(servers: seq<DnsServer>): (r: seq<Value>)
    ensures |r| == |servers| && forall i :: 0 <= i < |servers| ==> r[i] == servers[i].country
  {
    seq(|servers|, i requires 0 <= i < |servers| => servers[i].country)
  }

  function Isps(servers: seq<DnsServer>): (r: seq<Value>)
    ensures |r| == |servers| && forall i :: 0 <= i < |servers| ==> r[i] == servers[i].isp
  {
    seq(|servers|, i requires 0 <= i < |servers| => servers[i].isp)
  }

  /** `getUniqueCountries(servers)` */
  function UniqueCountries(servers: seq<DnsServer>): nat {
    DistinctCount(Countries(servers), Str("Unknown"))
  }

  /** `getUniqueISPs(servers)` */
  function UniqueIsps(servers: seq<DnsServer>): nat {
    DistinctCount(Isps(servers), Str("Unknown ISP"))
  }

  /** Both counts are at most the number of servers, and the country count is zero exactly
      when every country is "Unknown". */
  lemma UniqueCountsBounded(servers: seq<DnsServer>)
    ensures UniqueCountries(servers) <= |servers|
    ensures UniqueIsps(servers) <= |servers|
    ensures UniqueCountries(servers) == 0 <==> forall s :: s in servers ==> s.country == Str("Unknown")
  {
    DistinctCountBound(Countries(servers), Str("Unknown"));
    DistinctCountBound(Isps(servers), Str("Unknown ISP"));
    var cs := Countries(servers);
    assert forall s :: s in servers ==> s.country in cs by {
      forall s | s in servers ensures s.country in cs {
        var i :| 0 <= i < |servers| && servers[i] == s;
        assert cs[i] == s.country;
      }
    }
  }

  // ---------------------------------------------------------------- provider buckets

  /** `s.isp?.toLowerCase().includes(key)` for an isp that is a string. */
  predicate IspHas(s: DnsServer, key: string) {
    s.isp.Str? && Contains(Lower(s.isp.s), key)
  }

  /** `isp?.toLowerCase()` throws unless the isp is absent, null or a string. */
  predicate IspTextOrAbsent(s: DnsServer) {
    Nullish(s.isp) || s.isp.Str?
  }

  function ServersWithIsp(servers: seq<DnsServer>, key: string): seq<DnsServer> {
    if servers == [] then []
    else if IspHas(servers[0], key) then [servers[0]] + ServersWithIsp(servers[1..], key)
    else ServersWithIsp(servers[1..], key)
  }

  /** A bucket keeps the order of `servers` and holds exactly the servers whose lowercased
      isp contains the key. */
  lemma {:induction false} ServersWithIspSpec(servers: seq<DnsServer>, key: string)
    ensures IsSubsequence(ServersWithIsp(servers, key), servers)
    ensures forall s :: s in ServersWithIsp(servers, key) <==> s in servers && IspHas(s, key)
    decreases |servers|
  {
    if servers != [] {
      ServersWithIspSpec(servers[1..], key);
      assert forall s :: s in servers <==> s == servers[0] || s in servers[1..];
      if !IspHas(servers[0], key) {
        SubsequenceSkip(ServersWithIsp(servers[1..], key), servers);
      }
    }
  }

  lemma {:induction false} SubsequenceSkip<T>(a: seq<T>, b: seq<T>)
    requires b != [] && IsSubsequence(a, b[1..])
    ensures IsSubsequence(a, b)
    decreases |a| + |b|
  {
    if a != [] && a[0] == b[0] {
      if |b| > 1 {
        SubsequenceDrop(a, b[1..]);
      }
    }
  }

  lemma {:induction false} SubsequenceDrop<T>(a: seq<T>, b: seq<T>)
    requires a != [] && IsSubsequence(a, b)
    ensures IsSubsequence(a[1..], b)
    decreases |a| + |b|
  {
    if a[0] == b[0] {
      if b != [] {
        SubsequenceSkip(a[1..], b);
      }
    } else {
      SubsequenceDrop(a, b[1..]);
      SubsequenceSkip(a[1..], b);
    }
  }

  /** `groupServersByProvider(servers)`: four filters over the lowercased isp. They throw as
      soon as some isp is neither absent, null nor a string. */
  function GroupByProvider(servers: seq<DnsServer>): Result<ProviderGroups> {
    if forall s | s in servers :: IspTextOrAbsent(s) then
      Ok(ProviderGroups(
        ServersWithIsp(servers, "opendns"),
        ServersWithIsp(servers, "cloudflare"),
        ServersWithIsp(servers, "quad9"),
        ServersWithIsp(servers, "google")))
    else TypeError
  }

  /** Grouping fails exactly on an isp of another type; otherwise every bucket is its filter,
      and one server may sit in several buckets. */
  lemma GroupByProviderSpec(servers: seq<DnsServer>)
    ensures GroupByProvider(servers).TypeError? <==> exists s :: s in servers && !IspTextOrAbsent(s)
    ensures GroupByProvider(servers).Ok? ==>
      var g := GroupByProvider(servers).value;
      && IsSubsequence(g.opendns, servers) && IsSubsequence(g.cloudflare, servers)
      && IsSubsequence(g.quad9, servers) && IsSubsequence(g.google, servers)
      && (forall s :: s in g.opendns <==> s in servers && IspHas(s, "opendns"))
      && (forall s :: s in g.cloudflare <==> s in servers && IspHas(s, "cloudflare"))
      && (forall s :: s in g.quad9 <==> s in servers && IspHas(s, "quad9"))
      && (forall s :: s in g.google <==> s in servers && IspHas(s, "google"))
  {
    ServersWithIspSpec(servers, "opendns");
    ServersWithIspSpec(servers, "cloudflare");
    ServersWithIspSpec(servers, "quad9");
    ServersWithIspSpec(servers, "google");
  }
}

/** `parseDNSResponse`: turns a probe reply `{ip: [countryCode, "Country, City", org], ...}`
    into resolver records. The same function appears in src/services/dnsApiClient.ts,
    src/services/dnsLeakTestService.ts and supabase/functions/dns-leak-test/index.ts. */
module DnsParse {
  import opened Js
  import opened DnsTypes

  /** `Array.isArray(details) && details.length >= 3` */
  predicate Kept(details: Value) {
    details.Arr? && |details.items| >= 3
  }

  function FamilyLabel(family: Family): string {
    if family == V6 then "ipv6" else "ipv4"
  }

  function ProtocolFor(family: Family): string {
    if family == V6 then "UDP6" else "UDP"
  }

  function Hostname(ip: string, testNumber: nat, family: Family): string {
    FamilyLabel(family) + "-dns-" + Decimal(testNumber) + "-" + DashSeparators(ip)
  }

  /** `location.split(', ')[0] || 'Unknown'` */
  function CountryOf(location: string): string {
    var first := FirstSegment(location);
    if first == "" then "Unknown" else first
  }

  /** The record built from one kept entry, random fields erased; it throws when the
      location is not a string (`location.split` is then not a function). */
  function EntryShape(ip: string, details: Value, testNumber: nat, family: Family): Result<DnsServer>
    requires Kept(details)
  {
    var location := details.items[1];
    var org := details.items[2];
    if !location.Str? then TypeError
    else Ok(DnsServer(ip, Hostname(ip, testNumber, family), Str(CountryOf(location.s)), org,
                      Resolver, location, None, org, None, ProtocolFor(family), 53, High))
  }

  /** Shapes of the records built from `es` in order; the first kept entry with a
      non-string location makes the whole parse throw. */
  function ParseEntriesShape(es: seq<(string, Value)>, testNumber: nat, family: Family): Result<seq<DnsServer>>
    decreases |es|
  {
    if es == [] then Ok([])
    else
      var last := es[|es| - 1];
      match ParseEntriesShape(es[..|es| - 1], testNumber, family)
      case TypeError => TypeError
      case Ok(prefix) =>
        if !Kept(last.1) then Ok(prefix)
        else match EntryShape(last.0, last.1, testNumber, family)
          case TypeError => TypeError
          case Ok(s) => Ok(prefix + [s])
  }

  function ParseShape(data: Value, testNumber: nat, family: Family): Result<seq<DnsServer>> {
    if !Truthy(data) then Ok([]) else ParseEntriesShape(Entries(data), testNumber, family)
  }

  /** The bounds of the random fields: asn is "AS" and a number in [10000, 99999], the
      response time lies in [10, 109]. */
  predicate RandomFieldsInRange(s: DnsServer) {
    && s.asn.Some? && (exists k :: 10000 <= k <= 99999 && s.asn.value == "AS" + Decimal(k))
    && s.responseTime.Some? && 10 <= s.responseTime.value <= 109
  }

  /** What the probe loops rely on for every kept record: drawn fields in range and a
      non-empty text country. */
  predicate Collectable(s: DnsServer) {
    RandomFieldsInRange(s) && s.country.Str? && s.country.s != ""
  }

  /** What a parsed record always looks like. */
  predicate ParsedRecord(s: DnsServer, testNumber: nat, family: Family) {
    && s.location.Str?
    && s.country == Str(CountryOf(s.location.s))
    && s.isp == s.org
    && s.kind == Resolver
    && s.hostname == Hostname(s.ip, testNumber, family)
    && s.protocol == ProtocolFor(family)
    && s.port == 53
  }

  /** How one more entry extends the parse of the entries before it. */
  lemma ParseEntriesStep(es: seq<(string, Value)>, i: nat, testNumber: nat, family: Family, prefix: seq<DnsServer>)
    requires i < |es| && ParseEntriesShape(es[..i], testNumber, family) == Ok(prefix)
    ensures !Kept(es[i].1) ==> ParseEntriesShape(es[..i + 1], testNumber, family) == Ok(prefix)
    ensures Kept(es[i].1) && !es[i].1.items[1].Str? ==> ParseEntriesShape(es[..i + 1], testNumber, family).TypeError?
    ensures Kept(es[i].1) && es[i].1.items[1].Str? ==>
      ParseEntriesShape(es[..i + 1], testNumber, family) == Ok(prefix + [EntryShape(es[i].0, es[i].1, testNumber, family).value])
  {
    var next := es[..i + 1];
    assert next[..|next| - 1] == es[..i] && next[|next| - 1] == es[i];
  }

  /** The record for one kept entry with a text location, with freshly drawn asn, response
      time and reliability. */
  method BuildServer(ip: string, details: Value, testNumber: nat, family: Family) returns (server: DnsServer)
    requires Kept(details) && details.items[1].Str?
    ensures Shape(server) == EntryShape(ip, details, testNumber, family).value
    ensures RandomFieldsInRange(server)
  {
    var location := details.items[1];
    var org := details.items[2];
    var k :| 10000 <= k <= 99999;
    var t :| 10 <= t <= 109;
    var reliability: Reliability :| true;
    server := DnsServer(ip, Hostname(ip, testNumber, family), Str(CountryOf(location.s)), org,
                        Resolver, location, Some("AS" + Decimal(k)), org, Some(t),
                        ProtocolFor(family), 53, reliability);
  }

  /** The loop over `Object.entries(data)`: one record per kept entry, in order. */
  method ParseEntries(entries: seq<(string, Value)>, testNumber: nat, family: Family) returns (r: Result<seq<DnsServer>>)
    ensures r.TypeError? <==> ParseEntriesShape(entries, testNumber, family).TypeError?
    ensures r.Ok? ==> Shapes(r.value) == ParseEntriesShape(entries, testNumber, family).value
    ensures r.Ok? ==> forall s :: s in r.value ==> RandomFieldsInRange(s)
  {
    var servers: seq<DnsServer> := [];
    var i := 0;
    while i < |entries|
      invariant 0 <= i <= |entries|
      invariant ParseEntriesShape(entries[..i], testNumber, family) == Ok(Shapes(servers))
      invariant forall s :: s in servers ==> RandomFieldsInRange(s)
    {
      var (ip, details) := entries[i];
      ParseEntriesStep(entries, i, testNumber, family, Shapes(servers));
      if Kept(details) {
        if !details.items[1].Str? {
          PrefixThrows(entries, i + 1, testNumber, family);
          return TypeError;
        }
        var server := BuildServer(ip, details, testNumber, family);
        ShapesAppend(servers, [server]);
        assert Shapes([server]) == [Shape(server)];
        servers := servers + [server];
      }
      i := i + 1;
    }
    assert entries[..i] == entries;
    return Ok(servers);
  }

  method ParseDnsResponse(data: Value, testNumber: nat, family: Family) returns (r: Result<seq<DnsServer>>)
    ensures !Truthy(data) || Entries(data) == [] ==> r == Ok([])
    ensures r.TypeError? <==> ParseShape(data, testNumber, family).TypeError?
    ensures r.Ok? ==> Shapes(r.value) == ParseShape(data, testNumber, family).value
    ensures r.Ok? ==> forall s :: s in r.value ==> RandomFieldsInRange(s)
  {
    if !Truthy(data) {
      return Ok([]);
    }
    r := ParseEntries(Entries(data), testNumber, family);
    if Entries(data) == [] {
      assert r.value == [];
    }
  }

  lemma {:induction false} PrefixThrows(es: seq<(string, Value)>, j: nat, testNumber: nat, family: Family)
    requires j <= |es| && ParseEntriesShape(es[..j], testNumber, family).TypeError?
    ensures ParseEntriesShape(es, testNumber, family).TypeError?
    decreases |es| - j
  {
    if j < |es| {
      assert es[..j + 1][..j] == es[..j];
      PrefixThrows(es, j + 1, testNumber, family);
    } else {
      assert es[..j] == es;
    }
  }

  // ---------------------------------------------------------------- properties of the parse

  /** The keys of the kept entries, in order. */
  function KeptKeys(es: seq<(string, Value)>): seq<string>
    decreases |es|
  {
    if es == [] then []
    else if Kept(es[|es| - 1].1) then KeptKeys(es[..|es| - 1]) + [es[|es| - 1].0]
    else KeptKeys(es[..|es| - 1])
  }

  function Ips(ss: seq<DnsServer>): (r: seq<string>)
    ensures |r| == |ss| && forall i :: 0 <= i < |ss| ==> r[i] == ss[i].ip
  {
    seq(|ss|, i requires 0 <= i < |ss| => ss[i].ip)
  }

  /** A successful parse yields one record per kept entry, in entry order, and every record
      has the parsed form; hence at most as many records as entries. */
  lemma {:induction false} ParseEntriesShapeSpec(es: seq<(string, Value)>, testNumber: nat, family: Family)
    requires ParseEntriesShape(es, testNumber, family).Ok?
    ensures var out := ParseEntriesShape(es, testNumber, family).value;
      && Ips(out) == KeptKeys(es)
      && |out| <= |es|
      && forall s :: s in out ==> ParsedRecord(s, testNumber, family)
    decreases |es|
  {
    if es != [] {
      var prefix := es[..|es| - 1];
      ParseEntriesShapeSpec(prefix, testNumber, family);
      var p := ParseEntriesShape(prefix, testNumber, family).value;
      var last := es[|es| - 1];
      if Kept(last.1) {
        var s := EntryShape(last.0, last.1, testNumber, family).value;
        assert Ips(p + [s]) == Ips(p) + [s.ip];
        assert ParsedRecord(s, testNumber, family);
      }
    }
  }

  /** The parse throws exactly when some kept entry has a location that is not a string. */
  lemma {:induction false} ParseEntriesThrowsIff(es: seq<(string, Value)>, testNumber: nat, family: Family)
    ensures ParseEntriesShape(es, testNumber, family).TypeError? <==>
      exists i :: 0 <= i < |es| && Kept(es[i].1) && !es[i].1.items[1].Str?
    decreases |es|
  {
    if es != [] {
      var prefix := es[..|es| - 1];
      ParseEntriesThrowsIff(prefix, testNumber, family);
      assert forall i :: 0 <= i < |prefix| ==> prefix[i] == es[i];
      if exists i :: 0 <= i < |es| && Kept(es[i].1) && !es[i].1.items[1].Str? {
        var i :| 0 <= i < |es| && Kept(es[i].1) && !es[i].1.items[1].Str?;
        if i < |prefix| {
          assert Kept(prefix[i].1) && !prefix[i].1.items[1].Str?;
        }
      }
    }
  }

  /** An entry that is not an array of length three or more is skipped on its own: the
      entries around it are parsed as if it were not there. */
  lemma {:induction false} SkippedEntryIgnored(a: seq<(string, Value)>, e: (string, Value), b: seq<(string, Value)>,
                                               testNumber: nat, family: Family)
    requires !Kept(e.1)
    ensures ParseEntriesShape(a + [e] + b, testNumber, family) == ParseEntriesShape(a + b, testNumber, family)
    decreases |b|
  {
    if b == [] {
      assert (a + [e])[..|a + [e]| - 1] == a;
      assert a + [e] + b == a + [e];
      assert a + b == a;
    } else {
      var b' := b[..|b| - 1];
      SkippedEntryIgnored(a, e, b', testNumber, family);
      assert (a + [e] + b)[..|a + [e] + b| - 1] == a + [e] + b';
      assert (a + b)[..|a + b| - 1] == a + b';
      assert (a + [e] + b)[|a + [e] + b| - 1] == b[|b| - 1];
      assert (a + b)[|a + b| - 1] == b[|b| - 1];
    }
  }

  /** A payload with no kept entry (for instance a JSON string, whose entries are its
      characters) parses to the empty list. */
  lemma {:induction false} NothingKeptParsesEmpty(es: seq<(string, Value)>, testNumber: nat, family: Family)
    requires forall i :: 0 <= i < |es| ==> !Kept(es[i].1)
    ensures ParseEntriesShape(es, testNumber, family) == Ok([])
    decreases |es|
  {
    if es != [] {
      NothingKeptParsesEmpty(es[..|es| - 1], testNumber, family);
    }
  }

  lemma StringPayloadParsesEmpty(text: string, testNumber: nat, family: Family)
    ensures ParseShape(Str(text), testNumber, family) == Ok([])
  {
    NothingKeptParsesEmpty(Entries(Str(text)), testNumber, family);
  }

  /** Every record of a successful parse has a non-empty text country. */
  lemma ParsedCountries(data: Value, testNumber: nat, family: Family)
    requires ParseShape(data, testNumber, family).Ok?
    ensures forall s :: s in ParseShape(data, testNumber, family).value ==> s.country.Str? && s.country.s != ""
  {
    if Truthy(data) {
      ParseEntriesShapeSpec(Entries(data), testNumber, family);
      forall s | s in ParseShape(data, testNumber, family).value
        ensures s.country.Str? && s.country.s != ""
      {
        CountryOfSpec(s.location.s);
      }
    }
  }

  /** The country is never empty and never contains ", ": it is "Unknown" when the location
      starts with ", " or is empty, and otherwise the location up to its first ", ". */
  lemma CountryOfSpec(location: string)
    ensures CountryOf(location) != "" && !Contains(CountryOf(location), ", ")
    ensures CountryOf(location) == "Unknown" || CountryOf(location) == location || CountryOf(location) + ", " <= location
    ensures FirstSegment(location) == "" ==> CountryOf(location) == "Unknown"
  {
    FirstSegmentSplits(location);
    if FirstSegment(location) == "" {
      NoCommaNoSeparator("Unknown");
    }
  }

  /** The hostname is the family label, "-dns-", the test number in decimal and "-", then
      the address character by character with every '.' and ':' turned into '-'; so it holds
      no '.' or ':'. */
  lemma HostnameSpec(ip: string, testNumber: nat, family: Family)
    ensures var h := Hostname(ip, testNumber, family);
      var prefix := FamilyLabel(family) + "-dns-" + Decimal(testNumber) + "-";
      && prefix <= h && |h| == |prefix| + |ip| && |prefix| == 10 + |Decimal(testNumber)|
      && (forall i :: 0 <= i < |ip| ==> h[|prefix| + i] == (if ip[i] == '.' || ip[i] == ':' then '-' else ip[i]))
      && (forall i :: 0 <= i < |h| ==> h[i] != '.' && h[i] != ':')
  {
    var prefix := FamilyLabel(family) + "-dns-" + Decimal(testNumber) + "-";
    var h := Hostname(ip, testNumber, family);
    assert h == prefix + DashSeparators(ip);
    assert forall i :: 0 <= i < |ip| ==> h[|prefix| + i] == DashSeparators(ip)[i];
  }
}

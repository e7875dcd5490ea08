/** The `dns-leak-test` edge function (supabase/functions/dns-leak-test/index.ts): the same four
    probes as the browser test, but its fetch does not parse, so a body that makes the parser
    throw ends the whole request with status 500; the user is always taken to be in Romania. */
module EdgeDnsLeakTest {
  import opened Js
  import opened DnsTypes
  import opened DnsUtils
  import opened DnsParse
  import opened DnsPipeline

  /** The HTTP answer: its status and its JSON body (`None` is the null body of a preflight). */
  datatype Response = Response(status: nat, body: Option<LeakTestResult>)

  /** The fixed location reported whatever the probes found. */
  const RomaniaLocation := UserLocation(Str("Romania"), "Constanța County", "Constanța", Str("Digi Romania"), Str("AS8953"))

  /** What one probe adds: nothing when the fetch failed or the body is falsy, otherwise the
      parse of the body, which may throw. */
  function EdgeProbe(reply: Option<Value>, p: Probe): Result<seq<DnsServer>> {
    match reply
    case None => Ok([])
    case Some(data) => if Truthy(data) then ParseShape(data, p.testNumber, p.family) else Ok([])
  }

  function EdgePerProbe(replies: seq<Option<Value>>, probes: seq<Probe>): (r: seq<Result<seq<DnsServer>>>)
    requires |replies| == |probes|
    ensures |r| == |probes| && forall i :: 0 <= i < |probes| ==> r[i] == EdgeProbe(replies[i], probes[i])
  {
    seq(|probes|, i requires 0 <= i < |probes| => EdgeProbe(replies[i], probes[i]))
  }

  /** The lists in order, or a throw at the first list that threw. */
  function ConcatResults<T>(xs: seq<Result<seq<T>>>): Result<seq<T>>
    decreases |xs|
  {
    if xs == [] then Ok([])
    else match ConcatResults(xs[..|xs| - 1])
      case TypeError => TypeError
      case Ok(prefix) =>
        match xs[|xs| - 1]
        case TypeError => TypeError
        case Ok(last) => Ok(prefix + last)
  }

  lemma ConcatResultsStep<T>(xs: seq<Result<seq<T>>>, i: nat)
    requires i < |xs|
    ensures ConcatResults(xs[..i + 1]) ==
      match (ConcatResults(xs[..i]), xs[i])
      case (Ok(prefix), Ok(last)) => Ok(prefix + last)
      case _ => TypeError
  {
    assert xs[..i + 1][..i] == xs[..i];
  }

  /** A throw in some probe is a throw of the whole run. */
  lemma {:induction false} ThrowPropagates<T>(xs: seq<Result<seq<T>>>, j: nat)
    requires j <= |xs| && ConcatResults(xs[..j]).TypeError?
    ensures ConcatResults(xs).TypeError?
    decreases |xs| - j
  {
    if j < |xs| {
      ConcatResultsStep(xs, j);
      ThrowPropagates(xs, j + 1);
    } else {
      assert xs[..j] == xs;
    }
  }

  /** The response carrying a completed or failed result. */
  function Answer(r: LeakTestResult): Response {
    Response(if r.status == Error then 500 else 200, Some(r))
  }

  /** One iteration of the probe loop: fetch, and parse a truthy body, which may throw. */
  method EdgeRunProbe(reply: Option<Value>, p: Probe) returns (r: Result<seq<DnsServer>>)
    ensures r.TypeError? <==> EdgeProbe(reply, p).TypeError?
    ensures r.Ok? ==> Shapes(r.value) == EdgeProbe(reply, p).value && forall s :: s in r.value ==> Collectable(s)
  {
    r := Ok([]);
    if reply.Some? && Truthy(reply.value) {
      r := ParseDnsResponse(reply.value, p.testNumber, p.family);
      if r.Ok? {
        ParsedCountries(reply.value, p.testNumber, p.family);
      }
    }
  }

  /** The probe loop of the handler: the four probes in order, each fetched and its truthy body
      parsed and appended, with a one-second pause after all but the last; a parse that throws
      ends the loop at once. */
  method RunProbes(replies: seq<Option<Value>>) returns (collected: seq<DnsServer>, trace: seq<Step>, threw: bool)
    requires |replies| == |Schedule|
    ensures var run := ConcatResults(EdgePerProbe(replies, Schedule));
      && (threw <==> run.TypeError?)
      && trace <= FullTrace
      && (!threw ==> trace == FullTrace && Shapes(collected) == run.value)
    ensures forall s :: s in collected ==> Collectable(s)
  {
    collected, trace, threw := [], [], false;
    ghost var xs := EdgePerProbe(replies, Schedule);
    var i := 0;
    while i < |Schedule|
      invariant 0 <= i <= |Schedule|
      invariant trace == Steps(Schedule[..i])
      invariant ConcatResults(xs[..i]) == Ok(Shapes(collected))
      invariant forall s :: s in collected ==> Collectable(s)
    {
      var p := Schedule[i];
      StepsStep(Schedule, i);
      ConcatResultsStep(xs, i);
      trace := trace + [Fetch(p)];
      var detected := EdgeRunProbe(replies[i], p);
      if detected.TypeError? {
        ThrowPropagates(xs, i + 1);
        StepsPrefix(Schedule, i + 1);
        ScheduleSteps();
        assert trace <= Steps(Schedule[..i + 1]);
        return collected, trace, true;
      }
      ShapesAppend(collected, detected.value);
      collected := collected + detected.value;
      if p.testNumber < 4 {
        trace := trace + [Sleep(1000)];
      }
      assert trace == Steps(Schedule[..i + 1]);
      i := i + 1;
    }
    assert Schedule[..i] == Schedule && xs[..i] == xs;
    ScheduleSteps();
  }

  /** Handles one request: a preflight is answered at once; otherwise the probes run in order,
      and a parse that throws answers 500 with the error result, while a run that completes
      answers with the aggregation against "Romania". */
  method Serve(requestMethod: string, replies: seq<Option<Value>>)
    returns (response: Response, collected: seq<DnsServer>, trace: seq<Step>)
    requires |replies| == |Schedule|
    ensures requestMethod == "OPTIONS" ==> response == Response(200, None) && trace == [] && collected == []
    ensures requestMethod != "OPTIONS" ==>
      var run := ConcatResults(EdgePerProbe(replies, Schedule));
      && trace <= FullTrace
      && (run.TypeError? ==> response == Response(500, Some(ErrorResult)))
      && (run.Ok? ==>
            && trace == FullTrace
            && Shapes(collected) == run.value
            && (forall s :: s in collected ==> Collectable(s))
            && response == Answer(Aggregate(collected, Str("Romania"), RomaniaLocation)))
  {
    if requestMethod == "OPTIONS" {
      return Response(200, None), [], [];
    }
    var threw;
    collected, trace, threw := RunProbes(replies);
    if threw {
      response := Response(500, Some(ErrorResult));
    } else {
      response := Answer(Aggregate(collected, Str("Romania"), RomaniaLocation));
    }
  }

  /** With text countries (which every parsed record has), the request succeeds exactly when
      every isp is absent or text; the leak flag is then raised exactly when some server has a
      non-empty country other than "romania" ignoring case, and the reported location is the
      fixed one whatever the servers are. */
  lemma {:induction false} EdgeResultSpec(servers: seq<DnsServer>)
    requires forall s :: s in servers ==> s.country.Str?
    ensures var r := Aggregate(servers, Str("Romania"), RomaniaLocation);
      && (Answer(r).status == 200 <==> forall s :: s in servers ==> IspTextOrAbsent(s))
      && (r.status == Completed ==>
            && r.userLocation == Some(RomaniaLocation)
            && (r.leakDetected <==> exists s :: s in servers && s.country.s != "" && Lower(s.country.s) != "romania"))
  {
    GroupByProviderSpec(servers);
    AggregateSpec(servers, Str("Romania"), RomaniaLocation);
    forall s | s in servers ensures CountryTextOrFalsy(s) { }
    DetectLeakIff(servers, "Romania");
    assert Lower("Romania") == "romania";
  }

  /** When no probe found anything the request completes with no leak and no servers. */
  lemma NothingFoundNoLeak()
    ensures var r := Aggregate([], Str("Romania"), RomaniaLocation);
      r.status == Completed && !r.leakDetected && r.details.totalServers == 0 && Answer(r).status == 200
  {
  }
}

/** The part of `IPAnalysisService` (src/services/ipAnalysisService.ts) that computes rather
    than fetches: the blacklist summary added to every blacklist or full-info answer, and the
    placeholder fraud analysis. */
module IpAnalysis {
  import opened Js

  /** `values.filter(Boolean).length` */
  function CountTruthy(values: seq<Value>): (n: nat)
    ensures n <= |values|
    ensures n > 0 <==> exists i :: 0 <= i < |values| && Truthy(values[i])
    decreases |values|
  {
    if values == [] then 0
    else CountTruthy(values[..|values| - 1]) + (if Truthy(values[|values| - 1]) then 1 else 0)
  }

  /** `Object.values(data.blacklists || {})` for an answer that is not null. */
  function BlacklistValues(data: Value): seq<Value>
    requires !Nullish(data)
  {
    Values(Or(Prop(data, "blacklists"), Obj([])))
  }

  predicate HasField(fields: seq<(string, Value)>, key: string) {
    exists i :: 0 <= i < |fields| && fields[i].0 == key
  }

  /** The fields with every field named `key` given the value `v`. */
  function Replace(fields: seq<(string, Value)>, key: string, v: Value): (r: seq<(string, Value)>)
    ensures |r| == |fields|
    decreases |fields|
  {
    if fields == [] then []
    else
      var last := fields[|fields| - 1];
      Replace(fields[..|fields| - 1], key, v) + [if last.0 == key then (key, v) else last]
  }

  /** Sets `key` to `v` in an object's fields: a field already named `key` keeps its place
      and takes the new value; otherwise the field is added at the end. */
  function Assign(fields: seq<(string, Value)>, key: string, v: Value): seq<(string, Value)> {
    if HasField(fields, key) then Replace(fields, key, v) else fields + [(key, v)]
  }

  /** `{...data, isBlacklisted, blacklistCount}`: the answer's own fields with the two summary
      fields set; reading `blacklists` of a null answer throws. */
  function Summarised(data: Value): Result<Value> {
    if Nullish(data) then TypeError
    else
      var values := BlacklistValues(data);
      var listed := exists i :: 0 <= i < |values| && Truthy(values[i]);
      Ok(Obj(Assign(Assign(Entries(data), "isBlacklisted", Bool(listed)), "blacklistCount", Num(CountTruthy(values)))))
  }

  /** Replacing the values of the fields named `key` changes no other name's value, and
      gives `key` the new value when some field has that name. */
  lemma {:induction false} LookupReplaced(fields: seq<(string, Value)>, key: string, v: Value, other: string)
    requires other != key
    ensures Lookup(Replace(fields, key, v), other) == Lookup(fields, other)
    ensures HasField(fields, key) ==> Lookup(Replace(fields, key, v), key) == v
    decreases |fields|
  {
    if fields != [] {
      var init := fields[..|fields| - 1];
      LookupReplaced(init, key, v, other);
      var r := Replace(fields, key, v);
      assert r[..|r| - 1] == Replace(init, key, v);
      if HasField(fields, key) && fields[|fields| - 1].0 != key {
        var i :| 0 <= i < |fields| && fields[i].0 == key;
        assert init[i].0 == key;
      }
    }
  }

  /** Setting a field gives it the new value and leaves every other name's value alone. */
  lemma LookupAssigned(fields: seq<(string, Value)>, key: string, v: Value, other: string)
    requires other != key
    ensures Lookup(Assign(fields, key, v), key) == v
    ensures Lookup(Assign(fields, key, v), other) == Lookup(fields, other)
  {
    LookupReplaced(fields, key, v, other);
    if !HasField(fields, key) {
      var r := fields + [(key, v)];
      assert r[..|r| - 1] == fields;
    }
  }

  /** The summary of an answer: `isBlacklisted` holds exactly when `blacklistCount` is
      positive, the count never exceeds the number of blacklists, a missing `blacklists`
      field gives false and 0, and every other field of the answer is kept. */
  lemma BlacklistSummary(data: Value, other: string)
    requires !Nullish(data)
    requires other != "isBlacklisted" && other != "blacklistCount"
    ensures var r := Summarised(data).value;
      var count := Lookup(r.fields, "blacklistCount");
      && count.Num? && 0 <= count.n <= |BlacklistValues(data)|
      && (Lookup(r.fields, "isBlacklisted") == Bool(true) <==> count.n > 0)
      && (Lookup(r.fields, "isBlacklisted") == Bool(false) <==> count.n == 0)
      && Lookup(r.fields, other) == Lookup(Entries(data), other)
      && (!Truthy(Prop(data, "blacklists")) ==> Lookup(r.fields, "isBlacklisted") == Bool(false) && count == Num(0))
  {
    var values := BlacklistValues(data);
    var listed := exists i :: 0 <= i < |values| && Truthy(values[i]);
    var once := Assign(Entries(data), "isBlacklisted", Bool(listed));
    LookupAssigned(Entries(data), "isBlacklisted", Bool(listed), other);
    LookupAssigned(once, "blacklistCount", Num(CountTruthy(values)), other);
    LookupAssigned(once, "blacklistCount", Num(CountTruthy(values)), "isBlacklisted");
  }

  /** A null answer makes the summary throw. */
  lemma NullAnswerThrows()
    ensures Summarised(Null).TypeError? && Summarised(Undefined).TypeError?
  {
  }

  // ---------------------------------------------------------------- placeholder analysis

  datatype MockAnalysis = MockAnalysis(fraudScore: int, riskLevel: string, vpnDetected: bool, proxyDetected: bool)

  const PendingNote := "Pending Scamalytics API approval"

  /** `getScamalyticsAnalysis(ip)`: a random score `floor(random * 30) + 5` and two random
      flags, with a fixed note in place of the risk level. */
  method GetScamalyticsAnalysis(ip: string) returns (m: MockAnalysis)
    ensures 5 <= m.fraudScore <= 34
    ensures m.riskLevel == PendingNote
  {
    var draw: int :| 0 <= draw < 30;
    var vpn: bool :| true;
    var proxy: bool :| true;
    m := MockAnalysis(draw + 5, PendingNote, vpn, proxy);
  }
}

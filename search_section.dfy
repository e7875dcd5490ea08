/** The address check of `SearchSection.handleSearch` (src/components/SearchSection.tsx):
    blank input is refused, then the input must match `^(?:[0-9]{1,3}\.){3}[0-9]{1,3}$`, and
    only then is the search started, with the input exactly as typed. */
module SearchSection {
  import opened Js

  /** `!s.trim()`: the input is nothing but white space. */
  predicate Blank(s: string) {
    forall i :: 0 <= i < |s| ==> IsSpace(s[i])
  }

  /** The length of the run of digits at the start of `s`. */
  function DigitRun(s: string): (k: nat)
    ensures k <= |s|
    ensures forall i :: 0 <= i < k ==> IsDigit(s[i])
    ensures k < |s| ==> !IsDigit(s[k])
    decreases |s|
  {
    if s != [] && IsDigit(s[0]) then 1 + DigitRun(s[1..]) else 0
  }

  /** Matches `(?:[0-9]{1,3}\.){dots}[0-9]{1,3}` against the whole of `s`, each group taking
      the digits as far as they go. */
  predicate Scan(s: string, dots: nat)
    decreases dots
  {
    var k := DigitRun(s);
    1 <= k <= 3 && (if dots == 0 then k == |s| else k < |s| && s[k] == '.' && Scan(s[k + 1..], dots - 1))
  }

  /** `ipRegex.test(s)` */
  predicate IsIpFormat(s: string) {
    Scan(s, 3)
  }

  predicate DigitGroup(g: string) {
    1 <= |g| <= 3 && AllDigits(g)
  }

  /** The same pattern read as a regular expression, which may end a group anywhere: `s` is
      `dots` groups each followed by a dot, then one last group. */
  predicate Matches(s: string, dots: nat)
    decreases dots
  {
    if dots == 0 then DigitGroup(s)
    else exists k :: 1 <= k <= 3 && k < |s| && DigitGroup(s[..k]) && s[k] == '.' && Matches(s[k + 1..], dots - 1)
  }

  /** A run of `k` digits ended by the end of `s` or by a non-digit is the leading run. */
  lemma DigitRunIs(s: string, k: nat)
    requires k <= |s| && (forall i :: 0 <= i < k ==> IsDigit(s[i]))
    requires k == |s| || !IsDigit(s[k])
    ensures DigitRun(s) == k
  {
  }

  /** The leading run of digits, when it has one to three digits, is a group. */
  lemma LeadingGroup(s: string)
    requires 1 <= DigitRun(s) <= 3
    ensures DigitGroup(s[..DigitRun(s)])
  {
  }

  /** One group and a dot in front of a match of the rest. */
  lemma MatchesStep(s: string, k: nat, rest: string, dots: nat)
    requires 1 <= k <= 3 && k < |s| && DigitGroup(s[..k]) && s[k] == '.'
    requires rest == s[k + 1..] && Matches(rest, dots)
    ensures Matches(s, dots + 1)
  {
  }

  /** The first group of a scan with at least one dot, and the rest after its dot. */
  lemma ScanSplit(s: string, dots: nat) returns (k: nat, rest: string)
    requires Scan(s, dots + 1)
    ensures k == DigitRun(s) && 1 <= k <= 3 && k < |s| && s[k] == '.'
    ensures rest == s[k + 1..] && Scan(rest, dots)
  {
    k := DigitRun(s);
    rest := s[k + 1..];
  }

  lemma {:induction false} ScanToMatches(s: string, dots: nat)
    requires Scan(s, dots)
    ensures Matches(s, dots)
    decreases dots
  {
    LeadingGroup(s);
    if dots > 0 {
      var fewer: nat := dots - 1;
      var k, rest := ScanSplit(s, fewer);
      ScanToMatches(rest, fewer);
      MatchesStep(s, k, rest, fewer);
    } else {
      assert s[..DigitRun(s)] == s;
    }
  }

  /** A run of one to three digits ended by a dot, in front of a scan of the rest. */
  lemma ScanStep(s: string, k: nat, rest: string, dots: nat)
    requires DigitRun(s) == k && 1 <= k <= 3 && k < |s| && s[k] == '.'
    requires rest == s[k + 1..] && Scan(rest, dots)
    ensures Scan(s, dots + 1)
  {
  }

  /** A group followed by a non-digit is the leading run of digits. */
  lemma {:induction false} GroupIsRun(s: string, k: nat)
    requires 1 <= k <= 3 && k <= |s| && DigitGroup(s[..k]) && (k == |s| || !IsDigit(s[k]))
    ensures DigitRun(s) == k
  {
    assert forall i :: 0 <= i < k ==> IsDigit(s[i]) by {
      forall i | 0 <= i < k ensures IsDigit(s[i]) {
        assert s[..k][i] == s[i];
      }
    }
    DigitRunIs(s, k);
  }

  /** The first group of a match with at least one dot, and the rest after its dot. */
  lemma MatchesSplit(s: string, dots: nat) returns (k: nat, rest: string)
    requires Matches(s, dots + 1)
    ensures 1 <= k <= 3 && k < |s| && DigitGroup(s[..k]) && s[k] == '.'
    ensures rest == s[k + 1..] && Matches(rest, dots)
  {
    k :| 1 <= k <= 3 && k < |s| && DigitGroup(s[..k]) && s[k] == '.' && Matches(s[k + 1..], dots);
    rest := s[k + 1..];
  }

  lemma {:induction false} MatchesToScan(s: string, dots: nat)
    requires Matches(s, dots)
    ensures Scan(s, dots)
    decreases dots
  {
    if dots > 0 {
      var fewer: nat := dots - 1;
      var k, rest := MatchesSplit(s, fewer);
      GroupIsRun(s, k);
      MatchesToScan(rest, fewer);
      ScanStep(s, k, rest, fewer);
    } else {
      assert s[..|s|] == s;
      GroupIsRun(s, |s|);
    }
  }

  /** Taking each group's digits as far as they go accepts exactly the strings the regular
      expression matches: no match needs a shorter group. */
  lemma ScanMatches(s: string, dots: nat)
    ensures Scan(s, dots) <==> Matches(s, dots)
  {
    if Scan(s, dots) {
      ScanToMatches(s, dots);
    }
    if Matches(s, dots) {
      MatchesToScan(s, dots);
    }
  }

  /** An address never looks blank. */
  lemma FormatIsNotBlank(s: string)
    requires IsIpFormat(s)
    ensures !Blank(s)
  {
    assert IsDigit(s[0]);
  }

  datatype SearchOutcome = EmptyInput | BadFormat | Search(ip: string)

  /** `handleSearch()` on the input `searchIP`: which of the two error notices is shown, or
      the one call of `onSearch`. */
  function HandleSearch(searchIp: string): (o: SearchOutcome)
    ensures o == EmptyInput <==> Blank(searchIp)
    ensures o.Search? <==> !Blank(searchIp) && Matches(searchIp, 3)
    ensures o.Search? ==> o.ip == searchIp
  {
    ScanMatches(searchIp, 3);
    if Blank(searchIp) then EmptyInput
    else if !IsIpFormat(searchIp) then BadFormat
    else Search(searchIp)
  }

  /** A group, a dot and a match of the rest is a match with one more dot. */
  lemma {:induction false} ScanJoin(g: string, rest: string, dots: nat)
    requires DigitGroup(g) && Scan(rest, dots)
    ensures Scan(g + "." + rest, dots + 1)
  {
    var s := g + "." + rest;
    assert forall i :: 0 <= i < |g| ==> IsDigit(s[i]) by {
      forall i | 0 <= i < |g| ensures IsDigit(s[i]) {
        assert s[i] == g[i];
      }
    }
    DigitRunIs(s, |g|);
    assert s[|g| + 1..] == rest;
  }

  lemma {:induction false} DottedGroupsScan(a: string, b: string, c: string, d: string)
    requires DigitGroup(a) && DigitGroup(b) && DigitGroup(c) && DigitGroup(d)
    ensures IsIpFormat(a + "." + (b + "." + (c + "." + d)))
  {
    DigitRunIs(d, |d|);
    ScanJoin(c, d, 0);
    ScanJoin(b, c + "." + d, 1);
    ScanJoin(a, b + "." + (c + "." + d), 2);
  }

  /** Any four groups of one to three digits joined by dots start a search, whatever their
      values: 999.999.999.999 is accepted. */
  lemma {:induction false} DottedGroupsAccepted(a: string, b: string, c: string, d: string)
    requires DigitGroup(a) && DigitGroup(b) && DigitGroup(c) && DigitGroup(d)
    ensures var s := a + "." + (b + "." + (c + "." + d));
      HandleSearch(s) == Search(s)
  {
    DottedGroupsScan(a, b, c, d);
    FormatIsNotBlank(a + "." + (b + "." + (c + "." + d)));
  }

  /** Trimming is only for the blank check: a leading space is a format error. */
  lemma {:induction false} LeadingSpaceRejected()
    ensures HandleSearch(" 1.2.3.4") == BadFormat
  {
    var s := " 1.2.3.4";
    assert !IsSpace(s[1]);
    DigitRunIs(s, 0);
  }

  /** Input that does not look blank and does not match is a format error. */
  lemma BadFormatWhenUnmatched(s: string)
    requires s != [] && !IsSpace(s[0]) && !IsIpFormat(s)
    ensures HandleSearch(s) == BadFormat
  {
  }

  lemma {:induction false} ThreeGroupsUnmatched()
    ensures !IsIpFormat("1.2.3")
  {
    var s := "1.2.3";
    DigitRunIs(s, 1);
    DigitRunIs(s[2..], 1);
    DigitRunIs(s[2..][2..], 1);
  }

  lemma {:induction false} LongGroupUnmatched()
    ensures !IsIpFormat("1234.1.1.1")
  {
    DigitRunIs("1234.1.1.1", 4);
  }

  /** Three groups, or a group of four digits, are format errors. */
  lemma {:induction false} MalformedRejected()
    ensures HandleSearch("1.2.3") == BadFormat
    ensures HandleSearch("1234.1.1.1") == BadFormat
  {
    ThreeGroupsUnmatched();
    LongGroupUnmatched();
    BadFormatWhenUnmatched("1.2.3");
    BadFormatWhenUnmatched("1234.1.1.1");
  }

  lemma BlankRejected()
    ensures HandleSearch("") == EmptyInput && HandleSearch(" \t ") == EmptyInput
  {
  }
}

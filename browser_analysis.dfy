/** The three computed values of `BrowserAnalysisCard` (src/components/BrowserAnalysisCard.tsx):
    the `GMT±HH:MM` string for the browser's timezone offset, whether the browser's timezone
    is the one reported for the address, and the device type read from the user agent. */
module BrowserAnalysis {
  import opened Js

  function Abs(n: int): nat {
    if n < 0 then -n else n
  }

  /** `gmtOffset` for `getTimezoneOffset()` minutes (positive west of Greenwich, so the sign
      printed is the opposite one): hours and minutes of the absolute offset, each padded
      to two digits. */
  function GmtOffset(offset: int): string {
    "GMT" + (if offset <= 0 then "+" else "-") + PadTwo(Decimal(Abs(offset) / 60)) + ":" + PadTwo(Decimal(Abs(offset) % 60))
  }

  /** Reads a `GMT±HH:MM` string back into the offset it was printed from. */
  function ParseGmtOffset(r: string): Option<int> {
    if |r| == 9 && r[..3] == "GMT" && (r[3] == '+' || r[3] == '-') && AllDigits(r[4..6]) && r[6] == ':' && AllDigits(r[7..9]) then
      var minutes := DigitsValue(r[4..6]) * 60 + DigitsValue(r[7..9]);
      Some(if r[3] == '+' then -minutes else minutes)
    else None
  }

  /** The string starts with "GMT", and its sign is '+' exactly when the offset is zero or
      negative (east of Greenwich, or on it). */
  lemma GmtOffsetSign(offset: int)
    ensures |GmtOffset(offset)| >= 9 && GmtOffset(offset)[..3] == "GMT"
    ensures GmtOffset(offset)[3] == '+' <==> offset <= 0
    ensures GmtOffset(offset)[3] == '-' <==> offset > 0
  {
  }

  /** The two-digit field of a number under 100 is two digits that denote it. */
  lemma PaddedField(n: nat)
    requires n < 100
    ensures |PadTwo(Decimal(n))| == 2 && AllDigits(PadTwo(Decimal(n))) && DigitsValue(PadTwo(Decimal(n))) == n
  {
    DecimalLength(n);
    PaddedDecimalValue(n);
  }

  /** Reading back any `GMT±HH:MM` text whose two fields are two digits each. */
  lemma {:induction false} ParseFields(sign: string, hh: string, mm: string, minutes: int)
    requires sign == "+" || sign == "-"
    requires |hh| == 2 && |mm| == 2 && AllDigits(hh) && AllDigits(mm)
    requires minutes == (if sign == "+" then -1 else 1) * (DigitsValue(hh) * 60 + DigitsValue(mm))
    ensures ParseGmtOffset("GMT" + sign + hh + ":" + mm) == Some(minutes)
  {
    var r := "GMT" + sign + hh + ":" + mm;
    assert r[..3] == "GMT" && r[3] == sign[0] && r[6] == ':';
    assert r[4..6] == hh && r[7..9] == mm;
  }

  /** For any offset under 100 hours the string holds exactly two hour digits and two minute
      digits, and reading it back gives the offset. */
  lemma {:induction false} GmtOffsetRoundTrip(offset: int)
    requires Abs(offset) < 6000
    ensures ParseGmtOffset(GmtOffset(offset)) == Some(offset)
  {
    var hours, minutes := Abs(offset) / 60, Abs(offset) % 60;
    PaddedField(hours);
    PaddedField(minutes);
    var sign := if offset <= 0 then "+" else "-";
    GmtOffsetFields(offset, sign, hours, minutes);
    ParseFields(sign, PadTwo(Decimal(hours)), PadTwo(Decimal(minutes)), offset);
  }

  /** The two-digit field of a one-digit number is '0' and the digit. */
  lemma OneDigitField(n: nat)
    requires n < 10
    ensures PadTwo(Decimal(n)) == ['0', DigitChar(n)]
  {
  }

  /** The text for an offset of `h` hours and `m` minutes with the given sign. */
  lemma GmtOffsetFields(offset: int, sign: string, h: nat, m: nat)
    requires sign == (if offset <= 0 then "+" else "-")
    requires h == Abs(offset) / 60 && m == Abs(offset) % 60
    ensures GmtOffset(offset) == "GMT" + sign + PadTwo(Decimal(h)) + ":" + PadTwo(Decimal(m))
  {
  }

  lemma {:induction false} GmtOffsetExamples()
    ensures GmtOffset(-120) == "GMT+02:00"
    ensures GmtOffset(330) == "GMT-05:30"
    ensures GmtOffset(0) == "GMT+00:00"
  {
    OneDigitField(0);
    OneDigitField(2);
    OneDigitField(5);
    assert PadTwo(Decimal(30)) == "30" by {
      assert Decimal(30) == Decimal(3) + [DigitChar(0)];
    }
    GmtOffsetFields(-120, "+", 2, 0);
    GmtOffsetFields(330, "-", 5, 30);
    GmtOffsetFields(0, "+", 0, 0);
  }

  /** `clientTimezone === ipTimezone`: strict equality, so a missing timezone for the address
      never matches. */
  function TimezoneMatch(client: string, ip: Value): (m: bool)
    ensures m <==> ip.Str? && ip.s == client
    ensures !ip.Str? ==> !m
  {
    ip == Str(client)
  }

  // ---------------------------------------------------------------- device type

  datatype DeviceType = DeviceType(kind: string, color: string)

  const MobileMarkers: seq<string> := ["Mobile", "Android", "iPhone", "iPad"]

  /** `/Mobile|Android|iPhone|iPad/.test(userAgent)` */
  predicate MobileAgent(userAgent: string) {
    exists m :: m in MobileMarkers && Contains(userAgent, m)
  }

  /** `getDeviceType()`, without the icon component. */
  function GetDeviceType(userAgent: string): (d: DeviceType)
    ensures d.kind == "Mobile" <==> MobileAgent(userAgent)
    ensures d == DeviceType("Mobile", "text-blue-400") || d == DeviceType("Desktop", "text-green-400")
  {
    if Contains(userAgent, "Mobile") || Contains(userAgent, "Android") || Contains(userAgent, "iPhone") || Contains(userAgent, "iPad")
    then DeviceType("Mobile", "text-blue-400")
    else DeviceType("Desktop", "text-green-400")
  }

  /** A marker anywhere in the user agent makes it a mobile device. */
  lemma MarkerMeansMobile(before: string, marker: string, after: string)
    requires marker in MobileMarkers
    ensures GetDeviceType(before + marker + after).kind == "Mobile"
  {
    ContainsInMiddle(before, marker, after);
  }

  /** A string contains each character of anything it contains. */
  lemma {:induction false} ContainedFirstChar(s: string, sub: string)
    requires Contains(s, sub) && sub != []
    ensures sub[0] in s
    decreases |s|
  {
    if !(sub <= s) {
      ContainedFirstChar(s[1..], sub);
    } else {
      assert s[0] == sub[0];
    }
  }

  /** A user agent without 'M', 'A' and 'i' cannot hold a marker, so it is a desktop. */
  lemma {:induction false} NoMarkerMeansDesktop(userAgent: string)
    requires 'M' !in userAgent && 'A' !in userAgent && 'i' !in userAgent
    ensures GetDeviceType(userAgent) == DeviceType("Desktop", "text-green-400")
  {
    if Contains(userAgent, "Mobile") {
      ContainedFirstChar(userAgent, "Mobile");
    }
    if Contains(userAgent, "Android") {
      ContainedFirstChar(userAgent, "Android");
    }
    if Contains(userAgent, "iPhone") {
      ContainedFirstChar(userAgent, "iPhone");
    }
    if Contains(userAgent, "iPad") {
      ContainedFirstChar(userAgent, "iPad");
    }
  }
}

/** JavaScript values and the few built-in string operations the modelled code relies on. */
module Js {

  datatype Option<+T> = None | Some(value: T)

  /** The outcome of an expression that may throw. Every exception the modelled code can raise
      on its own is a TypeError (a method called on a value that does not have it). */
  datatype Result<+T> = Ok(value: T) | TypeError

  /** A value as `JSON.parse` produces it, plus `undefined` for a property that is absent.
      Numbers are integers: fractional values are not modelled. The fields of an object have
      distinct names, as every object `JSON.parse` builds does; a field list with a repeated
      name stands for no JavaScript object. */
  datatype Value =
    | Undefined
    | Null
    | Bool(b: bool)
    | Num(n: int)
    | Str(s: string)
    | Arr(items: seq<Value>)
    | Obj(fields: seq<(string, Value)>)

  /** JavaScript truthiness: `undefined`, `null`, `false`, `0` and `""` are falsy. */
  predicate Truthy(v: Value) {
    match v
    case Undefined => false
    case Null => false
    case Bool(b) => b
    case Num(n) => n != 0
    case Str(s) => s != ""
    case Arr(_) => true
    case Obj(_) => true
  }

  predicate Nullish(v: Value) {
    v.Undefined? || v.Null?
  }

  /** Arrays and objects are compared by identity in JavaScript; everything else by value. */
  predicate IsPrimitive(v: Value) {
    !v.Arr? && !v.Obj?
  }

  /** `a || b` */
  function Or(a: Value, b: Value): (r: Value)
    ensures Truthy(a) ==> r == a
    ensures !Truthy(a) ==> r == b
  {
    if Truthy(a) then a else b
  }

  /** `Object.entries(v)` for a value that is not null or undefined: an object gives its own
      fields in enumeration order, an array and a string give one entry per index. */
  function Entries(v: Value): (es: seq<(string, Value)>)
    ensures v.Obj? ==> es == v.fields
    ensures v.Arr? ==> |es| == |v.items|
    ensures v.Str? ==> |es| == |v.s|
    ensures !v.Obj? && !v.Arr? && !v.Str? ==> es == []
  {
    match v
    case Obj(fields) => fields
    case Arr(items) => seq(|items|, i requires 0 <= i < |items| => (Decimal(i), items[i]))
    case Str(s) => seq(|s|, i requires 0 <= i < |s| => (Decimal(i), Str([s[i]])))
    case _ => []
  }

  /** `items[k]`, which is `undefined` past the end. */
  function At(items: seq<Value>, k: nat): (r: Value)
    ensures k >= |items| ==> r == Undefined
  {
    if k < |items| then items[k] else Undefined
  }

  /** The value of `key` among an object's fields; `undefined` when there is none. */
  function Lookup(fields: seq<(string, Value)>, key: string): (v: Value)
    ensures (forall i :: 0 <= i < |fields| ==> fields[i].0 != key) ==> v == Undefined
    ensures v != Undefined ==> exists i :: 0 <= i < |fields| && fields[i] == (key, v)
    decreases |fields|
  {
    if fields == [] then Undefined
    else if fields[|fields| - 1].0 == key then fields[|fields| - 1].1
    else Lookup(fields[..|fields| - 1], key)
  }

  /** `v.key` where `v` is not null or undefined: only objects have the named properties the
      modelled code reads. */
  function Prop(v: Value, key: string): (r: Value)
    ensures !v.Obj? ==> r == Undefined
  {
    if v.Obj? then Lookup(v.fields, key) else Undefined
  }

  /** `v?.key`: `undefined` when `v` is null or undefined. */
  function OptProp(v: Value, key: string): (r: Value)
    ensures Nullish(v) ==> r == Undefined
    ensures !Nullish(v) ==> r == Prop(v, key)
  {
    if Nullish(v) then Undefined else Prop(v, key)
  }

  /** `v.key`, which throws when `v` is null or undefined. */
  function Member(v: Value, key: string): (r: Result<Value>)
    ensures r.TypeError? <==> Nullish(v)
    ensures r.Ok? ==> r.value == Prop(v, key)
  {
    if Nullish(v) then TypeError else Ok(Prop(v, key))
  }

  /** `Object.values(v)` */
  function Values(v: Value): seq<Value> {
    var es := Entries(v);
    seq(|es|, i requires 0 <= i < |es| => es[i].1)
  }

  // ---------------------------------------------------------------- strings

  /** The characters `\s` matches and `trim()` removes: white space and line terminators. */
  predicate IsSpace(c: char) {
    || '\t' <= c <= '\r' || c == ' ' || c == '\U{00A0}' || c == '\U{1680}'
    || '\U{2000}' <= c <= '\U{200A}' || c == '\U{2028}' || c == '\U{2029}' || c == '\U{202F}'
    || c == '\U{205F}' || c == '\U{3000}' || c == '\U{FEFF}'
  }


  function LowerChar(c: char): char {
    if 'A' <= c <= 'Z' then (c as int - 'A' as int + 'a' as int) as char else c
  }

  /** `s.toLowerCase()` on the ASCII letters. */
  function Lower(s: string): (r: string)
    ensures |r| == |s|
  {
    seq(|s|, i requires 0 <= i < |s| => LowerChar(s[i]))
  }

  /** `s.includes(sub)` */
  predicate Contains(s: string, sub: string)
    decreases |s|
  {
    sub <= s || (|s| > 0 && Contains(s[1..], sub))
  }

  lemma {:induction false} ContainsInMiddle(a: string, sub: string, b: string)
    ensures Contains(a + sub + b, sub)
    decreases |a|
  {
    if a == [] {
      assert a + sub + b == sub + b;
      assert sub <= sub + b;
    } else {
      assert (a + sub + b)[1..] == a[1..] + sub + b;
      ContainsInMiddle(a[1..], sub, b);
    }
  }

  lemma {:induction false} ContainsWitness(s: string, sub: string)
    requires Contains(s, sub)
    ensures exists a, b :: s == a + sub + b
    decreases |s|
  {
    if sub <= s {
      assert s == [] + sub + s[|sub|..];
    } else {
      ContainsWitness(s[1..], sub);
      var a, b :| s[1..] == a + sub + b;
      assert s == [s[0]] + a + sub + b;
    }
  }

  /** A string shorter than `sub` cannot contain it. */
  lemma {:induction false} ShorterNoContains(s: string, sub: string)
    requires |s| < |sub|
    ensures !Contains(s, sub)
    decreases |s|
  {
    if |s| > 0 {
      ShorterNoContains(s[1..], sub);
    }
  }

  /** `s.includes(sub)` holds exactly when `s` can be cut around an occurrence of `sub`. */
  lemma ContainsIff(s: string, sub: string)
    ensures Contains(s, sub) <==> exists a, b :: s == a + sub + b
  {
    if Contains(s, sub) {
      ContainsWitness(s, sub);
    }
    if exists a, b :: s == a + sub + b {
      var a, b :| s == a + sub + b;
      ContainsInMiddle(a, sub, b);
    }
  }

  /** `s.split(', ')[0]`: the text before the first ", ", or all of `s` when there is none. */
  function FirstSegment(s: string): (r: string)
    decreases |s|
  {
    if |s| < 2 then s
    else if s[..2] == ", " then ""
    else [s[0]] + FirstSegment(s[1..])
  }

  /** The first segment is a prefix free of ", ", and it is either all of `s` or followed by ", ". */
  lemma {:induction false} FirstSegmentSplits(s: string)
    ensures FirstSegment(s) <= s
    ensures !Contains(FirstSegment(s), ", ")
    ensures FirstSegment(s) == s || FirstSegment(s) + ", " <= s
    decreases |s|
  {
    if |s| < 2 {
      NoSeparatorInShort(s);
    } else if s[..2] == ", " {
      assert !Contains("", ", ");
    } else {
      FirstSegmentSplits(s[1..]);
      var t := FirstSegment(s[1..]);
      assert FirstSegment(s) == [s[0]] + t;
      NoSeparatorExtends(s[0], t);
      if t + ", " <= s[1..] {
        assert [s[0]] + t + ", " <= s;
      }
    }
  }

  lemma NoSeparatorInShort(s: string)
    requires |s| < 2
    ensures !Contains(s, ", ")
  {
    if |s| == 1 {
      assert !Contains(s[1..], ", ");
    }
  }

  lemma NoSeparatorExtends(c: char, t: string)
    requires !Contains(t, ", ")
    requires |t| == 0 || [c, t[0]] != ", "
    ensures !Contains([c] + t, ", ")
  {
    assert ([c] + t)[1..] == t;
    if |t| == 0 {
      NoSeparatorInShort([c]);
    }
  }

  /** A string without a comma cannot contain ", ". */
  lemma {:induction false} NoCommaNoSeparator(s: string)
    requires forall i :: 0 <= i < |s| ==> s[i] != ','
    ensures !Contains(s, ", ")
    decreases |s|
  {
    if |s| > 0 {
      assert s[0] != ',';
      NoCommaNoSeparator(s[1..]);
    }
  }

  /** `ip.replace(/[\.:]/g, '-')` */
  function DashSeparators(ip: string): (r: string)
    ensures |r| == |ip|
    ensures forall i :: 0 <= i < |r| ==> r[i] != '.' && r[i] != ':'
    ensures forall i :: 0 <= i < |ip| ==> r[i] == (if ip[i] == '.' || ip[i] == ':' then '-' else ip[i])
  {
    seq(|ip|, i requires 0 <= i < |ip| => if ip[i] == '.' || ip[i] == ':' then '-' else ip[i])
  }

  // ---------------------------------------------------------------- decimal numerals

  function DigitChar(d: nat): char
    requires d < 10
  {
    ('0' as int + d) as char
  }

  predicate IsDigit(c: char) {
    '0' <= c <= '9'
  }

  function DigitValue(c: char): nat
    requires IsDigit(c)
  {
    c as int - '0' as int
  }

  /** `n.toString()` for a natural number. */
  function Decimal(n: nat): (r: string)
    ensures |r| >= 1
    ensures forall i :: 0 <= i < |r| ==> IsDigit(r[i])
  {
    if n < 10 then [DigitChar(n)] else Decimal(n / 10) + [DigitChar(n % 10)]
  }

  predicate AllDigits(s: string) {
    forall i :: 0 <= i < |s| ==> IsDigit(s[i])
  }

  /** The number a string of decimal digits denotes. */
  function DigitsValue(s: string): nat
    requires AllDigits(s)
  {
    if s == [] then 0 else DigitsValue(s[..|s| - 1]) * 10 + DigitValue(s[|s| - 1])
  }

  lemma {:induction false} DecimalRoundTrip(n: nat)
    ensures DigitsValue(Decimal(n)) == n
  {
    if n >= 10 {
      DecimalRoundTrip(n / 10);
      var d := Decimal(n);
      assert d[..|d| - 1] == Decimal(n / 10);
    }
  }

  lemma DecimalLength(n: nat)
    ensures n < 10 ==> |Decimal(n)| == 1
    ensures 10 <= n < 100 ==> |Decimal(n)| == 2
  {
  }

  /** `s.padStart(2, '0')` */
  function PadTwo(s: string): (r: string)
    ensures |s| >= 2 ==> r == s
    ensures |r| >= 2
  {
    if |s| >= 2 then s else if |s| == 1 then "0" + s else "00"
  }

  lemma {:induction false} LeadingZeroValue(s: string)
    requires AllDigits(s)
    ensures AllDigits("0" + s) && DigitsValue("0" + s) == DigitsValue(s)
    decreases |s|
  {
    if s != [] {
      var t := "0" + s;
      assert t[..|t| - 1] == "0" + s[..|s| - 1];
      LeadingZeroValue(s[..|s| - 1]);
    }
  }

  /** Padding the numeral of `n` keeps its value. */
  lemma PaddedDecimalValue(n: nat)
    ensures AllDigits(PadTwo(Decimal(n))) && DigitsValue(PadTwo(Decimal(n))) == n
  {
    DecimalRoundTrip(n);
    if |Decimal(n)| < 2 {
      LeadingZeroValue(Decimal(n));
    }
  }
}

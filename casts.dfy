/**
 * The conversions the handlers rely on: JavaScript's number/text conversions
 * (`String(n)`, `parseInt`) and Mongoose's casts of JSON values to the schema
 * types String, ObjectId and Date.
 */
module Casts {
  import opened Wrappers
  import opened Json

  /** A point in time, in milliseconds since the epoch (a JavaScript `Date`). */
  type Date = int

  predicate IsDigit(c: char) { '0' <= c <= '9' }

  predicate AllDigits(s: string) {
    forall i | 0 <= i < |s| :: IsDigit(s[i])
  }

  function DigitChar(d: nat): (c: char)
    requires d < 10
    ensures IsDigit(c) && c as int - '0' as int == d
  {
    ('0' as int + d) as char
  }

  /** The decimal text of a natural number, as `String(n)` writes it. */
  function NatToString(n: nat): (r: string)
    ensures r != [] && AllDigits(r)
    decreases n
  {
    if n < 10 then [DigitChar(n)] else NatToString(n / 10) + [DigitChar(n % 10)]
  }

  /** `String(n)` for an integer: a minus sign before the digits of a negative one. */
  function IntToString(n: int): (r: string)
    ensures r != []
  {
    if n < 0 then "-" + NatToString(-n) else NatToString(n)
  }

  /** The number a string of decimal digits denotes. */
  function DigitsValue(ds: string): nat
    requires AllDigits(ds)
  {
    if ds == [] then 0
    else DigitsValue(ds[..|ds| - 1]) * 10 + (ds[|ds| - 1] as int - '0' as int)
  }

  lemma {:induction false} DigitsValueOfNatToString(n: nat)
    ensures DigitsValue(NatToString(n)) == n
    decreases n
  {
    var s := NatToString(n);
    if n >= 10 {
      DigitsValueOfNatToString(n / 10);
      assert s[..|s| - 1] == NatToString(n / 10);
    }
  }

  /** The longest prefix of `s` made of decimal digits. */
  function LeadingDigits(s: string): (r: string)
    ensures AllDigits(r) && r <= s
    ensures |r| < |s| ==> !IsDigit(s[|r|])
  {
    if s == [] || !IsDigit(s[0]) then [] else [s[0]] + LeadingDigits(s[1..])
  }

  lemma {:induction false} LeadingDigitsOfDigits(s: string)
    requires AllDigits(s)
    ensures LeadingDigits(s) == s
  {
    if s != [] {
      LeadingDigitsOfDigits(s[1..]);
    }
  }

  predicate IsHexDigit(c: char) { IsDigit(c) || 'a' <= c <= 'f' || 'A' <= c <= 'F' }

  predicate AllHexDigits(s: string) {
    forall i | 0 <= i < |s| :: IsHexDigit(s[i])
  }

  function HexDigitValue(c: char): (d: nat)
    requires IsHexDigit(c)
    ensures d < 16
  {
    if IsDigit(c) then c as int - '0' as int
    else if 'a' <= c <= 'f' then c as int - 'a' as int + 10
    else c as int - 'A' as int + 10
  }

  /** The number a string of hexadecimal digits denotes. */
  function HexValue(hs: string): nat
    requires AllHexDigits(hs)
  {
    if hs == [] then 0
    else HexValue(hs[..|hs| - 1]) * 16 + HexDigitValue(hs[|hs| - 1])
  }

  /** The longest prefix of `s` made of hexadecimal digits. */
  function LeadingHexDigits(s: string): (r: string)
    ensures AllHexDigits(r) && r <= s
    ensures |r| < |s| ==> !IsHexDigit(s[|r|])
  {
    if s == [] || !IsHexDigit(s[0]) then [] else [s[0]] + LeadingHexDigits(s[1..])
  }

  lemma {:induction false} LeadingHexDigitsOfHexDigits(s: string)
    requires AllHexDigits(s)
    ensures LeadingHexDigits(s) == s
  {
    if s != [] {
      LeadingHexDigitsOfHexDigits(s[1..]);
    }
  }

  /** Text that `parseInt` without a radix reads as hexadecimal: `0x` or `0X` first. */
  predicate HexPrefixed(s: string) {
    |s| >= 2 && s[0] == '0' && (s[1] == 'x' || s[1] == 'X')
  }

  /**
   * `parseInt(s)` with no radix, for text without leading blanks or a sign:
   * after a `0x`/`0X` prefix the leading hexadecimal digits, otherwise the
   * leading decimal digits; `None` stands for `NaN` (no digits to read).
   */
  function ParseInt(s: string): (r: Option<nat>)
    ensures HexPrefixed(s) ==> (r.None? <==> (|s| == 2 || !IsHexDigit(s[2])))
    ensures !HexPrefixed(s) ==> (r.None? <==> (s == [] || !IsDigit(s[0])))
  {
    if HexPrefixed(s) then
      var hs := LeadingHexDigits(s[2..]);
      if hs == [] then None else Some(HexValue(hs))
    else
      var ds := LeadingDigits(s);
      if ds == [] then None else Some(DigitsValue(ds))
  }

  /** `0x` followed by hexadecimal digits parses to the value of those digits. */
  lemma HexPrefixParsesHex(hs: string)
    requires hs != [] && AllHexDigits(hs)
    ensures ParseInt("0x" + hs) == Some(HexValue(hs))
  {
    var s := "0x" + hs;
    assert s[2..] == hs;
    LeadingHexDigitsOfHexDigits(hs);
  }

  /** Writing a natural number and parsing it back gives the number. */
  lemma ParseIntOfNatToString(n: nat)
    ensures ParseInt(NatToString(n)) == Some(n)
  {
    assert !HexPrefixed(NatToString(n));
    LeadingDigitsOfDigits(NatToString(n));
    DigitsValueOfNatToString(n);
  }

  /**
   * Mongoose's cast to a String path: strings as they are, numbers and booleans
   * as their text; `null` and compound values are refused. (A `null` sets an
   * optional path to null; `CastNullableString` covers that case.)
   */
  function CastString(v: Value): (r: Option<string>)
    ensures v.Str? ==> r == Some(v.s)
    ensures v.Num? ==> r == Some(IntToString(v.n))
    ensures v.Bool? ==> r == Some(if v.b then "true" else "false")
    ensures (v.Null? || v.Compound?) <==> r.None?
    ensures Truthy(v) && r.Some? ==> r.value != ""
  {
    match v
    case Str(s) => Some(s)
    case Num(n) => Some(IntToString(n))
    case Bool(b) => Some(if b then "true" else "false")
    case Null => None
    case Compound => None
  }

  /**
   * A non-negative number stored in a String path reads back as that number.
   * The bound is where JavaScript's `String(n)` switches to exponent notation.
   */
  lemma NumCastParsesBack(n: nat)
    requires n < 1_000_000_000_000_000_000_000
    ensures CastString(Num(n)).Some? && ParseInt(CastString(Num(n)).value) == Some(n)
  {
    ParseIntOfNatToString(n);
  }

  /** A String path that may also be set to `null` (`None`). */
  function CastNullableString(v: Value): (r: Option<Option<string>>)
    ensures v.Null? ==> r == Some(None)
    ensures !v.Null? ==> (r.Some? <==> CastString(v).Some?)
    ensures !v.Null? && r.Some? ==> r.value == CastString(v)
  {
    if v.Null? then Some(None)
    else match CastString(v)
      case None => None
      case Some(s) => Some(Some(s))
  }

  /** The cast to an ObjectId path: identifiers are modelled as strings. */
  function CastObjectId(v: Value): (r: Option<string>)
    ensures r.Some? <==> v.Str?
    ensures v.Str? ==> r.value == v.s
  {
    if v.Str? then Some(v.s) else None
  }

  /**
   * The cast to a Date path: a number is a timestamp, a non-empty string goes to
   * the date parser (foreign behaviour, passed in), anything else is refused.
   * Mongoose turns `""` into a null date, which no goal or note here can hold:
   * it is refused like `null`.
   */
  function CastDate(v: Value, parseDate: string -> Option<Date>): (r: Option<Date>)
    ensures v.Num? ==> r == Some(v.n)
    ensures v.Str? && v.s != "" ==> r == parseDate(v.s)
    ensures v == Str("") ==> r.None?
    ensures !v.Num? && !v.Str? ==> r.None?
  {
    match v
    case Num(n) => Some(n)
    case Str(s) => if s == "" then None else parseDate(s)
    case _ => None
  }

  /**
   * Writing one path of a document from `fields`: the cast of `fields[key]` when
   * the key is there, `current` (the stored value, or the schema default) when not.
   */
  function Assign<T>(fields: Object, key: string, cast: Value -> Option<T>, current: T): (r: Option<T>)
    ensures key !in fields ==> r == Some(current)
    ensures key in fields ==> r == cast(fields[key])
  {
    if key in fields then cast(fields[key]) else Some(current)
  }

  /** `value` is what `Assign(fields, key, cast, current)` writes. */
  ghost predicate Takes<T>(fields: Object, key: string, cast: Value -> Option<T>, current: T, value: T) {
    if key in fields then cast(fields[key]) == Some(value) else value == current
  }
}

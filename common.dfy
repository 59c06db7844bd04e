/** Shared vocabulary of the front-end model: optional values, backend
    outcomes, map coordinates, JavaScript number and string conversions,
    and the rule by which JavaScript orders the properties of an object. */
module Common {

  /** `null` / `undefined` versus a present value. */
  datatype Option<T> = None | Some(value: T) {
    function GetOr(default: T): T {
      match this
      case Some(v) => v
      case None => default
    }
  }

  /** One backend call as the hook sees it: the resolved payload, or the
      rejected promise carrying the error's `message`. */
  datatype Outcome<T> = Ok(value: T) | Fail(message: string)

  /** `a ?? b`: the left operand unless it is null or undefined. */
  function Coalesce<T>(a: Option<T>, b: Option<T>): (r: Option<T>)
    ensures a.Some? ==> r == a
    ensures a.None? ==> r == b
  {
    if a.Some? then a else b
  }

  /** `err.message || fallback`: an empty message gives the fallback. */
  function ErrorText(message: string, fallback: string): (r: string)
    ensures message != "" ==> r == message
    ensures message == "" ==> r == fallback
  {
    if message != "" then message else fallback
  }

  // ---------------------------------------------------------------------
  // Coordinates

  /** A latitude or longitude as a JavaScript number. Its finite value is
      kept opaque (`scaled` only tells zero from non-zero); NaN is the one
      falsy non-zero number. */
  datatype Coord = NaN | Finite(scaled: int)

  /** JavaScript truthiness of a number: non-zero and not NaN. */
  predicate Truthy(c: Coord) {
    c.Finite? && c.scaled != 0
  }

  /** `isNaN(c)`. */
  predicate IsNaN(c: Coord) {
    c.NaN?
  }

  lemma TruthyIsNotNaN(c: Coord)
    ensures Truthy(c) ==> !IsNaN(c)
  {
  }

  datatype LatLng = LatLng(lat: Coord, lng: Coord)

  // ---------------------------------------------------------------------
  // Strings

  /** `toLowerCase` restricted to the ASCII letters. */
  function LowerChar(c: char): char {
    if 'A' <= c <= 'Z' then (c as int + 32) as char else c
  }

  function Lower(s: string): (r: string)
    ensures |r| == |s|
    ensures forall i :: 0 <= i < |s| ==> r[i] == LowerChar(s[i])
  {
    if s == [] then [] else [LowerChar(s[0])] + Lower(s[1..])
  }

  /** `s.includes(t)`: `t` occurs in `s` at some position. */
  predicate Includes(s: string, t: string) {
    exists k | 0 <= k <= |s| :: OccursAt(s, t, k)
  }

  /** `t` occurs in `s` starting at position `k`. */
  predicate OccursAt(s: string, t: string, k: int) {
    0 <= k && k + |t| <= |s| && s[k..k + |t|] == t
  }

  lemma IncludesEmpty(s: string)
    ensures Includes(s, "")
  {
    assert OccursAt(s, "", 0);
  }

  // ---------------------------------------------------------------------
  // Decimal digits: `Number.prototype.toString()` and `parseInt(s, 10)`
  // on integers.

  predicate IsDigit(c: char) {
    '0' <= c <= '9'
  }

  function DigitChar(d: nat): (c: char)
    requires d < 10
    ensures IsDigit(c) && c as int - '0' as int == d
  {
    ('0' as int + d) as char
  }

  function DigitValue(c: char): nat
    requires IsDigit(c)
  {
    c as int - '0' as int
  }

  predicate AllDigits(s: string) {
    forall i :: 0 <= i < |s| ==> IsDigit(s[i])
  }

  /** The decimal spelling of a natural number, without leading zeros. */
  function NatDigits(n: nat): (s: string)
    ensures |s| > 0 && AllDigits(s)
    ensures |s| > 1 ==> s[0] != '0'
    decreases n
  {
    if n < 10 then [DigitChar(n)] else NatDigits(n / 10) + [DigitChar(n % 10)]
  }

  /** The value of a string of digits, most significant first. */
  function DigitsValue(s: string): nat
    requires AllDigits(s)
  {
    if s == [] then 0 else DigitsValue(s[..|s| - 1]) * 10 + DigitValue(s[|s| - 1])
  }

  lemma {:induction false} DigitsValueOfNatDigits(n: nat)
    ensures DigitsValue(NatDigits(n)) == n
    decreases n
  {
    if n >= 10 {
      var s := NatDigits(n / 10) + [DigitChar(n % 10)];
      assert s[..|s| - 1] == NatDigits(n / 10);
      DigitsValueOfNatDigits(n / 10);
    }
  }

  /** `i.toString()` for an integer `i`. */
  function IntToString(i: int): (s: string)
    ensures |s| > 0
  {
    if i < 0 then "-" + NatDigits(-i) else NatDigits(i)
  }

  /** A JavaScript number as `parseInt` can return it. */
  datatype Num = Int(value: int) | NotANumber

  /** The characters `parseInt` trims before the number: ECMAScript's
      WhiteSpace (tab, vertical tab, form feed, the byte-order mark and
      every Space_Separator: space, no-break space, U+1680, U+2000 to
      U+200A, U+202F, U+205F and U+3000) and LineTerminator (line feed,
      carriage return and the two Unicode line and paragraph separators). */
  predicate IsJsSpace(c: char) {
    c == ' ' || c == '\t' || c == '\n' || c == '\r' || c == '\U{000B}' || c == '\U{000C}'
    || c == '\U{00A0}' || c == '\U{1680}' || ('\U{2000}' <= c <= '\U{200A}')
    || c == '\U{2028}' || c == '\U{2029}' || c == '\U{202F}' || c == '\U{205F}'
    || c == '\U{3000}' || c == '\U{FEFF}'
  }

  /** A number preceded by an ideographic space still parses. */
  lemma ParseIntSkipsIdeographicSpace()
    ensures ParseInt(['\U{3000}', '7']) == Int(7)
  {
    TrimIdeographicSpace();
    ParseSeven();
  }

  lemma TrimIdeographicSpace()
    ensures TrimStart(['\U{3000}', '7']) == ['7']
  {
    var s := ['\U{3000}', '7'];
    assert IsJsSpace(s[0]) && s[1..] == ['7'];
    assert !IsJsSpace('7');
  }

  lemma ParseSeven()
    ensures ParseSigned(['7']) == Int(7)
  {
    assert ['7'][1..] == [];
    assert DigitPrefix(['7']) == ['7'];
    assert ['7'][..0] == [];
  }

  function TrimStart(s: string): (r: string)
    ensures |r| <= |s| && r == s[|s| - |r|..]
    ensures r != [] ==> !IsJsSpace(r[0])
  {
    if s != [] && IsJsSpace(s[0]) then TrimStart(s[1..]) else s
  }

  /** The longest prefix of `s` made of digits. */
  function DigitPrefix(s: string): (r: string)
    ensures AllDigits(r) && |r| <= |s| && r == s[..|r|]
    ensures |r| < |s| ==> !IsDigit(s[|r|])
  {
    if s != [] && IsDigit(s[0]) then [s[0]] + DigitPrefix(s[1..]) else []
  }

  /** `parseInt(s, 10)`: skip leading white space, read an optional sign and
      then the longest run of digits; no digit at all gives NaN. */
  function ParseInt(s: string): (r: Num) {
    ParseSigned(TrimStart(s))
  }

  /** The sign and the digits after the white space. */
  function ParseSigned(t: string): Num {
    if t != [] && t[0] == '-' then Negate(ParseDigits(t[1..]))
    else if t != [] && t[0] == '+' then ParseDigits(t[1..])
    else ParseDigits(t)
  }

  /** The value of the longest run of leading digits, NaN if there is none. */
  function ParseDigits(b: string): Num {
    var digits := DigitPrefix(b);
    if digits == [] then NotANumber else Int(DigitsValue(digits))
  }

  function Negate(n: Num): Num {
    match n
    case Int(v) => Int(-v)
    case NotANumber => NotANumber
  }

  lemma DigitPrefixOfDigits(s: string)
    requires AllDigits(s)
    ensures DigitPrefix(s) == s
  {
    var r := DigitPrefix(s);
    if |r| < |s| {
      assert false;
    }
  }

  /** Text that does not start with white space is not trimmed. */
  lemma TrimStartNone(s: string)
    requires s == [] || !IsJsSpace(s[0])
    ensures TrimStart(s) == s
  {
  }

  /** A run of digits reads as its value. */
  lemma ParseDigitsOfDigits(ds: string)
    requires ds != [] && AllDigits(ds)
    ensures ParseDigits(ds) == Int(DigitsValue(ds))
  {
    DigitPrefixOfDigits(ds);
  }

  lemma ParseIntOfDigits(ds: string)
    requires ds != [] && AllDigits(ds)
    ensures ParseInt(ds) == Int(DigitsValue(ds))
  {
    assert IsDigit(ds[0]);
    TrimStartNone(ds);
    assert ParseSigned(ds) == ParseDigits(ds);
    ParseDigitsOfDigits(ds);
  }

  lemma ParseIntOfNegatedDigits(ds: string)
    requires ds != [] && AllDigits(ds)
    ensures ParseInt("-" + ds) == Int(-(DigitsValue(ds) as int))
  {
    var s := "-" + ds;
    assert s[0] == '-';
    TrimStartNone(s);
    assert s[1..] == ds;
    assert ParseSigned(s) == Negate(ParseDigits(ds));
    ParseDigitsOfDigits(ds);
  }

  /** A run of digits with value `n` reads back as `n`, with or without a
      minus sign in front. */
  lemma DigitsRoundTrip(ds: string, n: nat)
    requires ds != [] && AllDigits(ds) && DigitsValue(ds) == n
    ensures ParseInt(ds) == Int(n)
    ensures ParseInt("-" + ds) == Int(-(n as int))
  {
    ParseIntOfDigits(ds);
    ParseIntOfNegatedDigits(ds);
  }

  /** `String(i)` by sign: a minus sign before the spelling of `|i|` for a
      negative `i`. */
  lemma IntToStringCases(i: int, n: nat)
    requires n == if i < 0 then -i else i
    ensures IntToString(i) == if i < 0 then "-" + NatDigits(n) else NatDigits(n)
  {
  }

  /** `parseInt(String(i), 10) === i`: the stored user id reads back as the
      number that was written. */
  lemma ParseIntToString(i: int)
    ensures ParseInt(IntToString(i)) == Int(i)
  {
    var n: nat := if i < 0 then -i else i;
    var ds := NatDigits(n);
    DigitsValueOfNatDigits(n);
    DigitsRoundTrip(ds, n);
    IntToStringCases(i, n);
  }

  lemma IntToStringInjective(i: int, j: int)
    ensures IntToString(i) == IntToString(j) <==> i == j
  {
    if IntToString(i) == IntToString(j) {
      ParseIntToString(i);
      ParseIntToString(j);
    }
  }

  // ---------------------------------------------------------------------
  // JavaScript property order

  const MaxArrayIndex: nat := 4294967295

  /** The array index a property name stands for, if it is one: the
      canonical decimal spelling of an integer below 2^32 - 1. */
  function ArrayIndex(name: string): (r: Option<nat>)
    ensures r.Some? ==> r.value < MaxArrayIndex && NatDigits(r.value) == name
  {
    if name != [] && AllDigits(name) && (name[0] != '0' || |name| == 1)
      && DigitsValue(name) < MaxArrayIndex
    then
      CanonicalDigits(name);
      Some(DigitsValue(name))
    else None
  }

  lemma {:induction false} CanonicalDigits(s: string)
    requires s != [] && AllDigits(s) && (s[0] != '0' || |s| == 1)
    ensures NatDigits(DigitsValue(s)) == s
    decreases |s|
  {
    if |s| > 1 {
      var p := s[..|s| - 1];
      CanonicalDigits(p);
      var v := DigitsValue(s);
      assert v / 10 == DigitsValue(p) && v % 10 == DigitValue(s[|s| - 1]);
      assert p[0] == s[0] != '0';
      assert s == p + [s[|s| - 1]];
    }
  }

  /** The property name of numeric key `k` (`String(k)`) is an array index
      exactly when `0 <= k < 2^32 - 1`, and then it stands for `k` itself. */
  lemma ArrayIndexOfInt(k: int)
    ensures ArrayIndex(IntToString(k)) == if 0 <= k < MaxArrayIndex then Some(k) else None
  {
    var s := IntToString(k);
    if k < 0 {
      assert !IsDigit(s[0]);
    } else {
      DigitsValueOfNatDigits(k);
      if ArrayIndex(s).Some? {
        IntToStringInjective(ArrayIndex(s).value, k);
      }
    }
  }
}

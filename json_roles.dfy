/** `JSON.stringify` and `JSON.parse` on the one value the session keeps as
    JSON: the list of role names. The encoder follows the standard's
    QuoteJSONString (ECMA-262, section 25.5.2.3): `"` and `\` are escaped,
    the five control characters with a short form use it, the other control
    characters below U+0020 become `\u00xx` in lower-case hex, and every
    other character is copied. The decoder reads a JSON array of JSON
    strings as JSON.parse does (RFC 8259, sections 2, 5 and 7), including
    white space between tokens, every escape and surrogate pairs; any other
    text is a parse failure. */
module JsonRoles {
  import opened Common

  // ---------------------------------------------------------------------
  // Hex digits

  function HexDigit(d: nat): (c: char)
    requires d < 16
  {
    if d < 10 then ('0' as int + d) as char else ('a' as int + d - 10) as char
  }

  function HexValue(c: char): Option<nat> {
    if '0' <= c <= '9' then Some(c as int - '0' as int)
    else if 'a' <= c <= 'f' then Some(c as int - 'a' as int + 10)
    else if 'A' <= c <= 'F' then Some(c as int - 'A' as int + 10)
    else None
  }

  lemma HexValueOfDigit(d: nat)
    requires d < 16
    ensures HexValue(HexDigit(d)) == Some(d)
  {
  }

  /** The value of four hex digits. */
  function Hex4(s: string): (r: Option<nat>)
    requires |s| == 4
    ensures r.Some? ==> r.value < 0x10000
  {
    match (HexValue(s[0]), HexValue(s[1]), HexValue(s[2]), HexValue(s[3]))
    case (Some(a), Some(b), Some(c), Some(d)) =>
      assert a < 16 && b < 16 && c < 16 && d < 16;
      Some(((a * 16 + b) * 16 + c) * 16 + d)
    case _ => None
  }

  // ---------------------------------------------------------------------
  // Encoder

  /** One character of a string literal as `JSON.stringify` writes it. */
  function EscapeChar(c: char): string {
    if c == '"' then "\\\""
    else if c == '\\' then "\\\\"
    else if c == '\U{0008}' then "\\b"
    else if c == '\U{000C}' then "\\f"
    else if c == '\n' then "\\n"
    else if c == '\r' then "\\r"
    else if c == '\t' then "\\t"
    else if c < ' ' then "\\u00" + [HexDigit(c as int / 16), HexDigit(c as int % 16)]
    else [c]
  }

  function EscapeString(s: string): string {
    if s == [] then "" else EscapeChar(s[0]) + EscapeString(s[1..])
  }

  /** `JSON.stringify(s)` for a string `s`. */
  function Quote(s: string): string {
    "\"" + EscapeString(s) + "\""
  }

  /** The elements of the array, separated by commas. */
  function Items(roles: seq<string>): string {
    if roles == [] then ""
    else if |roles| == 1 then Quote(roles[0])
    else Quote(roles[0]) + "," + Items(roles[1..])
  }

  /** `JSON.stringify(roles)`. */
  function Stringify(roles: seq<string>): string {
    "[" + Items(roles) + "]"
  }

  // ---------------------------------------------------------------------
  // Decoder

  /** JSON's four white-space characters. */
  predicate IsJsonSpace(c: char) {
    c == ' ' || c == '\t' || c == '\n' || c == '\r'
  }

  function SkipSpace(s: string): (r: string)
    ensures |r| <= |s|
    ensures r == s[|s| - |r|..]
  {
    if s != [] && IsJsonSpace(s[0]) then SkipSpace(s[1..]) else s
  }

  /** The character a one-letter escape `\x` stands for. */
  function ShortEscape(c: char): Option<char> {
    if c == '"' then Some('"')
    else if c == '\\' then Some('\\')
    else if c == '/' then Some('/')
    else if c == 'b' then Some('\U{0008}')
    else if c == 'f' then Some('\U{000C}')
    else if c == 'n' then Some('\n')
    else if c == 'r' then Some('\r')
    else if c == 't' then Some('\t')
    else None
  }

  predicate IsHighSurrogate(v: nat) { 0xD800 <= v < 0xDC00 }
  predicate IsLowSurrogate(v: nat) { 0xDC00 <= v < 0xE000 }

  /** Puts `c` in front of the decoded text of a successful parse. */
  function Prepend(c: char, r: Option<(string, string)>): Option<(string, string)> {
    match r
    case None => None
    case Some((x, rest)) => Some(([c] + x, rest))
  }

  /** The rest of a string literal after its opening quote: the decoded
      characters and the text after the closing quote. A raw control
      character, an unknown escape, bad hex digits, a lone surrogate or a
      missing closing quote make it fail. */
  function ParseStringBody(s: string): (r: Option<(string, string)>)
    ensures r.Some? ==> |r.value.1| < |s|
    decreases |s|
  {
    if s == [] then None
    else if s[0] == '"' then Some(("", s[1..]))
    else if s[0] == '\\' then
      if |s| < 2 then None
      else if s[1] == 'u' then
        if |s| < 6 then None
        else match Hex4(s[2..6])
          case None => None
          case Some(v) =>
            if IsHighSurrogate(v) then
              if |s| < 12 || s[6] != '\\' || s[7] != 'u' then None
              else match Hex4(s[8..12])
                case None => None
                case Some(w) =>
                  if IsLowSurrogate(w) then
                    Prepend((0x10000 + (v - 0xD800) * 0x400 + (w - 0xDC00)) as char, ParseStringBody(s[12..]))
                  else None
            else if IsLowSurrogate(v) then None
            else Prepend(v as char, ParseStringBody(s[6..]))
      else match ShortEscape(s[1])
        case None => None
        case Some(c) => Prepend(c, ParseStringBody(s[2..]))
    else if s[0] < ' ' then None
    else Prepend(s[0], ParseStringBody(s[1..]))
  }

  /** The array's elements, from the first one on (white space skipped). */
  function ParseItems(s: string): Option<seq<string>>
    decreases |s|
  {
    if s == [] || s[0] != '"' then None
    else match ParseStringBody(s[1..])
      case None => None
      case Some((x, rest)) => AfterItem(x, rest)
  }

  /** What follows the element `x`: the closing bracket and nothing else,
      or a comma and further elements. */
  function AfterItem(x: string, rest: string): Option<seq<string>>
    decreases |rest|
  {
    var t := SkipSpace(rest);
    if t == [] then None
    else if t[0] == ']' then (if SkipSpace(t[1..]) == [] then Some([x]) else None)
    else if t[0] == ',' then
      match ParseItems(SkipSpace(t[1..]))
      case None => None
      case Some(xs) => Some([x] + xs)
    else None
  }

  /** `JSON.parse(s)` when it yields an array of strings; `None` for every
      other text. */
  function ParseRoles(s: string): Option<seq<string>> {
    var t := SkipSpace(s);
    if t == [] || t[0] != '[' then None
    else
      var u := SkipSpace(t[1..]);
      if u != [] && u[0] == ']' then (if SkipSpace(u[1..]) == [] then Some([]) else None)
      else ParseItems(u)
  }

  // ---------------------------------------------------------------------
  // Round trip

  lemma SkipSpaceNone(s: string)
    requires s == [] || !IsJsonSpace(s[0])
    ensures SkipSpace(s) == s
  {
  }

  /** Decoding one escaped character. */
  lemma EscapeCharParse(c: char, t: string)
    ensures ParseStringBody(EscapeChar(c) + t) == Prepend(c, ParseStringBody(t))
  {
    if c == '"' || c == '\\' || c == '\U{0008}' || c == '\U{000C}' || c == '\n' || c == '\r' || c == '\t' {
      ShortEscapeParse(c, t);
    } else if c < ' ' {
      HexEscapeParse(c, t);
    } else {
      var s := EscapeChar(c) + t;
      assert s[1..] == t;
    }
  }

  /** The five short escapes and the two escaped quote characters. */
  lemma ShortEscapeParse(c: char, t: string)
    requires c == '"' || c == '\\' || c == '\U{0008}' || c == '\U{000C}' || c == '\n' || c == '\r' || c == '\t'
    ensures ParseStringBody(EscapeChar(c) + t) == Prepend(c, ParseStringBody(t))
  {
    var s := EscapeChar(c) + t;
    assert s[2..] == t;
  }

  /** The other control characters, written `\u00xx`. */
  lemma HexEscapeParse(c: char, t: string)
    requires c < ' ' && c != '\U{0008}' && c != '\U{000C}' && c != '\n' && c != '\r' && c != '\t'
    ensures ParseStringBody(EscapeChar(c) + t) == Prepend(c, ParseStringBody(t))
  {
    var s := EscapeChar(c) + t;
    var hi, lo := c as int / 16, c as int % 16;
    HexValueOfDigit(hi);
    HexValueOfDigit(lo);
    assert s[2..6] == "00" + [HexDigit(hi), HexDigit(lo)];
    assert Hex4(s[2..6]) == Some(c as int);
    assert s[6..] == t;
  }

  /** A string literal as written decodes to the string, and the text after
      it is left untouched. */
  lemma {:induction false} EscapeStringParse(x: string, rest: string)
    ensures ParseStringBody(EscapeString(x) + "\"" + rest) == Some((x, rest))
    decreases |x|
  {
    if x == [] {
      assert EscapeString(x) + "\"" + rest == "\"" + rest;
    } else {
      assert EscapeString(x) + "\"" + rest == EscapeChar(x[0]) + (EscapeString(x[1..]) + "\"" + rest);
      EscapeCharParse(x[0], EscapeString(x[1..]) + "\"" + rest);
      EscapeStringParse(x[1..], rest);
      assert [x[0]] + x[1..] == x;
    }
  }

  /** A non-empty element list starts with a quote. */
  lemma ItemsStart(roles: seq<string>)
    requires roles != []
    ensures Items(roles) != [] && Items(roles)[0] == '"'
  {
    if |roles| == 1 {
      assert Items(roles) == Quote(roles[0]);
    } else {
      assert Items(roles) == Quote(roles[0]) + "," + Items(roles[1..]);
    }
  }

  /** The last element, followed by the closing bracket. */
  lemma ParseItemsLast(s: string, x: string)
    requires s != [] && s[0] == '"' && ParseStringBody(s[1..]) == Some((x, "]"))
    ensures ParseItems(s) == Some([x])
  {
    AfterClose(x);
  }

  lemma AfterClose(x: string)
    ensures AfterItem(x, "]") == Some([x])
  {
    SkipSpaceNone("]");
    assert "]"[1..] == [];
  }

  /** An element followed by a comma and further elements. */
  lemma ParseItemsMore(s: string, x: string, t: string)
    requires s != [] && s[0] == '"' && ParseStringBody(s[1..]) == Some((x, "," + t))
    requires t != [] && t[0] == '"'
    requires ParseItems(t).Some?
    ensures ParseItems(s) == Some([x] + ParseItems(t).value)
  {
    AfterComma(x, t);
  }

  lemma AfterComma(x: string, t: string)
    requires t != [] && t[0] == '"'
    requires ParseItems(t).Some?
    ensures AfterItem(x, "," + t) == Some([x] + ParseItems(t).value)
  {
    SkipSpaceNone("," + t);
    assert ("," + t)[1..] == t;
    SkipSpaceNone(t);
  }

  /** The element list of a one-role array, closed by its bracket. */
  lemma ItemsParseSingle(roles: seq<string>)
    requires |roles| == 1
    ensures ParseItems(Items(roles) + "]") == Some(roles)
  {
    var x := roles[0];
    var s := Items(roles) + "]";
    assert s == "\"" + (EscapeString(x) + "\"" + "]");
    assert s[1..] == EscapeString(x) + "\"" + "]";
    EscapeStringParse(x, "]");
    ParseItemsLast(s, x);
    assert [x] == roles;
  }

  /** The text of a longer element list: the first literal, a comma, and
      the list of the others. */
  lemma ItemsCons(roles: seq<string>)
    requires |roles| > 1
    ensures Items(roles) + "]" == "\"" + (EscapeString(roles[0]) + "\"" + ("," + (Items(roles[1..]) + "]")))
  {
    assert Items(roles) == Quote(roles[0]) + "," + Items(roles[1..]);
    Regroup(EscapeString(roles[0]), Items(roles[1..]));
  }

  lemma Regroup(e: string, rest: string)
    ensures "\"" + e + "\"" + "," + rest + "]" == "\"" + (e + "\"" + ("," + (rest + "]")))
  {
    var q, c, b := "\"", ",", "]";
    calc {
      q + e + q + c + rest + b;
      q + (e + q) + c + rest + b;
      q + (e + q + c) + rest + b;
      q + (e + q + c + rest) + b;
      q + (e + q + c + rest + b);
      q + (e + q + (c + rest + b));
      q + (e + q + (c + (rest + b)));
    }
  }

  /** A first literal and a comma in front of an element list that parses. */
  lemma ItemsParseCons(x: string, s: string, t: string)
    requires s == "\"" + (EscapeString(x) + "\"" + ("," + t))
    requires t != [] && t[0] == '"' && ParseItems(t).Some?
    ensures ParseItems(s) == Some([x] + ParseItems(t).value)
  {
    assert s[1..] == EscapeString(x) + "\"" + ("," + t);
    EscapeStringParse(x, "," + t);
    ParseItemsMore(s, x, t);
  }

  /** One more element in front of a list that parses. */
  lemma ItemsParseStep(roles: seq<string>)
    requires |roles| > 1 && ParseItems(Items(roles[1..]) + "]") == Some(roles[1..])
    ensures ParseItems(Items(roles) + "]") == Some(roles)
  {
    ItemsCons(roles);
    ItemsStart(roles[1..]);
    ItemsParseCons(roles[0], Items(roles) + "]", Items(roles[1..]) + "]");
    HeadTail(roles);
  }

  lemma HeadTail<T>(s: seq<T>)
    requires s != []
    ensures [s[0]] + s[1..] == s
  {
  }

  lemma {:induction false} ItemsParse(roles: seq<string>)
    requires roles != []
    ensures ParseItems(Items(roles) + "]") == Some(roles)
    decreases |roles|
  {
    if |roles| == 1 {
      ItemsParseSingle(roles);
    } else {
      ItemsParse(roles[1..]);
      ItemsParseStep(roles);
    }
  }

  /** An array text whose opening bracket is followed by no white space. */
  lemma ParseRolesOpen(u: string)
    requires u != [] && !IsJsonSpace(u[0]) && u[0] != ']'
    ensures ParseRoles("[" + u) == ParseItems(u)
  {
    SkipSpaceNone("[" + u);
    assert ("[" + u)[1..] == u;
    SkipSpaceNone(u);
  }

  /** `JSON.parse(JSON.stringify(roles))` gives back the same list. */
  lemma StringifyRoundTrip(roles: seq<string>)
    ensures ParseRoles(Stringify(roles)) == Some(roles)
  {
    if roles == [] {
      EmptyRoundTrip();
    } else {
      ListRoundTrip(roles);
    }
  }

  lemma EmptyRoundTrip()
    ensures ParseRoles(Stringify([])) == Some([])
  {
    var t: string := "[]";
    assert Stringify([]) == t;
    SkipSpaceNone(t);
    assert t[1..] == "]";
    SkipSpaceNone("]");
    assert "]"[1..] == [];
  }

  lemma ListRoundTrip(roles: seq<string>)
    requires roles != []
    ensures ParseRoles(Stringify(roles)) == Some(roles)
  {
    var u := Items(roles) + "]";
    OpenBracket(Items(roles));
    ItemsStart(roles);
    ParseRolesOpen(u);
    ItemsParse(roles);
  }

  lemma OpenBracket(items: string)
    ensures "[" + items + "]" == "[" + (items + "]")
  {
  }

  /** Two different role lists are stored as two different texts. */
  lemma StringifyInjective(a: seq<string>, b: seq<string>)
    ensures Stringify(a) == Stringify(b) <==> a == b
  {
    if Stringify(a) == Stringify(b) {
      StringifyRoundTrip(a);
      StringifyRoundTrip(b);
    }
  }

  /** The stored text is never empty, so the restore check on it passes. */
  lemma StringifyNonEmpty(roles: seq<string>)
    ensures |Stringify(roles)| >= 2
  {
  }
}

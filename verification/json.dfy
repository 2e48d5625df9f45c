/**
 * JSON.stringify (ECMA-262, SerializeJSONProperty and QuoteJSONString) on
 * the values of module Js, and a decoder for the JSON texts of scalar values
 * (null, booleans, integers and strings, whose grammar is sections 3, 6 and 7
 * of RFC 8259). The decoder is the partner that shows an encoded id can be
 * read back, so that no id can corrupt the query text it is embedded in.
 */
module Json {
  import opened Js

  // ---------------------------------------------------------------------------
  // Hexadecimal digits for \uXXXX escapes

  function HexDigit(d: nat): (c: char)
    requires d < 16
  {
    if d < 10 then DigitChar(d) else ('a' as int + d - 10) as char
  }

  function HexValue(c: char): Option<nat> {
    if '0' <= c <= '9' then Some(c as int - '0' as int)
    else if 'a' <= c <= 'f' then Some(c as int - 'a' as int + 10)
    else if 'A' <= c <= 'F' then Some(c as int - 'A' as int + 10)
    else None
  }

  lemma HexValueOfDigit(d: nat)
    requires d < 16
    ensures HexValue(HexDigit(d)) == Some(d)
  {
  }

  /** Four lower-case hexadecimal digits, most significant first. */
  function Hex4(n: nat): (r: string)
    requires n < 0x1_0000
    ensures |r| == 4
  {
    [HexDigit(n / 16 / 16 / 16), HexDigit(n / 16 / 16 % 16), HexDigit(n / 16 % 16), HexDigit(n % 16)]
  }

  function ParseHex4(t: string): Option<nat>
    requires |t| == 4
  {
    match (HexValue(t[0]), HexValue(t[1]), HexValue(t[2]), HexValue(t[3]))
    case (Some(a), Some(b), Some(c), Some(d)) => Some(((a * 16 + b) * 16 + c) * 16 + d)
    case _ => None
  }

  lemma Hex4RoundTrip(n: nat)
    requires n < 0x1_0000
    ensures ParseHex4(Hex4(n)) == Some(n)
  {
    var q1 := n / 16;
    var q2 := q1 / 16;
    var a, b, c, d := q2 / 16, q2 % 16, q1 % 16, n % 16;
    HexValueOfDigit(a);
    HexValueOfDigit(b);
    HexValueOfDigit(c);
    HexValueOfDigit(d);
    assert n == q1 * 16 + d;
    assert q1 == q2 * 16 + c;
    assert q2 == a * 16 + b;
  }

  // ---------------------------------------------------------------------------
  // QuoteJSONString

  /**
   * The JSON form of one character: the seven short escapes, \u00XX for the
   * other control characters, and the character itself otherwise. (Lone
   * surrogates, which QuoteJSONString also escapes, are not characters here.)
   */
  function EscapeChar(c: char): string {
    if c as int == 0x08 then "\\b"
    else if c == '\t' then "\\t"
    else if c == '\n' then "\\n"
    else if c as int == 0x0C then "\\f"
    else if c == '\r' then "\\r"
    else if c == '"' then "\\\""
    else if c == '\\' then "\\\\"
    else if c as int < 0x20 then "\\u" + Hex4(c as int)
    else [c]
  }

  function Escape(s: string): string {
    if s == [] then "" else EscapeChar(s[0]) + Escape(s[1..])
  }

  /** QuoteJSONString: the string between double quotes, escaped. */
  function Quote(s: string): (r: string)
    ensures |r| >= 2 && r[0] == '"' && r[|r| - 1] == '"'
  {
    "\"" + Escape(s) + "\""
  }

  // ---------------------------------------------------------------------------
  // JSON.stringify

  /** The members of a serialized object: properties whose value serializes. */
  function Members(fields: seq<(string, Value)>, texts: seq<Option<string>>): seq<string>
    requires |fields| == |texts|
  {
    if fields == [] then []
    else
      (match texts[0]
       case None => []
       case Some(t) => [Quote(fields[0].0) + ":" + t])
      + Members(fields[1..], texts[1..])
  }

  /**
   * JSON.stringify(v) without a replacer or indentation. Undefined has no
   * JSON form (the JavaScript result is undefined, here None); inside an
   * array it is written as null, inside an object its property is dropped.
   */
  function Stringify(v: Value): (r: Option<string>)
    ensures r.None? <==> v.Undefined?
  {
    match v
    case Undefined => None
    case Null => Some("null")
    case Bool(b) => Some(if b then "true" else "false")
    case Int(i) => Some(Decimal(i))
    case Str(s) => Some(Quote(s))
    case Arr(items) =>
      var texts := seq(|items|, k requires 0 <= k < |items| =>
        match Stringify(items[k])
        case None => "null"
        case Some(t) => t);
      Some("[" + Join(texts, ',') + "]")
    case Obj(fields) =>
      var texts := seq(|fields|, k requires 0 <= k < |fields| => Stringify(fields[k].1));
      Some("{" + Join(Members(fields, texts), ',') + "}")
  }

  /** A value whose JSON text `DecodeScalar` reads back. */
  predicate IsScalar(v: Value) {
    v.Null? || v.Bool? || v.Int? || v.Str?
  }

  // ---------------------------------------------------------------------------
  // Decoding scalar JSON texts

  /**
   * The escape sequence at the head of `t` (which starts with a backslash):
   * the character it stands for and its length.
   */
  function Unescape(t: string): (r: Option<(char, nat)>)
    requires |t| > 0 && t[0] == '\\'
    ensures r.Some? ==> 2 <= r.value.1 <= |t|
  {
    if |t| < 2 then None
    else if t[1] == '"' then Some(('"', 2))
    else if t[1] == '\\' then Some(('\\', 2))
    else if t[1] == '/' then Some(('/', 2))
    else if t[1] == 'b' then Some((0x08 as char, 2))
    else if t[1] == 'f' then Some((0x0C as char, 2))
    else if t[1] == 'n' then Some(('\n', 2))
    else if t[1] == 'r' then Some(('\r', 2))
    else if t[1] == 't' then Some(('\t', 2))
    else if t[1] == 'u' && |t| >= 6 then
      match ParseHex4(t[2..6])
      case Some(n) => if n < 0xD800 || 0xE000 <= n then Some((n as char, 6)) else None
      case None => None
    else None
  }

  /**
   * The body of a JSON string, read up to its closing quote: the decoded
   * characters and the text after the quote. Raw control characters and
   * unknown escapes are rejected.
   */
  function ParseStringBody(t: string): Option<(string, string)>
    decreases |t|
  {
    if t == [] then None
    else if t[0] == '"' then Some(("", t[1..]))
    else if t[0] == '\\' then
      match Unescape(t)
      case None => None
      case Some((c, n)) =>
        match ParseStringBody(t[n..])
        case None => None
        case Some((s, rest)) => Some(([c] + s, rest))
    else if t[0] as int < 0x20 then None
    else
      match ParseStringBody(t[1..])
      case None => None
      case Some((s, rest)) => Some(([t[0]] + s, rest))
  }

  /** An RFC 8259 integer: an optional minus, then 0 or digits without a leading zero. */
  function ParseInteger(t: string): Option<int> {
    var digits := if |t| > 0 && t[0] == '-' then t[1..] else t;
    if digits != [] && AllDigits(digits) && (digits[0] != '0' || |digits| == 1) then
      var n: int := DigitsValue(digits);
      Some(if |t| > 0 && t[0] == '-' then -n else n)
    else None
  }

  /** The scalar value a JSON text denotes, if it is one. */
  function DecodeScalar(t: string): Option<Value> {
    if t == "null" then Some(Null)
    else if t == "true" then Some(Bool(true))
    else if t == "false" then Some(Bool(false))
    else if |t| > 0 && t[0] == '"' then
      match ParseStringBody(t[1..])
      case Some((s, rest)) => if rest == "" then Some(Str(s)) else None
      case None => None
    else
      match ParseInteger(t)
      case Some(n) => Some(Int(n))
      case None => None
  }

  // ---------------------------------------------------------------------------
  // Round trip

  /** A control character without a short escape is written \u00XX and read back from it. */
  lemma UnicodeEscapeRoundTrip(c: char, rest: string)
    requires c as int < 0x20 && c as int !in {0x08, 0x09, 0x0A, 0x0C, 0x0D}
    ensures ParseStringBody(EscapeChar(c) + rest) ==
      match ParseStringBody(rest)
      case None => None
      case Some((s, r)) => Some(([c] + s, r))
  {
    var t := EscapeChar(c) + rest;
    assert EscapeChar(c) == "\\u" + Hex4(c as int);
    Hex4RoundTrip(c as int);
    assert t[2..6] == Hex4(c as int);
    assert t[6..] == rest;
  }

  /** One escaped character is read back as that character. */
  lemma EscapeCharRoundTrip(c: char, rest: string)
    ensures ParseStringBody(EscapeChar(c) + rest) ==
      match ParseStringBody(rest)
      case None => None
      case Some((s, r)) => Some(([c] + s, r))
  {
    var t := EscapeChar(c) + rest;
    if c as int < 0x20 && c as int !in {0x08, 0x09, 0x0A, 0x0C, 0x0D} {
      UnicodeEscapeRoundTrip(c, rest);
    } else if |EscapeChar(c)| == 2 {
      assert t[2..] == rest;
    } else {
      assert t[1..] == rest;
    }
  }

  /** The escaped form of a string, closed by a quote, is read back as the string. */
  lemma {:induction false} EscapeRoundTrip(s: string, rest: string)
    ensures ParseStringBody(Escape(s) + "\"" + rest) == Some((s, rest))
  {
    if s == [] {
      assert Escape(s) + "\"" + rest == "\"" + rest;
      assert ("\"" + rest)[1..] == rest;
    } else {
      EscapeRoundTrip(s[1..], rest);
      assert Escape(s) + "\"" + rest == EscapeChar(s[0]) + (Escape(s[1..]) + "\"" + rest);
      EscapeCharRoundTrip(s[0], Escape(s[1..]) + "\"" + rest);
      assert [s[0]] + s[1..] == s;
    }
  }

  lemma DecimalRoundTrip(n: int)
    ensures ParseInteger(Decimal(n)) == Some(n)
  {
    var m: nat := if n < 0 then -n else n;
    var digits := NatDigits(m);
    DigitsValueOfNatDigits(m);
    assert digits[0] != '0' || |digits| == 1;
    if n < 0 {
      var t := "-" + digits;
      assert t[0] == '-' && t[1..] == digits;
      assert Decimal(n) == t;
    } else {
      assert digits[0] != '-';
    }
  }

  /** Every scalar value is read back from its JSON text. */
  lemma DecodeStringify(v: Value)
    requires IsScalar(v)
    ensures Stringify(v).Some? && DecodeScalar(Stringify(v).value) == Some(v)
  {
    match v
    case Null =>
    case Bool(b) =>
    case Str(s) =>
      var t := Quote(s);
      assert t[1..] == Escape(s) + "\"" + "";
      EscapeRoundTrip(s, "");
    case Int(n) =>
      var t := Decimal(n);
      DecimalRoundTrip(n);
      assert t[0] == '-' || IsDigit(t[0]);
  }

  /** Distinct scalar values have distinct JSON texts. */
  lemma StringifyInjective(a: Value, b: Value)
    requires IsScalar(a) && IsScalar(b)
    ensures Stringify(a) == Stringify(b) ==> a == b
  {
    DecodeStringify(a);
    DecodeStringify(b);
  }
}

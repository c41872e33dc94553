/** The `json_escape` template filter: the body of the JSON string literal that
    Python's `json.dumps` produces with its defaults (`ensure_ascii=True`),
    that is section 7 of RFC 8259 with every character outside the printable
    ASCII range written as a `\uXXXX` escape (a surrogate pair above U+FFFF).
    The partner is a decoder of string bodies written from RFC 8259, and the
    round trip `Unescape(Escape(s)) == Some(s)` connects the two. */
module JsonEscape {
  import opened Common
  import opened JsonValues

  /** Hexadecimal digit value, accepting both cases as RFC 8259 does. */
  function HexValue(c: char): Option<nat> {
    if '0' <= c <= '9' then Some(c as int - '0' as int)
    else if 'a' <= c <= 'f' then Some(c as int - 'a' as int + 10)
    else if 'A' <= c <= 'F' then Some(c as int - 'A' as int + 10)
    else None
  }

  /** `'%04x' % n` */
  function Hex4(n: nat): (r: string)
    requires n < 0x10000
    ensures |r| == 4
  {
    var q1 := n / 16;
    var q2 := q1 / 16;
    [HexDigit(q2 / 16), HexDigit(q2 % 16), HexDigit(q1 % 16), HexDigit(n % 16)]
  }

  function ParseHex4(t: string): Option<nat>
    requires |t| == 4
  {
    match (HexValue(t[0]), HexValue(t[1]), HexValue(t[2]), HexValue(t[3]))
    case (Some(a), Some(b), Some(c), Some(d)) => Some(a * 0x1000 + b * 0x100 + c * 0x10 + d)
    case _ => None
  }

  lemma HexDigitValue(d: nat)
    requires d < 16
    ensures HexValue(HexDigit(d)) == Some(d)
  {
  }

  lemma Hex4RoundTrip(n: nat)
    requires n < 0x10000
    ensures ParseHex4(Hex4(n)) == Some(n)
  {
    var q1 := n / 16;
    var q2 := q1 / 16;
    HexDigitValue(q2 / 16);
    HexDigitValue(q2 % 16);
    HexDigitValue(q1 % 16);
    HexDigitValue(n % 16);
    assert n == q2 / 16 * 0x1000 + q2 % 16 * 0x100 + q1 % 16 * 0x10 + n % 16;
  }

  /** The printable ASCII range that `ensure_ascii` leaves as it is. */
  predicate Printable(c: char) {
    0x20 <= c as int <= 0x7E
  }

  /** `\u` followed by four hex digits. */
  function UEscape(n: nat): (r: string)
    requires n < 0x10000
    ensures |r| == 6
  {
    "\\u" + Hex4(n)
  }

  /** The escaped form of one character. */
  function EscapeChar(c: char): (r: string)
    ensures 1 <= |r|
    ensures forall i :: 0 <= i < |r| ==> Printable(r[i])
  {
    if c == '"' then "\\\""
    else if c == '\\' then "\\\\"
    else if c == '\n' then "\\n"
    else if c == '\r' then "\\r"
    else if c == '\t' then "\\t"
    else if c as int == 0x08 then "\\b"
    else if c as int == 0x0C then "\\f"
    else if Printable(c) then [c]
    else if c as int < 0x10000 then UEscape(c as int)
    else
      var v := c as int - 0x10000;
      UEscape(0xD800 + v / 0x400) + UEscape(0xDC00 + v % 0x400)
  }

  /** `json.dumps(s)[1:-1]` */
  function Escape(s: string): (r: string)
    ensures forall i :: 0 <= i < |r| ==> Printable(r[i])
    ensures |r| >= |s|
  {
    if s == [] then [] else EscapeChar(s[0]) + Escape(s[1..])
  }

  /** `_json_escape(value)`: None gives the empty string; any other value is
      formatted with `str` and escaped. */
  function JsonEscapeFilter(v: Json): (r: string)
    ensures v.JNull? ==> r == ""
    ensures !v.JNull? ==> Unescape(r) == Some(PyStr(v))
  {
    if v.JNull? then "" else
      var s := PyStr(v);
      UnescapeEscape(s);
      Escape(s)
  }

  // ---------------------------------------------------------------------------
  // Decoding string bodies (section 7 of RFC 8259)

  /** Decodes the first character of a string body and says how many
      characters of input it used. */
  function DecodeOne(t: string): (r: Option<(char, nat)>)
    requires t != []
    ensures r.Some? ==> 1 <= r.value.1 <= |t|
  {
    if t[0] == '\\' then
      if |t| < 2 then None
      else if t[1] == '"' then Some(('"', 2))
      else if t[1] == '\\' then Some(('\\', 2))
      else if t[1] == '/' then Some(('/', 2))
      else if t[1] == 'b' then Some((0x08 as char, 2))
      else if t[1] == 'f' then Some((0x0C as char, 2))
      else if t[1] == 'n' then Some(('\n', 2))
      else if t[1] == 'r' then Some(('\r', 2))
      else if t[1] == 't' then Some(('\t', 2))
      else if t[1] == 'u' && |t| >= 6 then
        match ParseHex4(t[2..6])
        case None => None
        case Some(hi) =>
          if 0xD800 <= hi < 0xDC00 then
            if |t| >= 12 && t[6] == '\\' && t[7] == 'u' then
              match ParseHex4(t[8..12])
              case None => None
              case Some(lo) =>
                if 0xDC00 <= lo < 0xE000 then
                  Some(((0x10000 + (hi - 0xD800) * 0x400 + (lo - 0xDC00)) as char, 12))
                else None
            else None
          else if 0xDC00 <= hi < 0xE000 then None
          else Some((hi as char, 6))
      else None
    else if t[0] == '"' || (t[0] as int) < 0x20 then None
    else Some((t[0], 1))
  }

  function Unescape(t: string): Option<string>
    decreases |t|
  {
    if t == [] then Some([])
    else match DecodeOne(t)
      case None => None
      case Some((c, n)) =>
        match Unescape(t[n..])
        case None => None
        case Some(rest) => Some([c] + rest)
  }

  lemma DecodeEscapeChar(c: char, rest: string)
    ensures DecodeOne(EscapeChar(c) + rest) == Some((c, |EscapeChar(c)|))
  {
    var n := c as int;
    if c == '"' || c == '\\' || c == '\n' || c == '\r' || c == '\t' || n == 0x08 || n == 0x0C || Printable(c) {
    } else if n < 0x10000 {
      DecodeBmpEscape(c, rest);
    } else {
      DecodeSurrogatePair(c, rest);
    }
  }

  lemma DecodeBmpEscape(c: char, rest: string)
    requires !Printable(c) && c as int < 0x10000
    ensures DecodeOne(UEscape(c as int) + rest) == Some((c, 6))
  {
    var t := UEscape(c as int) + rest;
    Hex4RoundTrip(c as int);
    assert t[..2] == "\\u";
    assert t[2..6] == Hex4(c as int);
  }

  lemma DecodeSurrogatePair(c: char, rest: string)
    requires c as int >= 0x10000
    ensures var v := c as int - 0x10000;
      DecodeOne(UEscape(0xD800 + v / 0x400) + UEscape(0xDC00 + v % 0x400) + rest) == Some((c, 12))
  {
    var v := c as int - 0x10000;
    var hi, lo := 0xD800 + v / 0x400, 0xDC00 + v % 0x400;
    assert 0x10000 + (hi - 0xD800) * 0x400 + (lo - 0xDC00) == c as int;
    DecodePair(hi, lo, rest);
  }

  lemma DecodePair(hi: nat, lo: nat, rest: string)
    requires 0xD800 <= hi < 0xDC00 && 0xDC00 <= lo < 0xE000
    ensures DecodeOne(UEscape(hi) + UEscape(lo) + rest) == Some(((0x10000 + (hi - 0xD800) * 0x400 + (lo - 0xDC00)) as char, 12))
  {
    var t := UEscape(hi) + UEscape(lo) + rest;
    Hex4RoundTrip(hi);
    Hex4RoundTrip(lo);
    assert t[..2] == "\\u" && t[6..8] == "\\u";
    assert t[2..6] == Hex4(hi);
    assert t[8..12] == Hex4(lo);
  }

  /** Decoding the escaped text gives back the original string. */
  lemma {:induction false} UnescapeEscape(s: string)
    ensures Unescape(Escape(s)) == Some(s)
  {
    if s != [] {
      var e := EscapeChar(s[0]);
      var t := Escape(s);
      assert t == e + Escape(s[1..]);
      DecodeEscapeChar(s[0], Escape(s[1..]));
      assert t[|e|..] == Escape(s[1..]);
      UnescapeEscape(s[1..]);
      assert [s[0]] + s[1..] == s;
    }
  }

  /** Escaping is one-to-one: different strings never escape to the same text. */
  lemma EscapeInjective(s: string, s': string)
    requires Escape(s) == Escape(s')
    ensures s == s'
  {
    UnescapeEscape(s);
    UnescapeEscape(s');
  }

  /** Printable ASCII other than the quote and the backslash passes through unchanged. */
  lemma {:induction false} EscapePlainText(s: string)
    requires forall i :: 0 <= i < |s| ==> Printable(s[i]) && s[i] != '"' && s[i] != '\\'
    ensures Escape(s) == s
  {
    if s != [] {
      EscapePlainText(s[1..]);
    }
  }
}

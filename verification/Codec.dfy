/** The text encodings the service relies on: hexadecimal, the canonical UUID text, the URL-safe
    base 64 of tokens, and query escaping. */
module Codec {
  import opened Core

  // ---------------------------------------------------------------------------------------
  // Hexadecimal
  // ---------------------------------------------------------------------------------------

  predicate IsHexDigit(c: char) {
    '0' <= c <= '9' || 'a' <= c <= 'f'
  }

  function HexDigit(n: int): (c: char)
    requires 0 <= n < 16
    ensures IsHexDigit(c) && HexValue(c) == Some(n)
  {
    if n < 10 then ('0' as int + n) as char else ('a' as int + n - 10) as char
  }

  function HexValue(c: char): (v: Option<int>)
    ensures v.Some? ==> 0 <= v.value < 16
  {
    if '0' <= c <= '9' then Some(c as int - '0' as int)
    else if 'a' <= c <= 'f' then Some(c as int - 'a' as int + 10)
    else if 'A' <= c <= 'F' then Some(c as int - 'A' as int + 10)
    else None
  }

  function Hex(b: Bytes): (s: string)
    ensures |s| == 2 * |b|
    ensures forall i :: 0 <= i < |s| ==> IsHexDigit(s[i])
  {
    if b == [] then "" else [HexDigit(b[0] as int / 16), HexDigit(b[0] as int % 16)] + Hex(b[1..])
  }

  function UnHex(s: string): Option<Bytes> {
    if s == "" then Some([])
    else if |s| == 1 then None
    else
      match (HexValue(s[0]), HexValue(s[1]), UnHex(s[2..]))
      case (Some(high), Some(low), Some(rest)) => Some([(16 * high + low) as byte] + rest)
      case _ => None
  }

  lemma {:induction false} HexRoundTrip(b: Bytes)
    ensures UnHex(Hex(b)) == Some(b)
  {
    if b != [] {
      assert Hex(b)[2..] == Hex(b[1..]);
      HexRoundTrip(b[1..]);
      assert b == [b[0]] + b[1..];
    }
  }

  // ---------------------------------------------------------------------------------------
  // UUID text (RFC 9562, section 4)
  // ---------------------------------------------------------------------------------------

  function UuidText(u: Uuid): (s: string)
    ensures |s| == 36
  {
    Grouped(Hex(u))
  }

  /** 32 digits in groups of 8, 4, 4, 4 and 12. */
  function Grouped(digits: string): (s: string)
    requires |digits| == 32
    ensures |s| == 36
  {
    digits[..8] + "-" + digits[8..12] + "-" + digits[12..16] + "-" + digits[16..20] + "-" + digits[20..]
  }

  /** The canonical spelling only. */
  function ParseUuid(s: string): Option<Uuid> {
    if |s| != 36 || s[8] != '-' || s[13] != '-' || s[18] != '-' || s[23] != '-' then None
    else
      match UnHex(Ungrouped(s))
      case Some(b) => if |b| == 16 then Some(b) else None
      case None => None
  }

  function Ungrouped(s: string): string
    requires |s| == 36
  {
    s[..8] + s[9..13] + s[14..18] + s[19..23] + s[24..]
  }

  lemma UngroupGrouped(digits: string)
    requires |digits| == 32
    ensures Ungrouped(Grouped(digits)) == digits
  {
    var s := Grouped(digits);
    assert s[..8] == digits[..8] && s[9..13] == digits[8..12] && s[14..18] == digits[12..16];
    assert s[19..23] == digits[16..20] && s[24..] == digits[20..];
  }

  lemma UuidRoundTrip(u: Uuid)
    ensures ParseUuid(UuidText(u)) == Some(u)
  {
    UngroupGrouped(Hex(u));
    HexRoundTrip(u);
  }

  lemma UuidTextHasNoColon(u: Uuid)
    ensures ':' !in UuidText(u)
  {
  }

  // ---------------------------------------------------------------------------------------
  // strings.Cut
  // ---------------------------------------------------------------------------------------

  /** The text before and after the first `sep`, if there is one. */
  function Cut(s: string, sep: char): (r: Option<(string, string)>)
    ensures r.Some? ==> |r.value.1| < |s|
  {
    if s == "" then None
    else if s[0] == sep then Some(("", s[1..]))
    else
      match Cut(s[1..], sep)
      case Some((a, b)) => Some(([s[0]] + a, b))
      case None => None
  }

  lemma {:induction false} CutAtFirst(a: string, sep: char, b: string)
    requires sep !in a
    ensures Cut(a + [sep] + b, sep) == Some((a, b))
  {
    var s := a + [sep] + b;
    if a == "" {
      assert s[0] == sep && s[1..] == b;
    } else {
      assert s[0] == a[0] && s[1..] == a[1..] + [sep] + b;
      CutAtFirst(a[1..], sep, b);
      assert a == [a[0]] + a[1..];
    }
  }

  lemma {:induction false} CutWithin(a: string, sep: char, b: string)
    requires sep in a
    ensures Cut(a, sep).Some? && Cut(a + b, sep) == Some((Cut(a, sep).value.0, Cut(a, sep).value.1 + b))
  {
    assert (a + b)[0] == a[0] && (a + b)[1..] == a[1..] + b;
    if a[0] != sep {
      CutWithin(a[1..], sep, b);
    }
  }

  lemma {:induction false} CutNowhere(s: string, sep: char)
    requires sep !in s
    ensures Cut(s, sep) == None
  {
    if s != "" {
      CutNowhere(s[1..], sep);
    }
  }

  // ---------------------------------------------------------------------------------------
  // URL-safe base 64 without padding (RFC 4648, section 5)
  // ---------------------------------------------------------------------------------------

  predicate IsDigit(c: char) {
    'A' <= c <= 'Z' || 'a' <= c <= 'z' || '0' <= c <= '9' || c == '-' || c == '_'
  }

  function Digit(v: int): (c: char)
    requires 0 <= v < 64
    ensures IsDigit(c) && DigitValue(c) == Some(v)
  {
    if v < 26 then ('A' as int + v) as char
    else if v < 52 then ('a' as int + v - 26) as char
    else if v < 62 then ('0' as int + v - 52) as char
    else if v == 62 then '-'
    else '_'
  }

  function DigitValue(c: char): (v: Option<int>)
    ensures v.Some? ==> 0 <= v.value < 64
  {
    if 'A' <= c <= 'Z' then Some(c as int - 'A' as int)
    else if 'a' <= c <= 'z' then Some(c as int - 'a' as int + 26)
    else if '0' <= c <= '9' then Some(c as int - '0' as int + 52)
    else if c == '-' then Some(62)
    else if c == '_' then Some(63)
    else None
  }

  /** The four six-bit values of a group of three bytes; a missing byte counts as zero. */
  function Sextets(a: byte, b: byte, c: byte): (v: (int, int, int, int))
    ensures 0 <= v.0 < 64 && 0 <= v.1 < 64 && 0 <= v.2 < 64 && 0 <= v.3 < 64
  {
    var a, b, c := a as int, b as int, c as int;
    (a / 4, a % 4 * 16 + b / 16, b % 16 * 4 + c / 64, c % 64)
  }

  function FirstByte(p: int, q: int): byte
    requires 0 <= p < 64 && 0 <= q < 64
  {
    (p * 4 + q / 16) as byte
  }

  function SecondByte(q: int, r: int): byte
    requires 0 <= q < 64 && 0 <= r < 64
  {
    (q % 16 * 16 + r / 4) as byte
  }

  function ThirdByte(r: int, t: int): byte
    requires 0 <= r < 64 && 0 <= t < 64
  {
    (r % 4 * 64 + t) as byte
  }

  lemma GroupRoundTrip(a: byte, b: byte, c: byte)
    ensures var (p, q, r, t) := Sextets(a, b, c);
            FirstByte(p, q) == a && SecondByte(q, r) == b && ThirdByte(r, t) == c
  {
  }

  /** Three bytes become four digits; a tail of one or two bytes becomes two or three. */
  function Base64(b: Bytes): (s: string)
    ensures forall i :: 0 <= i < |s| ==> IsDigit(s[i])
  {
    if b == [] then ""
    else if |b| == 1 then
      var (p, q, _, _) := Sextets(b[0], 0, 0);
      [Digit(p), Digit(q)]
    else if |b| == 2 then
      var (p, q, r, _) := Sextets(b[0], b[1], 0);
      [Digit(p), Digit(q), Digit(r)]
    else
      var (p, q, r, t) := Sextets(b[0], b[1], b[2]);
      [Digit(p), Digit(q), Digit(r), Digit(t)] + Base64(b[3..])
  }

  function UnBase64(s: string): Option<Bytes> {
    if s == "" then Some([])
    else if |s| == 1 then None
    else if |s| == 2 then
      match (DigitValue(s[0]), DigitValue(s[1]))
      case (Some(p), Some(q)) => Some([FirstByte(p, q)])
      case _ => None
    else if |s| == 3 then
      match (DigitValue(s[0]), DigitValue(s[1]), DigitValue(s[2]))
      case (Some(p), Some(q), Some(r)) => Some([FirstByte(p, q), SecondByte(q, r)])
      case _ => None
    else
      match (DigitValue(s[0]), DigitValue(s[1]), DigitValue(s[2]), DigitValue(s[3]), UnBase64(s[4..]))
      case (Some(p), Some(q), Some(r), Some(t), Some(rest)) =>
        Some([FirstByte(p, q), SecondByte(q, r), ThirdByte(r, t)] + rest)
      case _ => None
  }

  lemma OneByteRoundTrip(a: byte)
    ensures UnBase64(Base64([a])) == Some([a])
  {
    var (p, q, r, t) := Sextets(a, 0, 0);
    TwoDigits(p, q);
    GroupRoundTrip(a, 0, 0);
  }

  lemma TwoDigits(p: int, q: int)
    requires 0 <= p < 64 && 0 <= q < 64
    ensures UnBase64([Digit(p), Digit(q)]) == Some([FirstByte(p, q)])
  {
  }

  lemma TwoByteRoundTrip(a: byte, b: byte)
    ensures UnBase64(Base64([a, b])) == Some([a, b])
  {
    GroupRoundTrip(a, b, 0);
  }

  lemma GroupPrepends(a: byte, b: byte, c: byte, rest: Bytes)
    requires UnBase64(Base64(rest)) == Some(rest)
    ensures UnBase64(Base64([a, b, c] + rest)) == Some([a, b, c] + rest)
  {
    GroupRoundTrip(a, b, c);
    var (p, q, r, t) := Sextets(a, b, c);
    assert ([a, b, c] + rest)[3..] == rest;
    var s := [Digit(p), Digit(q), Digit(r), Digit(t)] + Base64(rest);
    assert s[4..] == Base64(rest);
    assert Base64([a, b, c] + rest) == s;
  }

  lemma {:induction false} Base64Length(b: Bytes)
    ensures |Base64(b)| == |b| / 3 * 4 + (if |b| % 3 == 0 then 0 else |b| % 3 + 1)
  {
    if |b| >= 3 {
      Base64Length(b[3..]);
    }
  }

  lemma {:induction false} Base64RoundTrip(b: Bytes)
    ensures UnBase64(Base64(b)) == Some(b)
  {
    if |b| == 1 {
      OneByteRoundTrip(b[0]);
      assert b == [b[0]];
    } else if |b| == 2 {
      TwoByteRoundTrip(b[0], b[1]);
      assert b == [b[0], b[1]];
    } else if |b| >= 3 {
      Base64RoundTrip(b[3..]);
      assert b == [b[0], b[1], b[2]] + b[3..];
      GroupPrepends(b[0], b[1], b[2], b[3..]);
    }
  }

  // ---------------------------------------------------------------------------------------
  // Query escaping
  // ---------------------------------------------------------------------------------------

  predicate Unreserved(c: char) {
    IsDigit(c) || c == '.' || c == '~'
  }

  /** A Go string as its bytes: every character stands for one byte. */
  predicate ByteText(s: string) {
    forall i :: 0 <= i < |s| ==> s[i] as int < 256
  }

  function UpperHexDigit(n: int): (c: char)
    requires 0 <= n < 16
    ensures ('0' <= c <= '9' || 'A' <= c <= 'F') && HexValue(c) == Some(n)
  {
    if n < 10 then ('0' as int + n) as char else ('A' as int + n - 10) as char
  }

  function EscapeChar(c: char): (s: string)
    requires c as int < 256
    ensures |s| > 0
    ensures forall i :: 0 <= i < |s| ==> Unreserved(s[i]) || s[i] == '+' || s[i] == '%'
  {
    if Unreserved(c) then [c]
    else if c == ' ' then "+"
    else ['%', UpperHexDigit(c as int / 16), UpperHexDigit(c as int % 16)]
  }

  function QueryEscape(s: string): (e: string)
    requires ByteText(s)
    ensures forall i :: 0 <= i < |e| ==> Unreserved(e[i]) || e[i] == '+' || e[i] == '%'
  {
    if s == "" then "" else EscapeChar(s[0]) + QueryEscape(s[1..])
  }

  function QueryUnescape(s: string): Option<string> {
    if s == "" then Some("")
    else if s[0] == '%' then
      if |s| < 3 then None
      else
        match (HexValue(s[1]), HexValue(s[2]), QueryUnescape(s[3..]))
        case (Some(high), Some(low), Some(rest)) => Some([(16 * high + low) as char] + rest)
        case _ => None
    else
      match QueryUnescape(s[1..])
      case Some(rest) => Some([if s[0] == '+' then ' ' else s[0]] + rest)
      case None => None
  }

  /** Text that needs no escaping is its own unescaping. */
  lemma {:induction false} PlainUnescapes(s: string)
    requires forall i :: 0 <= i < |s| ==> Unreserved(s[i])
    ensures QueryUnescape(s) == Some(s)
  {
    if s != "" {
      PlainUnescapes(s[1..]);
      assert s == [s[0]] + s[1..];
    }
  }

  lemma EscapedCharPrepends(c: char, e: string, rest: string)
    requires c as int < 256 && QueryUnescape(e) == Some(rest)
    ensures QueryUnescape(EscapeChar(c) + e) == Some([c] + rest)
  {
  }

  lemma {:induction false} EscapeRoundTrip(s: string)
    requires ByteText(s)
    ensures QueryUnescape(QueryEscape(s)) == Some(s)
  {
    if s != "" {
      EscapeRoundTrip(s[1..]);
      EscapedCharPrepends(s[0], QueryEscape(s[1..]), s[1..]);
      assert s == [s[0]] + s[1..];
    }
  }

  /** Unescaping shortens a text to a third at most. */
  lemma {:induction false} UnescapedLength(s: string)
    ensures QueryUnescape(s).Some? ==> 3 * |QueryUnescape(s).value| >= |s|
  {
    if s != "" {
      if s[0] == '%' {
        if |s| >= 3 {
          UnescapedLength(s[3..]);
        }
      } else {
        UnescapedLength(s[1..]);
      }
    }
  }

  /** Whatever stands before it, a text behind '=' is still there after unescaping. */
  lemma {:induction false} UnescapedTail(a: string, s: string, t: string)
    requires QueryUnescape(s) == Some(t)
    ensures QueryUnescape(a + "=" + s).Some? ==> |QueryUnescape(a + "=" + s).value| > |t|
  {
    var all := a + "=" + s;
    if a == "" {
      assert all[1..] == s;
    } else if a[0] == '%' {
      if |a| >= 3 {
        assert all[3..] == a[3..] + "=" + s;
        UnescapedTail(a[3..], s, t);
      } else {
        assert all[|a|] == '=';
      }
    } else {
      assert all[1..] == a[1..] + "=" + s;
      UnescapedTail(a[1..], s, t);
    }
  }

  /** The value of the first `name` in the query of a URL, as `URL.Query().Get` finds it: the
      query lies between the first '?' and the fragment, and its pairs are separated by '&'. */
  function QueryParameter(url: string, name: string): Option<string> {
    var plain := match Cut(url, '#') case Some((p, _)) => p case None => url;
    match Cut(plain, '?')
    case None => None
    case Some((_, query)) => FirstValue(query, name)
  }

  function FirstValue(query: string, name: string): Option<string>
    decreases |query|
  {
    match Cut(query, '&')
    case None => PairValue(query, name)
    case Some((pair, more)) =>
      match PairValue(pair, name)
      case Some(v) => Some(v)
      case None => FirstValue(more, name)
  }

  /** A pair with a bare ';' is dropped, and so is one that does not unescape. */
  function PairValue(pair: string, name: string): Option<string> {
    if ';' in pair then None
    else
      match Cut(pair, '=')
      case Some((key, value)) => if QueryUnescape(key) == Some(name) then QueryUnescape(value) else None
      case None => if QueryUnescape(pair) == Some(name) then Some("") else None
  }

  /** The last pair of a query. */
  function WithValue(key: string, raw: string): string
    requires ByteText(raw)
  {
    key + "=" + QueryEscape(raw)
  }

  lemma PairRoundTrip(name: string, raw: string)
    requires ByteText(raw) && forall i :: 0 <= i < |name| ==> Unreserved(name[i])
    ensures PairValue(WithValue(name, raw), name) == Some(raw)
  {
    CutAtFirst(name, '=', QueryEscape(raw));
    PlainUnescapes(name);
    EscapeRoundTrip(raw);
  }

  lemma QueryRoundTrip(base: string, name: string, raw: string)
    requires ByteText(raw) && '?' !in base && '#' !in base
    requires forall i :: 0 <= i < |name| ==> Unreserved(name[i])
    ensures QueryParameter(base + "?" + WithValue(name, raw), name) == Some(raw)
  {
    var query := WithValue(name, raw);
    CutNowhere(base + "?" + query, '#');
    CutAtFirst(base, '?', query);
    CutNowhere(query, '&');
    PairRoundTrip(name, raw);
  }

  /** A key that may stand at the end of other query text. */
  predicate LongKey(key: string, name: string) {
    |key| > 3 * |name| && '=' !in key && '&' !in key && '#' !in key
  }

  lemma BuriedInValue(y: string, key: string, raw: string)
    requires ByteText(raw) && '=' in y
    ensures Cut(y + WithValue(key, raw), '=').Some?
    ensures QueryUnescape(Cut(y + WithValue(key, raw), '=').value.1) != Some(raw)
  {
    CutWithin(y, '=', WithValue(key, raw));
    var rest, escaped := Cut(y, '=').value.1, QueryEscape(raw);
    assert rest + WithValue(key, raw) == (rest + key) + "=" + escaped;
    EscapeRoundTrip(raw);
    UnescapedTail(rest + key, escaped, raw);
  }

  lemma BuriedInKey(y: string, key: string, name: string, raw: string)
    requires ByteText(raw) && '=' !in y && LongKey(key, name)
    ensures Cut(y + WithValue(key, raw), '=').Some?
    ensures QueryUnescape(Cut(y + WithValue(key, raw), '=').value.0) != Some(name)
  {
    assert y + WithValue(key, raw) == (y + key) + "=" + QueryEscape(raw);
    CutAtFirst(y + key, '=', QueryEscape(raw));
    UnescapedLength(y + key);
  }

  /** Behind other query text the appended pair never gives the value of `name`. */
  lemma BuriedPair(y: string, key: string, name: string, raw: string)
    requires ByteText(raw) && LongKey(key, name)
    ensures PairValue(y + WithValue(key, raw), name) != Some(raw)
  {
    if '=' in y {
      BuriedInValue(y, key, raw);
    } else {
      BuriedInKey(y, key, name, raw);
    }
  }

  /** So if it is found there at all, it is found whatever the appended value. */
  lemma {:induction false} BuriedQuery(y: string, key: string, name: string, raw: string, other: string)
    requires ByteText(raw) && ByteText(other) && LongKey(key, name)
    requires FirstValue(y + WithValue(key, raw), name) == Some(raw)
    ensures FirstValue(y + WithValue(key, other), name) == Some(raw)
    decreases |y|
  {
    if '&' in y {
      CutWithin(y, '&', WithValue(key, raw));
      CutWithin(y, '&', WithValue(key, other));
      var (pair, more) := Cut(y, '&').value;
      if PairValue(pair, name).None? {
        BuriedQuery(more, key, name, raw, other);
      }
    } else {
      CutNowhere(y + WithValue(key, raw), '&');
      BuriedPair(y, key, name, raw);
    }
  }

  /** The same for a whole URL: a '?' or '#' in front buries what is appended. */
  lemma BuriedParameter(base: string, key: string, name: string, raw: string, other: string)
    requires ByteText(raw) && ByteText(other) && LongKey(key, name) && ('?' in base || '#' in base)
    requires QueryParameter(base + WithValue(key, raw), name) == Some(raw)
    ensures QueryParameter(base + WithValue(key, other), name) == Some(raw)
  {
    var t, u := WithValue(key, raw), WithValue(key, other);
    if '#' in base {
      CutWithin(base, '#', t);
      CutWithin(base, '#', u);
    } else {
      CutNowhere(base + t, '#');
      CutNowhere(base + u, '#');
      CutWithin(base, '?', t);
      CutWithin(base, '?', u);
      BuriedQuery(Cut(base, '?').value.1, key, name, raw, other);
    }
  }

  // ---------------------------------------------------------------------------------------
  // Known texts
  // ---------------------------------------------------------------------------------------

  /** The test vectors of section 10 of RFC 4648, unpadded, and the two digits of its URL-safe alphabet. */
  lemma KnownBase64()
    ensures Base64([102]) == "Zg" && Base64([102, 111]) == "Zm8" && Base64([102, 111, 111]) == "Zm9v"
    ensures Base64([251, 255]) == "-_8"
  {
  }

  /** The 64 digits in their order. */
  lemma DigitIs(v: int)
    requires 0 <= v < 64
    ensures Digit(v) == if v < 26 then ('A' as int + v) as char
                        else if v < 52 then ('a' as int + v - 26) as char
                        else if v < 62 then ('0' as int + v - 52) as char
                        else "-_"[v - 62]
  {
  }

  lemma KnownHex(a: byte, b: byte)
    ensures Hex([0x0a, 0xf9]) == "0af9"
    ensures |Hex([a, b])| == 4 && Hex([a, b])[..2] == Hex([a]) && Hex([a, b])[2..] == Hex([b])
  {
  }

  /** A space, a byte beyond ASCII, and the characters that separate pairs. */
  lemma KnownEscapes()
    ensures EscapeChar(' ') == "+" && EscapeChar('&') == "%26" && EscapeChar('=') == "%3D" && EscapeChar('+') == "%2B"
    ensures EscapeChar('~') == "~" && EscapeChar('-') == "-" && EscapeChar('Z') == "Z" && EscapeChar(0xEB as char) == "%EB"
  {
  }

  /** Lower-case digits of the octets in their order, in groups of 8, 4, 4, 4 and 12. */
  lemma KnownUuidText(u: Uuid)
    ensures var s, d := UuidText(u), Hex(u);
            && s[..8] == d[..8] && s[8] == '-' && s[9..13] == d[8..12] && s[13] == '-' && s[14..18] == d[12..16]
            && s[18] == '-' && s[19..23] == d[16..20] && s[23] == '-' && s[24..] == d[20..]
  {
  }
}

/**
 * JSON string literals as Go's encoding/json writes them with json.Marshal
 * (HTML escaping on), and a reader for JSON string literals that undoes them.
 */
module JsonString {
  import opened Wrappers

  /** The lower-case hexadecimal digit for `d`. */
  function HexDigit(d: nat): (c: char)
    requires d < 16
    ensures HexValue(c) == Some(d)
  {
    if d < 10 then ('0' as int + d) as char else ('a' as int + d - 10) as char
  }

  /** The value of a hexadecimal digit of either case. */
  function HexValue(c: char): (r: Option<nat>)
    ensures r.Some? ==> r.value < 16
  {
    if '0' <= c <= '9' then Some(c as int - '0' as int)
    else if 'a' <= c <= 'f' then Some(c as int - 'a' as int + 10)
    else if 'A' <= c <= 'F' then Some(c as int - 'A' as int + 10)
    else None
  }

  /** `\uXXXX` for a code point of the Basic Multilingual Plane, lower-case digits. */
  function UnicodeEscape(n: nat): (r: string)
    requires n < 0x10000
    ensures |r| == 6 && r[..2] == "\\u"
  {
    "\\u" + [HexDigit(n / 0x1000), HexDigit(n / 0x100 % 16), HexDigit(n / 0x10 % 16), HexDigit(n % 16)]
  }

  /**
   * Characters the encoder must write as `\u00XX` or `\u202X`: the remaining
   * control characters, the HTML-sensitive `<`, `>`, `&`, and the two
   * JavaScript line terminators.
   */
  predicate NeedsUnicodeEscape(c: char) {
    c < ' ' || c == '<' || c == '>' || c == '&' || c as int == 0x2028 || c as int == 0x2029
  }

  /** Characters the encoder copies unchanged. */
  predicate Unescaped(c: char) {
    c != '"' && c != '\\' && !NeedsUnicodeEscape(c)
  }

  /** The encoding of one character inside a string literal. */
  function EscapeChar(c: char): (r: string)
    ensures 1 <= |r| <= 6
  {
    if c == '"' then "\\\""
    else if c == '\\' then "\\\\"
    else if c == '\n' then "\\n"
    else if c == '\r' then "\\r"
    else if c == '\t' then "\\t"
    else if c as int == 0x08 then "\\b"
    else if c as int == 0x0C then "\\f"
    else if NeedsUnicodeEscape(c) then UnicodeEscape(c as int)
    else [c]
  }

  /**
   * The body of a string literal (without the quotes): every character is
   * kept or replaced by an escape of at most six characters.
   */
  function Escape(s: string): (r: string)
    ensures |s| <= |r| <= 6 * |s|
  {
    if s == [] then [] else EscapeChar(s[0]) + Escape(s[1..])
  }

  /** A complete string literal: the escaped text between two quotes. */
  function Quote(s: string): (r: string)
    ensures |s| + 2 <= |r| <= 6 * |s| + 2
    ensures r[0] == '"' && r[|r| - 1] == '"'
  {
    "\"" + Escape(s) + "\""
  }

  /** The four hexadecimal digits of a `\uXXXX` escape. */
  function HexQuad(h: string): (r: Option<nat>)
    requires |h| == 4
    ensures r.Some? ==> r.value < 0x10000
  {
    var a :- HexValue(h[0]);
    var b :- HexValue(h[1]);
    var c :- HexValue(h[2]);
    var d :- HexValue(h[3]);
    Some(a * 0x1000 + b * 0x100 + c * 0x10 + d)
  }

  /** Whether `n` is a Unicode scalar value (a code point that is not a surrogate). */
  predicate IsScalar(n: int) {
    0 <= n < 0xD800 || 0xE000 <= n < 0x11_0000
  }

  /**
   * Reads one character of a string body, raw or escaped. A closing quote,
   * a raw control character, an unknown escape or a surrogate escape is
   * rejected.
   */
  function ReadChar(s: string): (r: Option<(char, string)>)
    ensures r.Some? ==> |r.value.1| < |s|
  {
    if |s| == 0 || s[0] == '"' || s[0] < ' ' then None
    else if s[0] != '\\' then Some((s[0], s[1..]))
    else if |s| < 2 then None
    else if s[1] == '"' || s[1] == '\\' || s[1] == '/' then Some((s[1], s[2..]))
    else if s[1] == 'b' then Some((0x08 as char, s[2..]))
    else if s[1] == 'f' then Some((0x0C as char, s[2..]))
    else if s[1] == 'n' then Some(('\n', s[2..]))
    else if s[1] == 'r' then Some(('\r', s[2..]))
    else if s[1] == 't' then Some(('\t', s[2..]))
    else if s[1] == 'u' && |s| >= 6 then
      var n :- HexQuad(s[2..6]);
      if IsScalar(n) then Some((n as char, s[6..])) else None
    else None
  }

  /** Reads a string body up to and including its closing quote. */
  function ReadBody(s: string): (r: Option<(string, string)>)
    ensures r.Some? ==> |r.value.1| < |s|
    decreases |s|
  {
    if |s| == 0 then None
    else if s[0] == '"' then Some(([], s[1..]))
    else
      var (c, tail) :- ReadChar(s);
      var (t, rest) :- ReadBody(tail);
      Some(([c] + t, rest))
  }

  /** Reads a complete string literal and returns its value and what follows it. */
  function ReadString(s: string): (r: Option<(string, string)>)
    ensures r.Some? ==> |r.value.1| < |s|
  {
    if |s| > 0 && s[0] == '"' then ReadBody(s[1..]) else None
  }

  /** The four digits of a base-16 expansion put back together. */
  lemma {:induction false} HexDigitsRecompose(n: nat)
    requires n < 0x10000
    ensures n / 0x1000 * 0x1000 + n / 0x100 % 16 * 0x100 + n / 0x10 % 16 * 0x10 + n % 16 == n
  {
    var q1, q2, q3 := n / 0x10, n / 0x100, n / 0x1000;
    assert q2 == q1 / 16;
    assert q3 == q2 / 16;
    assert n == q1 * 16 + n % 16;
    assert q1 == q2 * 16 + q1 % 16;
    assert q2 == q3 * 16 + q2 % 16;
  }

  /** A `\uXXXX` escape reads back as the code point it encodes. */
  lemma {:induction false} UnicodeEscapeRoundTrip(n: nat)
    requires n < 0x10000
    ensures HexQuad(UnicodeEscape(n)[2..6]) == Some(n)
  {
    HexDigitsRecompose(n);
  }

  /** Every escaped character reads back as itself and never starts with a quote. */
  lemma {:induction false} ReadEscapedChar(c: char, rest: string)
    ensures EscapeChar(c)[0] != '"'
    ensures ReadChar(EscapeChar(c) + rest) == Some((c, rest))
  {
    var e := EscapeChar(c);
    var s := e + rest;
    if c == '"' || c == '\\' || c == '\n' || c == '\r' || c == '\t' || c as int == 0x08 || c as int == 0x0C {
      assert s[0] == '\\' && s[2..] == rest;
    } else if NeedsUnicodeEscape(c) {
      UnicodeEscapeRoundTrip(c as int);
      assert s[0] == '\\' && s[1] == 'u';
      assert s[2..6] == e[2..6];
      assert s[6..] == rest;
    } else {
      assert s[0] == c && s[1..] == rest;
    }
  }

  /** An escaped body followed by a closing quote reads back as the original string. */
  lemma {:induction false} ReadBodyRoundTrip(s: string, rest: string)
    ensures ReadBody(Escape(s) + "\"" + rest) == Some((s, rest))
  {
    if s == [] {
      assert Escape(s) + "\"" + rest == "\"" + rest;
    } else {
      var tail := Escape(s[1..]) + "\"" + rest;
      assert Escape(s) + "\"" + rest == EscapeChar(s[0]) + tail;
      ReadEscapedChar(s[0], tail);
      ReadBodyRoundTrip(s[1..], rest);
      assert [s[0]] + s[1..] == s;
    }
  }

  /** A string that needs no escape is quoted by surrounding it with quotes. */
  lemma {:induction false} QuotePlain(s: string)
    requires AllUnescaped(s)
    ensures Quote(s) == "\"" + s + "\""
  {
    EscapePlain(s);
  }

  /** Reading a quoted string gives back the string and exactly what followed it. */
  lemma {:induction false} QuoteRoundTrip(s: string, rest: string)
    ensures ReadString(Quote(s) + rest) == Some((s, rest))
  {
    var t := Quote(s) + rest;
    assert t[1..] == Escape(s) + "\"" + rest;
    ReadBodyRoundTrip(s, rest);
  }

  /** Whether every character of `s` is copied unchanged by the encoder. */
  predicate AllUnescaped(s: string) {
    forall i | 0 <= i < |s| :: Unescaped(s[i])
  }

  /** A string made only of characters that need no escape is written as it is. */
  lemma {:induction false} EscapePlain(s: string)
    requires AllUnescaped(s)
    ensures Escape(s) == s
  {
    if s != [] {
      assert AllUnescaped(s[1..]) by {
        forall i | 0 <= i < |s[1..]| ensures Unescaped(s[1..][i]) {
          assert s[1..][i] == s[i + 1];
        }
      }
      EscapePlain(s[1..]);
      assert [s[0]] + s[1..] == s;
    }
  }

  /**
   * The encoder's output is safe to embed in HTML and in a JSON document:
   * it holds no `<`, `>`, `&` and no raw control character.
   */
  lemma {:induction false} EscapeHtmlSafe(s: string)
    ensures forall c | c in Escape(s) :: c != '<' && c != '>' && c != '&' && c >= ' '
  {
    if s != [] {
      EscapeHtmlSafe(s[1..]);
      var e := EscapeChar(s[0]);
      assert forall c | c in e :: c != '<' && c != '>' && c != '&' && c >= ' ' by {
        if NeedsUnicodeEscape(s[0]) && !(s[0] == '\n' || s[0] == '\r' || s[0] == '\t' || s[0] as int == 0x08 || s[0] as int == 0x0C) {
          var n := s[0] as int;
          assert e == "\\u" + [HexDigit(n / 0x1000), HexDigit(n / 0x100 % 16), HexDigit(n / 0x10 % 16), HexDigit(n % 16)];
        }
      }
    }
  }
}

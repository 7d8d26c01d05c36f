/**
 * Quoting an error message into the worker's failure payload
 * (go-worker/internal/queue/worker.go:61 and 72 build `{"error_message": %q}`).
 *
 * Go's `%q` verb writes a Go string literal, which is not always a JSON string: it spells
 * some control characters `\a`, `\v` or `\xNN`, escapes RFC 8259 section 7 does not have.
 * This module models `%q` as written (`GoQuote`, exact on ASCII text), which the worker
 * model writes, a JSON string reader, and the JSON quoting the payload needs (`JsonQuote`).
 */
module Quote {
  import opened Wrappers

  const Backspace: char := 8 as char
  const FormFeed: char := 12 as char
  const Bell: char := 7 as char
  const VerticalTab: char := 11 as char
  const Delete: char := 127 as char

  function HexDigit(n: nat): (c: char)
    requires n < 16
  {
    if n < 10 then ('0' as int + n) as char else ('a' as int + n - 10) as char
  }

  predicate IsHex(c: char) { '0' <= c <= '9' || 'a' <= c <= 'f' || 'A' <= c <= 'F' }

  function HexValue(c: char): (n: nat)
    requires IsHex(c)
    ensures n < 16
  {
    if '0' <= c <= '9' then c as int - '0' as int
    else if 'a' <= c <= 'f' then c as int - 'a' as int + 10
    else c as int - 'A' as int + 10
  }

  lemma HexRoundTrip(n: nat)
    requires n < 16
    ensures IsHex(HexDigit(n)) && HexValue(HexDigit(n)) == n
  {
  }

  /** The last `k` hexadecimal digits of `n`, lower case, most significant first. */
  function HexDigits(n: nat, k: nat): (s: string)
    ensures |s| == k
    decreases k
  {
    if k == 0 then "" else HexDigits(n / 16, k - 1) + [HexDigit(n % 16)]
  }

  // ---------------------------------------------------------------------------
  // Go's %q (strconv.Quote)
  // ---------------------------------------------------------------------------

  /**
   * Runes above U+FFFF that unicode.IsPrint rejects in every Unicode version: the tag block
   * (U+E0000-U+E007F, used by subdivision-flag emoji) and planes 15 and 16 (private use and
   * noncharacters).
   */
  predicate GoAstralNonPrintable(c: char)
  {
    (0xE0000 as char <= c <= 0xE007F as char) || 0xF0000 as char <= c
  }

  /**
   * How strconv.Quote writes one character. Of the non-ASCII runes, those of
   * `GoAstralNonPrintable` become `\U` and eight hex digits; the rest are kept as they are.
   */
  function GoEscape(c: char): string
  {
    if c == '"' then "\\\""
    else if c == '\\' then "\\\\"
    else if ' ' <= c < Delete then [c]
    else if c == Bell then "\\a"
    else if c == Backspace then "\\b"
    else if c == FormFeed then "\\f"
    else if c == '\n' then "\\n"
    else if c == '\r' then "\\r"
    else if c == '\t' then "\\t"
    else if c == VerticalTab then "\\v"
    else if c <= Delete then "\\x" + [HexDigit(c as int / 16), HexDigit(c as int % 16)]
    else if GoAstralNonPrintable(c) then "\\U" + HexDigits(c as nat, 8)
    else [c]
  }

  function GoEscapeAll(s: string): string
  {
    if s == [] then "" else GoEscape(s[0]) + GoEscapeAll(s[1..])
  }

  /** `%q` of a string, as the worker writes it into the failure payload. */
  function GoQuote(s: string): string
  {
    "\"" + GoEscapeAll(s) + "\""
  }

  // ---------------------------------------------------------------------------
  // JSON strings (RFC 8259 section 7)
  // ---------------------------------------------------------------------------

  /** The character a two-character escape stands for, if it is one of JSON's. */
  function ShortEscape(e: char): Option<char>
  {
    match e
    case '"' => Some('"')
    case '\\' => Some('\\')
    case '/' => Some('/')
    case 'b' => Some(Backspace)
    case 'f' => Some(FormFeed)
    case 'n' => Some('\n')
    case 'r' => Some('\r')
    case 't' => Some('\t')
    case _ => None
  }

  /** The text between the quotes of a JSON string: no bare quote, backslash or control character. */
  predicate WellFormedBody(t: string)
    decreases |t|
  {
    if t == [] then true
    else if t[0] == '"' || t[0] < ' ' then false
    else if t[0] != '\\' then WellFormedBody(t[1..])
    else if |t| >= 2 && ShortEscape(t[1]).Some? then WellFormedBody(t[2..])
    else |t| >= 6 && t[1] == 'u' && IsHex(t[2]) && IsHex(t[3]) && IsHex(t[4]) && IsHex(t[5]) && WellFormedBody(t[6..])
  }

  /** A complete JSON string literal. */
  predicate IsJsonString(t: string)
  {
    |t| >= 2 && t[0] == '"' && t[|t| - 1] == '"' && WellFormedBody(t[1..|t| - 1])
  }

  function Prepend(c: char, rest: Option<string>): Option<string>
  {
    if rest.None? then None else Some([c] + rest.value)
  }

  function FourHexValue(t: string): nat
    requires |t| >= 4 && IsHex(t[0]) && IsHex(t[1]) && IsHex(t[2]) && IsHex(t[3])
  {
    ((HexValue(t[0]) * 16 + HexValue(t[1])) * 16 + HexValue(t[2])) * 16 + HexValue(t[3])
  }

  /**
   * The characters a string body stands for. A `\u` escape of a surrogate half, which
   * only a pair can complete, is not read here.
   */
  function Unescape(t: string): (r: Option<string>)
    ensures r.Some? ==> WellFormedBody(t)
    decreases |t|
  {
    if t == [] then Some("")
    else if t[0] == '"' || t[0] < ' ' then None
    else if t[0] != '\\' then Prepend(t[0], Unescape(t[1..]))
    else if |t| >= 2 && ShortEscape(t[1]).Some? then Prepend(ShortEscape(t[1]).value, Unescape(t[2..]))
    else if |t| >= 6 && t[1] == 'u' && IsHex(t[2]) && IsHex(t[3]) && IsHex(t[4]) && IsHex(t[5]) then
      var v := FourHexValue(t[2..6]);
      if 0xD800 <= v < 0xE000 then None else Prepend(v as char, Unescape(t[6..]))
    else None
  }

  /** What a JSON string literal stands for. */
  function Unquote(t: string): Option<string>
  {
    if |t| >= 2 && t[0] == '"' && t[|t| - 1] == '"' then Unescape(t[1..|t| - 1]) else None
  }

  /** JSON's escaping of one character: the short escapes where JSON has them, else `\u00XX`. */
  function JsonEscape(c: char): string
  {
    if c == '"' then "\\\""
    else if c == '\\' then "\\\\"
    else if c == Backspace then "\\b"
    else if c == FormFeed then "\\f"
    else if c == '\n' then "\\n"
    else if c == '\r' then "\\r"
    else if c == '\t' then "\\t"
    else if c < ' ' then "\\u00" + [HexDigit(c as int / 16), HexDigit(c as int % 16)]
    else [c]
  }

  function JsonEscapeAll(s: string): string
  {
    if s == [] then "" else JsonEscape(s[0]) + JsonEscapeAll(s[1..])
  }

  /** A JSON string literal for `s`. */
  function JsonQuote(s: string): string
  {
    "\"" + JsonEscapeAll(s) + "\""
  }

  lemma {:induction false} UnescapeOneEscape(c: char, rest: string)
    ensures Unescape(JsonEscape(c) + rest) == Prepend(c, Unescape(rest))
  {
    var e := JsonEscape(c);
    var t := e + rest;
    if c == '"' || c == '\\' || c == Backspace || c == FormFeed || c == '\n' || c == '\r' || c == '\t' {
      assert t[0] == '\\' && t[2..] == rest;
    } else if c < ' ' {
      var hi, lo := c as int / 16, c as int % 16;
      HexRoundTrip(hi);
      HexRoundTrip(lo);
      assert t[..6] == e;
      assert t[6..] == rest;
      assert t[2..6] == ['0', '0', HexDigit(hi), HexDigit(lo)];
      assert FourHexValue(t[2..6]) == c as int;
    } else {
      assert t[0] == c && t[1..] == rest;
    }
  }

  /** Reading the JSON-escaped text back gives the original characters. */
  lemma {:induction false} UnescapeInvertsEscape(s: string)
    ensures Unescape(JsonEscapeAll(s)) == Some(s)
    decreases |s|
  {
    if s != [] {
      UnescapeOneEscape(s[0], JsonEscapeAll(s[1..]));
      UnescapeInvertsEscape(s[1..]);
      assert [s[0]] + s[1..] == s;
    }
  }

  /** Every string has a JSON literal, and reading it back gives the string. */
  lemma JsonQuoteRoundTrip(s: string)
    ensures IsJsonString(JsonQuote(s))
    ensures Unquote(JsonQuote(s)) == Some(s)
  {
    var q := JsonQuote(s);
    assert q[1..|q| - 1] == JsonEscapeAll(s);
    UnescapeInvertsEscape(s);
  }

  /** `%q` of a one-character message holding BEL is `"\a"`, which is not a JSON string. */
  lemma GoQuoteNotJson()
    ensures GoQuote([Bell]) == "\"\\a\""
    ensures !IsJsonString(GoQuote([Bell]))
  {
    var q := GoQuote([Bell]);
    assert GoEscapeAll([Bell]) == "\\a";
    assert q[1..|q| - 1] == "\\a";
  }

  /**
   * `%q` of a one-character message holding the tag letter U+E0067 (part of the Scotland
   * flag emoji) is `"\U000e0067"`, which is not a JSON string either.
   */
  lemma GoQuoteTagNotJson()
    ensures GoQuote([TagG]) == "\"\\U000e0067\""
    ensures !IsJsonString(GoQuote([TagG]))
  {
    TagHexDigits();
    assert GoAstralNonPrintable(TagG) && Delete < TagG;
    var e := GoEscape(TagG);
    assert e == "\\U000e0067";
    assert GoEscapeAll([TagG]) == e;
    var u := GoQuote([TagG]);
    assert u[1..|u| - 1] == e;
    assert e[0] == '\\' && e[1] == 'U' && ShortEscape('U').None?;
  }

  lemma TagHexDigits()
    ensures HexDigits(TagG as nat, 8) == "000e0067"
  {
    assert HexDigits(0, 3) == "000";
    assert HexDigits(0xE, 4) == "000e";
    assert HexDigits(0xE0, 5) == "000e0";
    assert HexDigits(0xE00, 6) == "000e00";
    assert HexDigits(0xE006, 7) == "000e006";
  }

  /** TAG LATIN SMALL LETTER G. */
  const TagG: char := 0xE0067 as char

  /**
   * The characters on which `%q` and JSON quoting may disagree: controls without a JSON short
   * escape, DEL, and every rune above U+FFFF (`%q` writes the non-printable ones as `\U`
   * escapes, which JSON does not have).
   */
  predicate GoOnlyEscape(c: char)
  {
    (c < ' ' && c != Backspace && c != FormFeed && c != '\n' && c != '\r' && c != '\t') || c == Delete
    || c > 0xFFFF as char
  }

  lemma {:induction false} EscapesAgree(s: string)
    requires forall i :: 0 <= i < |s| ==> !GoOnlyEscape(s[i])
    ensures GoEscapeAll(s) == JsonEscapeAll(s)
    decreases |s|
  {
    if s != [] {
      EscapesAgree(s[1..]);
      assert GoEscape(s[0]) == JsonEscape(s[0]);
    }
  }

  /** On every message free of those characters, `%q` already writes the JSON literal. */
  lemma QuotesAgree(s: string)
    requires forall i :: 0 <= i < |s| ==> !GoOnlyEscape(s[i])
    ensures GoQuote(s) == JsonQuote(s)
  {
    EscapesAgree(s);
  }
}

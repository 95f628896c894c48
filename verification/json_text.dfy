/**
 * `JSON.stringify` of a string: the text between the quotes escapes the quotation mark,
 * the backslash and the control characters below U+0020, with the short forms where JSON
 * has one and `\u00xx` (lower-case hex) otherwise. `Unescape` reads such text back.
 */
module JsonText {
  import opened Wrappers

  const Backspace: char := 8 as char
  const FormFeed: char := 12 as char

  function HexDigit(d: nat): char
    requires d < 16
  {
    if d < 10 then ('0' as int + d) as char else ('a' as int + d - 10) as char
  }

  function HexValue(c: char): Option<nat> {
    if '0' <= c <= '9' then Some(c as int - '0' as int)
    else if 'a' <= c <= 'f' then Some(c as int - 'a' as int + 10)
    else if 'A' <= c <= 'F' then Some(c as int - 'A' as int + 10)
    else None
  }

  /** The escape of one character. */
  function EscapeChar(c: char): (r: string)
    ensures |r| >= 1
  {
    if c == '"' then "\\\""
    else if c == '\\' then "\\\\"
    else if c == Backspace then "\\b"
    else if c == '\t' then "\\t"
    else if c == '\n' then "\\n"
    else if c == FormFeed then "\\f"
    else if c == '\r' then "\\r"
    else if (c as int) < 0x20 then "\\u00" + [HexDigit(c as int / 16), HexDigit(c as int % 16)]
    else [c]
  }

  function Escape(s: string): string
    decreases |s|
  {
    if s == [] then "" else EscapeChar(s[0]) + Escape(s[1..])
  }

  /** `JSON.stringify(s)` for a string `s`. */
  function Quote(s: string): string {
    "\"" + Escape(s) + "\""
  }

  function Prepend(c: char, rest: Option<string>): (r: Option<string>)
    ensures r.Some? <==> rest.Some?
  {
    if rest.Some? then Some([c] + rest.value) else None
  }

  /** The character a four-digit `\u` escape stands for, if it is a scalar value. */
  function CodeUnit(h: string): Option<char>
    requires |h| == 4
  {
    var a, b, c, d := HexValue(h[0]), HexValue(h[1]), HexValue(h[2]), HexValue(h[3]);
    if a.None? || b.None? || c.None? || d.None? then None
    else
      var v := ((a.value * 16 + b.value) * 16 + c.value) * 16 + d.value;
      if v < 0xD800 || 0xE000 <= v < 0x11_0000 then Some(v as char) else None
  }

  /**
   * The characters a JSON string body stands for; `None` for a raw quotation mark, a raw
   * control character, or a malformed escape.
   */
  function Unescape(s: string): Option<string>
    decreases |s|
  {
    if s == [] then Some([])
    else if s[0] == '\\' then
      if |s| < 2 then None
      else
        var e := s[1];
        if e == '"' || e == '\\' || e == '/' then Prepend(e, Unescape(s[2..]))
        else if e == 'b' then Prepend(Backspace, Unescape(s[2..]))
        else if e == 't' then Prepend('\t', Unescape(s[2..]))
        else if e == 'n' then Prepend('\n', Unescape(s[2..]))
        else if e == 'f' then Prepend(FormFeed, Unescape(s[2..]))
        else if e == 'r' then Prepend('\r', Unescape(s[2..]))
        else if e == 'u' && |s| >= 6 then
          var u := CodeUnit(s[2..6]);
          if u.Some? then Prepend(u.value, Unescape(s[6..])) else None
        else None
    else if s[0] == '"' || (s[0] as int) < 0x20 then None
    else Prepend(s[0], Unescape(s[1..]))
  }

  /** Reading back one escaped character. */
  lemma UnescapeChar(c: char, rest: string)
    ensures Unescape(EscapeChar(c) + rest) == Prepend(c, Unescape(rest))
  {
    var t := EscapeChar(c) + rest;
    if (c as int) < 0x20 && c != Backspace && c != '\t' && c != '\n' && c != FormFeed && c != '\r' {
      var hi, lo := c as int / 16, c as int % 16;
      assert t[..6] == ['\\', 'u', '0', '0', HexDigit(hi), HexDigit(lo)];
      assert t[2..6] == ['0', '0', HexDigit(hi), HexDigit(lo)];
      assert HexValue(HexDigit(hi)) == Some(hi);
      assert HexValue(HexDigit(lo)) == Some(lo);
      assert CodeUnit(t[2..6]) == Some(c);
      assert t[6..] == rest;
    } else if |EscapeChar(c)| == 2 {
      assert t[2..] == rest;
    } else {
      assert t[1..] == rest;
    }
  }

  /** `Unescape` inverts `Escape`: the text a string is written as reads back as that string. */
  lemma {:induction false} EscapeRoundTrip(s: string)
    ensures Unescape(Escape(s)) == Some(s)
    decreases |s|
  {
    if s != [] {
      EscapeRoundTrip(s[1..]);
      UnescapeChar(s[0], Escape(s[1..]));
      assert [s[0]] + s[1..] == s;
    }
  }
}

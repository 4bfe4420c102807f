/** The JSON text the handler writes: `JSON.stringify` of a string (the
    QuoteJSONString operation of ECMA-262), the `{"error": msg}` body of a
    rejection and the fixed `{"ok":true}` body of an acknowledgement, together
    with a reader that recovers the message from an error body. */
module JsonText {
  import opened Wrappers

  /** The body written on success (handler.js:66). */
  const OkBody: string := "{\"ok\":true}"

  /** What `JSON.stringify({ error: msg })` writes before the quoted message. */
  const ErrorPrefix: string := "{\"error\":"

  /** The value of a hexadecimal digit in either case. */
  function HexValue(c: char): (r: Option<nat>)
    ensures r.Some? ==> r.value < 16
  {
    if '0' <= c <= '9' then Some(c as int - '0' as int)
    else if 'a' <= c <= 'f' then Some(c as int - 'a' as int + 10)
    else if 'A' <= c <= 'F' then Some(c as int - 'A' as int + 10)
    else None
  }

  /** The lower-case digit `JSON.stringify` writes for `d`. */
  function HexDigit(d: nat): (c: char)
    requires d < 16
    ensures HexValue(c) == Some(d)
  {
    if d < 10 then ('0' as int + d) as char else ('a' as int + d - 10) as char
  }

  /** The value of four hexadecimal digits, as in a `\uXXXX` escape. */
  function Hex4(a: char, b: char, c: char, d: char): (r: Option<nat>)
    ensures r.Some? ==> r.value < 0x1_0000
  {
    match (HexValue(a), HexValue(b), HexValue(c), HexValue(d))
    case (Some(w), Some(x), Some(y), Some(z)) => Some(((w * 16 + x) * 16 + y) * 16 + z)
    case _ => None
  }

  /** How `JSON.stringify` writes one character inside a string literal. */
  function EscapeChar(c: char): string
  {
    var n := c as int;
    if c == '"' then ['\\', '"']
    else if c == '\\' then ['\\', '\\']
    else if n == 0x08 then ['\\', 'b']
    else if n == 0x09 then ['\\', 't']
    else if n == 0x0A then ['\\', 'n']
    else if n == 0x0C then ['\\', 'f']
    else if n == 0x0D then ['\\', 'r']
    else if n < 0x20 then ['\\', 'u', '0', '0', HexDigit(n / 16), HexDigit(n % 16)]
    else [c]
  }

  /** The characters between the quotes of `JSON.stringify(s)`. */
  function Escape(s: string): string
  {
    if s == [] then [] else EscapeChar(s[0]) + Escape(s[1..])
  }

  /** `JSON.stringify(s)` for a string `s`. */
  function Quote(s: string): string
  {
    ['"'] + Escape(s) + ['"']
  }

  /** `JSON.stringify({ error: msg })` (handler.js:32). */
  function ErrorBody(msg: string): string
  {
    ErrorPrefix + Quote(msg) + ['}']
  }

  /** The character a two-character escape `\e` stands for. */
  function SimpleUnescape(e: char): Option<char>
  {
    if e == '"' then Some('"')
    else if e == '\\' then Some('\\')
    else if e == '/' then Some('/')
    else if e == 'b' then Some(0x08 as char)
    else if e == 't' then Some(0x09 as char)
    else if e == 'n' then Some(0x0A as char)
    else if e == 'f' then Some(0x0C as char)
    else if e == 'r' then Some(0x0D as char)
    else None
  }

  function Prepend(c: char, r: Option<string>): Option<string>
  {
    match r
    case None => None
    case Some(s) => Some([c] + s)
  }

  /** The string denoted by the characters between the quotes of a JSON
      string literal, or None when they are not well formed. */
  function Unescape(t: string): Option<string>
    decreases |t|
  {
    if |t| == 0 then Some([])
    else if t[0] == '\\' then
      if |t| < 2 then None
      else if t[1] == 'u' then
        if |t| < 6 then None
        else match Hex4(t[2], t[3], t[4], t[5])
          case None => None
          case Some(n) =>
            if n < 0xD800 || 0xE000 <= n then Prepend(n as char, Unescape(t[6..])) else None
      else match SimpleUnescape(t[1])
        case None => None
        case Some(c) => Prepend(c, Unescape(t[2..]))
    else if t[0] == '"' || t[0] as int < 0x20 then None
    else Prepend(t[0], Unescape(t[1..]))
  }

  /** The message of an error body, or None when `body` is not one. */
  function ReadErrorBody(body: string): Option<string>
  {
    var k := |ErrorPrefix| + 1;
    if |body| < k + 2 || body[..k] != ErrorPrefix + ['"'] || body[|body| - 2..] != ['"', '}'] then None
    else Unescape(body[k..|body| - 2])
  }

  /** Reading back one escaped character consumes exactly its escape. */
  lemma UnescapeEscapeChar(c: char, rest: string)
    ensures Unescape(EscapeChar(c) + rest) == Prepend(c, Unescape(rest))
  {
    var n := c as int;
    var t := EscapeChar(c) + rest;
    if c == '"' || c == '\\' || n == 0x08 || n == 0x09 || n == 0x0A || n == 0x0C || n == 0x0D {
      assert t[2..] == rest;
    } else if n < 0x20 {
      assert t[2..6] == ['0', '0', HexDigit(n / 16), HexDigit(n % 16)];
      assert Hex4(t[2], t[3], t[4], t[5]) == Some(n);
      assert t[6..] == rest;
    } else {
      assert t[1..] == rest;
    }
  }

  /** Quoting is reversible: the reader recovers every string exactly. */
  lemma {:induction false} UnescapeEscape(s: string)
    ensures Unescape(Escape(s)) == Some(s)
  {
    if s != [] {
      UnescapeEscapeChar(s[0], Escape(s[1..]));
      UnescapeEscape(s[1..]);
      assert [s[0]] + s[1..] == s;
    }
  }

  /** The error body carries its message: reading it back gives the message. */
  lemma ErrorBodyRoundTrip(msg: string)
    ensures ReadErrorBody(ErrorBody(msg)) == Some(msg)
  {
    var body := ErrorBody(msg);
    var k := |ErrorPrefix| + 1;
    assert body == (ErrorPrefix + ['"']) + Escape(msg) + ['"', '}'];
    assert body[..k] == ErrorPrefix + ['"'];
    assert body[|body| - 2..] == ['"', '}'];
    assert body[k..|body| - 2] == Escape(msg);
    UnescapeEscape(msg);
  }

  /** Distinct messages give distinct error bodies. */
  lemma ErrorBodyInjective(a: string, b: string)
    ensures ErrorBody(a) == ErrorBody(b) ==> a == b
  {
    ErrorBodyRoundTrip(a);
    ErrorBodyRoundTrip(b);
  }

  /** No error body is the acknowledgement body. */
  lemma ErrorBodyIsNotOkBody(msg: string)
    ensures ReadErrorBody(OkBody) == None
    ensures ErrorBody(msg) != OkBody
  {
    assert OkBody[..|ErrorPrefix| + 1] != ErrorPrefix + ['"'] by {
      assert OkBody[2] == 'o';
      assert (ErrorPrefix + ['"'])[2] == 'e';
    }
    ErrorBodyRoundTrip(msg);
  }
}

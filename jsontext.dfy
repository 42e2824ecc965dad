/** JSON string literals as text: the escaping the serialiser applies to every string it
    writes, and a reader that undoes it. */
module JsonText {
  import opened Wrappers

  const HEX_DIGITS := "0123456789abcdef"
  const BACKSPACE: char := 8 as char
  const FORM_FEED: char := 12 as char

  /** The lowercase hex digit for `d`, as a character of the JSON text. `Colors.HexDigit` is
      the same digit as a UTF-8 byte: colour text is sliced by byte there, while the text here
      is a string of characters, so each module keeps the form its text has. */
  function HexChar(d: int): char
    requires 0 <= d < 16
  {
    HEX_DIGITS[d]
  }

  predicate IsHexChar(c: char) {
    ('0' <= c <= '9') || ('a' <= c <= 'f') || ('A' <= c <= 'F')
  }

  function HexCharValue(c: char): (d: int)
    requires IsHexChar(c)
    ensures 0 <= d < 16
  {
    if '0' <= c <= '9' then c as int - '0' as int
    else if 'a' <= c <= 'f' then c as int - 'a' as int + 10
    else c as int - 'A' as int + 10
  }

  lemma HexCharInverse(d: int)
    requires 0 <= d < 16
    ensures IsHexChar(HexChar(d)) && HexCharValue(HexChar(d)) == d
  {
  }

  /** How one character is written inside a string literal: the quote and the backslash are
      escaped, control characters with a short escape where JSON has one and as `\u00XX`
      otherwise, and every other character as itself. */
  function EscapeChar(c: char): string {
    if c == '"' then "\\\""
    else if c == '\\' then "\\\\"
    else if c == BACKSPACE then "\\b"
    else if c == '\t' then "\\t"
    else if c == '\n' then "\\n"
    else if c == FORM_FEED then "\\f"
    else if c == '\r' then "\\r"
    else if (c as int) < 0x20 then "\\u00" + [HexChar(c as int / 16), HexChar(c as int % 16)]
    else [c]
  }

  /** The body of the string literal for `s` (without the surrounding quotes). */
  function Escape(s: string): string
    decreases |s|
  {
    if s == [] then [] else EscapeChar(s[0]) + Escape(s[1..])
  }

  /** The literal for `s`, quotes included. */
  function Quote(s: string): string {
    "\"" + Escape(s) + "\""
  }

  /** The character a one-letter escape stands for. */
  function ShortEscape(e: char): Option<char> {
    match e
    case '"' => Some('"')
    case '\\' => Some('\\')
    case '/' => Some('/')
    case 'b' => Some(BACKSPACE)
    case 't' => Some('\t')
    case 'n' => Some('\n')
    case 'f' => Some(FORM_FEED)
    case 'r' => Some('\r')
    case _ => None
  }

  function Prepend(c: char, r: Option<(string, string)>): Option<(string, string)> {
    if r.Some? then Some(([c] + r.value.0, r.value.1)) else None
  }

  /** Reads a string literal body up to its closing quote: the characters it denotes and
      the text after the quote. Raw control characters, unknown escapes and escaped
      surrogates are refused. */
  function ReadString(t: string): Option<(string, string)>
    decreases |t|
  {
    if t == [] then None
    else if t[0] == '"' then Some(([], t[1..]))
    else if t[0] == '\\' then
      if |t| < 2 then None
      else if t[1] == 'u' then
        if |t| < 6 || !(IsHexChar(t[2]) && IsHexChar(t[3]) && IsHexChar(t[4]) && IsHexChar(t[5])) then None
        else
          var v := ((HexCharValue(t[2]) * 16 + HexCharValue(t[3])) * 16 + HexCharValue(t[4])) * 16 + HexCharValue(t[5]);
          if 0xD800 <= v < 0xE000 then None else Prepend(v as char, ReadString(t[6..]))
      else match ShortEscape(t[1])
        case Some(c) => Prepend(c, ReadString(t[2..]))
        case None => None
    else if (t[0] as int) < 0x20 then None
    else Prepend(t[0], ReadString(t[1..]))
  }

  /** Characters with a one-letter escape. */
  predicate HasShortEscape(c: char) {
    c == '"' || c == '\\' || c == BACKSPACE || c == '\t' || c == '\n' || c == FORM_FEED || c == '\r'
  }

  lemma ReadShortEscape(c: char, t: string)
    requires HasShortEscape(c)
    ensures ReadString(EscapeChar(c) + t) == Prepend(c, ReadString(t))
  {
    var w := EscapeChar(c) + t;
    assert |EscapeChar(c)| == 2 && EscapeChar(c)[0] == '\\';
    assert w[0] == '\\' && w[1] == EscapeChar(c)[1] && w[1] != 'u';
    assert ShortEscape(w[1]) == Some(c);
    assert w[2..] == t;
  }

  lemma ReadUnicodeEscape(c: char, t: string)
    requires !HasShortEscape(c) && (c as int) < 0x20
    ensures ReadString(EscapeChar(c) + t) == Prepend(c, ReadString(t))
  {
    var hi := c as int / 16;
    var lo := c as int % 16;
    HexCharInverse(hi);
    HexCharInverse(lo);
    var w := EscapeChar(c) + t;
    assert EscapeChar(c) == ['\\', 'u', '0', '0', HexChar(hi), HexChar(lo)];
    assert w[0] == '\\' && w[1] == 'u' && w[2] == '0' && w[3] == '0';
    assert w[4] == HexChar(hi) && w[5] == HexChar(lo);
    assert w[6..] == t;
    assert ((HexCharValue(w[2]) * 16 + HexCharValue(w[3])) * 16 + HexCharValue(w[4])) * 16 + HexCharValue(w[5])
      == c as int;
  }

  /** The reader takes back exactly one escaped character. */
  lemma ReadEscapedChar(c: char, t: string)
    ensures ReadString(EscapeChar(c) + t) == Prepend(c, ReadString(t))
  {
    if HasShortEscape(c) {
      ReadShortEscape(c, t);
    } else if (c as int) < 0x20 {
      ReadUnicodeEscape(c, t);
    } else {
      var w := EscapeChar(c) + t;
      assert EscapeChar(c) == [c];
      assert w[1..] == t;
    }
  }

  /** Reading back an escaped string up to its closing quote gives the string and leaves the
      rest of the text untouched. */
  lemma {:induction false} ReadEscape(s: string, rest: string)
    ensures ReadString(Escape(s) + "\"" + rest) == Some((s, rest))
    decreases |s|
  {
    if s == [] {
      assert Escape(s) + "\"" + rest == "\"" + rest;
      assert ("\"" + rest)[1..] == rest;
    } else {
      ReadEscape(s[1..], rest);
      assert Escape(s) + "\"" + rest == EscapeChar(s[0]) + (Escape(s[1..]) + "\"" + rest);
      ReadEscapedChar(s[0], Escape(s[1..]) + "\"" + rest);
      assert [s[0]] + s[1..] == s;
    }
  }

  /** Characters written as themselves. */
  predicate IsPlain(c: char) {
    c != '"' && c != '\\' && (c as int) >= 0x20
  }

  /** Text without quotes, backslashes or control characters is written verbatim. */
  lemma {:induction false} EscapePlain(s: string)
    requires forall k :: 0 <= k < |s| ==> IsPlain(s[k])
    ensures Escape(s) == s
    decreases |s|
  {
    if s != [] {
      assert forall k :: 0 <= k < |s[1..]| ==> s[1..][k] == s[k + 1];
      EscapePlain(s[1..]);
      assert EscapeChar(s[0]) == [s[0]];
      assert [s[0]] + s[1..] == s;
    }
  }

  lemma EscapeExamples()
    ensures Escape("a\"b") == "a\\\"b"
    ensures Escape("\n") == "\\n"
  {
  }
}

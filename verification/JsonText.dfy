/** JSON strings: the server's hand-written escaper and the string grammar of section 7 of RFC 8259.
    A char stands for one byte (or one code point); the results hold for every string. */
module JsonText {
  import opened Wrappers

  // ---------- writing ----------

  function HexChar(n: nat): char
    requires n < 16
  {
    "0123456789abcdef"[n]
  }

  function EscapeChar(c: char): (text: string) {
    if c == '"' then "\\\""
    else if c == '\\' then "\\\\"
    else if c == 8 as char then "\\b"
    else if c == 12 as char then "\\f"
    else if c == '\n' then "\\n"
    else if c == '\r' then "\\r"
    else if c == '\t' then "\\t"
    else if c as int < 0x20 then "\\u00" + [HexChar(c as int / 16), HexChar(c as int % 16)]
    else [c]
  }

  function Escaped(s: string): string {
    if s == [] then [] else EscapeChar(s[0]) + Escaped(s[1..])
  }

  /** One pass of the escaper's loop. */
  method AppendEscapedChar(out: string, c: char) returns (result: string)
    ensures result == out + EscapeChar(c)
  {
    result := out;
    match c {
      case '\"' => result := result + "\\\"";
      case '\\' => result := result + "\\\\";
      case '\n' => result := result + "\\n";
      case '\r' => result := result + "\\r";
      case '\t' => result := result + "\\t";
      case _ =>
        if c == 8 as char {
          result := result + "\\b";
        } else if c == 12 as char {
          result := result + "\\f";
        } else if c as int < 0x20 {
          result := result + "\\u00";
          result := result + [HexChar(c as int / 16)];
          result := result + [HexChar(c as int % 16)];
        } else {
          result := result + [c];
        }
    }
  }

  /** The escaper, character by character onto the end of the output. */
  method AppendJsonEscaped(out: string, sv: string) returns (result: string)
    ensures result == out + Escaped(sv)
  {
    result := out;
    for i := 0 to |sv|
      invariant result == out + Escaped(sv[..i])
    {
      hide *;
      EscapedStep(out, sv, i);
      result := AppendEscapedChar(result, sv[i]);
    }
    assert sv[..|sv|] == sv;
  }

  lemma EscapedStep(out: string, sv: string, i: nat)
    requires i < |sv|
    ensures out + Escaped(sv[..i]) + EscapeChar(sv[i]) == out + Escaped(sv[..i + 1])
  {
    EscapedSnoc(sv[..i], sv[i]);
    assert sv[..i + 1] == sv[..i] + [sv[i]];
    hide *;
    assert out + Escaped(sv[..i]) + EscapeChar(sv[i]) == out + (Escaped(sv[..i]) + EscapeChar(sv[i]));
  }

  lemma {:induction false} EscapedSnoc(s: string, c: char)
    ensures Escaped(s + [c]) == Escaped(s) + EscapeChar(c)
  {
    hide EscapeChar;
    if s == [] {
      assert Escaped([c]) == EscapeChar(c) + Escaped([]);
    } else {
      EscapedSnoc(s[1..], c);
      assert (s + [c])[1..] == s[1..] + [c];
    }
  }

  // ---------- reading ----------

  function HexValue(c: char): (value: Option<nat>)
    ensures value.Some? ==> value.value < 16
  {
    if '0' <= c <= '9' then Some(c as int - '0' as int)
    else if 'a' <= c <= 'f' then Some(c as int - 'a' as int + 10)
    else if 'A' <= c <= 'F' then Some(c as int - 'A' as int + 10)
    else None
  }

  /** The code unit written by four hexadecimal digits. */
  function CodeUnit(s: string): (unit: Option<nat>)
    ensures unit.Some? ==> |s| >= 4 && unit.value < 0x10000
  {
    if |s| < 4 then None else
      match (HexValue(s[0]), HexValue(s[1]), HexValue(s[2]), HexValue(s[3]))
      case (Some(a), Some(b), Some(c), Some(d)) => Some(((a * 16 + b) * 16 + c) * 16 + d)
      case _ => None
  }

  /** The character behind a "\u": a single code unit, or a surrogate pair. */
  function ReadUnicode(s: string): (r: Option<(char, string)>)
    ensures r.Some? ==> |r.value.1| < |s|
  {
    match CodeUnit(s)
    case None => None
    case Some(unit) =>
      if unit < 0xD800 || 0xE000 <= unit then Some((unit as char, s[4..]))
      else if unit < 0xDC00 && |s| >= 6 && s[4] == '\\' && s[5] == 'u' then
        match CodeUnit(s[6..])
        case Some(low) =>
          if 0xDC00 <= low < 0xE000 then
            Some(((0x10000 + (unit - 0xD800) * 0x400 + (low - 0xDC00)) as char, s[10..]))
          else None
        case None => None
      else None
  }

  /** The character behind a backslash. */
  function ReadEscape(s: string): (r: Option<(char, string)>)
    ensures r.Some? ==> |r.value.1| < |s|
  {
    if s == [] then None
    else match s[0]
      case '\"' => Some(('\"', s[1..]))
      case '\\' => Some(('\\', s[1..]))
      case '/' => Some(('/', s[1..]))
      case 'b' => Some((8 as char, s[1..]))
      case 'f' => Some((12 as char, s[1..]))
      case 'n' => Some(('\n', s[1..]))
      case 'r' => Some(('\r', s[1..]))
      case 't' => Some(('\t', s[1..]))
      case 'u' => ReadUnicode(s[1..])
      case _ => None
  }

  /** One character of a string body: unescaped, or an escape sequence. */
  function ReadChar(s: string): (r: Option<(char, string)>)
    requires s != [] && s[0] != '"'
    ensures r.Some? ==> |r.value.1| < |s|
  {
    if s[0] as int < 0x20 then None
    else if s[0] == '\\' then ReadEscape(s[1..])
    else Some((s[0], s[1..]))
  }

  /** Reads a string body up to its closing quote: the contents, and what follows the quote. */
  function ReadString(s: string): (r: Option<(string, string)>)
    ensures r.Some? ==> |r.value.1| < |s|
    decreases |s|
  {
    if s == [] then None
    else if s[0] == '"' then Some(("", s[1..]))
    else match ReadChar(s)
      case None => None
      case Some((c, rest)) =>
        match ReadString(rest)
        case None => None
        case Some((text, rest')) => Some(([c] + text, rest'))
  }

  // ---------- the writer and the reader agree ----------

  lemma ReadLongEscape(c: char, rest: string)
    requires |EscapeChar(c)| > 2
    ensures ReadChar(EscapeChar(c) + rest) == Some((c, rest))
  {
    var text := EscapeChar(c) + rest;
    var digits := text[1..][1..];
    assert text[0] == '\\' && text[1..][0] == 'u';
    assert digits == "00" + [HexChar(c as int / 16), HexChar(c as int % 16)] + rest;
    ReadControl(c, digits, rest);
    hide EscapeChar, ReadUnicode;
  }

  /** Four digits of a control character. */
  lemma ReadControl(c: char, digits: string, rest: string)
    requires c as int < 0x20 && digits == "00" + [HexChar(c as int / 16), HexChar(c as int % 16)] + rest
    ensures ReadUnicode(digits) == Some((c, rest))
  {
    assert digits[4..] == rest;
    assert CodeUnit(digits) == Some(c as int);
  }

  lemma ReadCharOfEscape(c: char, rest: string)
    ensures EscapeChar(c) != [] && EscapeChar(c)[0] != '"'
    ensures ReadChar(EscapeChar(c) + rest) == Some((c, rest))
  {
    var text := EscapeChar(c) + rest;
    if |EscapeChar(c)| == 1 {
      assert text[1..] == rest;
      hide ReadUnicode;
    } else if |EscapeChar(c)| == 2 {
      assert text[1..][1..] == rest;
      hide ReadUnicode;
    } else {
      ReadLongEscape(c, rest);
      hide ReadChar, ReadUnicode;
    }
  }

  /** Whatever follows it, an escaped string and its closing quote read back as the original. */
  lemma {:induction false} ReadStringOfEscaped(s: string, rest: string)
    ensures ReadString(Escaped(s) + "\"" + rest) == Some((s, rest))
  {
    var text := Escaped(s) + "\"" + rest;
    if s == [] {
      assert text == "\"" + rest;
      assert text[1..] == rest;
    } else {
      var tail := Escaped(s[1..]) + "\"" + rest;
      assert text == EscapeChar(s[0]) + tail;
      ReadCharOfEscape(s[0], tail);
      ReadStringOfEscaped(s[1..], rest);
      assert [s[0]] + s[1..] == s;
    }
  }

  /** The output holds no control character, so no line break, and no quote that ends the string. */
  lemma {:induction false} EscapedIsPrintable(s: string)
    ensures forall c | c in Escaped(s) :: c as int >= 0x20
    ensures forall i | 0 <= i < |Escaped(s)| && Escaped(s)[i] == '"' ::
      i > 0 && Escaped(s)[i - 1] == '\\'
  {
    if s != [] {
      EscapedIsPrintable(s[1..]);
      EscapeCharIsPrintable(s[0]);
      hide EscapeChar;
    }
  }

  lemma HexCharIsPlain(n: nat)
    requires n < 16
    ensures HexChar(n) as int >= 0x20 && HexChar(n) != '"'
  {
  }

  lemma EscapeCharIsPrintable(c: char)
    ensures forall d | d in EscapeChar(c) :: d as int >= 0x20
    ensures forall i | 0 <= i < |EscapeChar(c)| && EscapeChar(c)[i] == '"' :: i > 0 && EscapeChar(c)[i - 1] == '\\'
  {
    if c as int < 0x20 {
      HexCharIsPlain(c as int / 16);
      HexCharIsPlain(c as int % 16);
    }
    hide HexChar;
  }
}

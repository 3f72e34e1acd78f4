/** `JSON.stringify` of strings and of a flat object with string values,
    as used to build the checkout metadata (section 7 of RFC 8259 for the
    escapes, with the short forms JavaScript prefers). */
module JsonText {
  import opened Wrappers
  import UriComponent

  function LowerHex(d: int): (c: char)
    requires 0 <= d < 16
    ensures UriComponent.HexValue(c) == Some(d)
  {
    if d < 10 then ('0' as int + d) as char else ('a' as int + d - 10) as char
  }

  /** The escape of one character inside a JSON string. */
  function EscapeChar(c: char): (r: string)
    ensures |r| >= 1
    ensures c != '"' && c != '\\' && c as int >= 0x20 <==> r == [c]
    ensures r != [c] ==> r[0] == '\\' && |r| >= 2
  {
    if c == '"' then "\\\""
    else if c == '\\' then "\\\\"
    else if c == '\n' then "\\n"
    else if c == '\r' then "\\r"
    else if c == '\t' then "\\t"
    else if c as int == 8 then "\\b"
    else if c as int == 12 then "\\f"
    else if c as int < 0x20 then "\\u00" + [LowerHex(c as int / 16), LowerHex(c as int % 16)]
    else [c]
  }

  function EscapeBody(s: string): (r: string)
    ensures '"' !in s && '\\' !in s && (forall i :: 0 <= i < |s| ==> s[i] as int >= 0x20) ==> r == s
    decreases |s|
  {
    if |s| == 0 then "" else EscapeChar(s[0]) + EscapeBody(s[1..])
  }

  /** `JSON.stringify(s)` for a string. */
  function Quote(s: string): (r: string)
    ensures |r| >= 2 && r[0] == '"' && r[|r| - 1] == '"'
  {
    "\"" + EscapeBody(s) + "\""
  }

  /** The character an escape after a backslash stands for, and how many
      characters the escape used (counting the backslash). */
  function Unescape(s: string): (r: Option<(char, nat)>)
    requires |s| > 0 && s[0] == '\\'
    ensures r.Some? ==> 2 <= r.value.1 <= |s|
  {
    if |s| < 2 then None
    else if s[1] == '"' then Some(('"', 2))
    else if s[1] == '\\' then Some(('\\', 2))
    else if s[1] == '/' then Some(('/', 2))
    else if s[1] == 'n' then Some(('\n', 2))
    else if s[1] == 'r' then Some(('\r', 2))
    else if s[1] == 't' then Some(('\t', 2))
    else if s[1] == 'b' then Some((8 as char, 2))
    else if s[1] == 'f' then Some((12 as char, 2))
    else if s[1] == 'u' && |s| >= 6 then
      match (UriComponent.HexValue(s[2]), UriComponent.HexValue(s[3]),
             UriComponent.HexValue(s[4]), UriComponent.HexValue(s[5]))
      case (Some(a), Some(b), Some(c), Some(d)) =>
        var n := ((a * 16 + b) * 16 + c) * 16 + d;
        if UriComponent.Scalar(n) then Some((n as char, 6)) else None
      case _ => None
    else None
  }

  /** The text of a JSON string body read back; absent when malformed. */
  function ReadBody(s: string): Option<string>
    decreases |s|
  {
    if |s| == 0 then Some("")
    else if s[0] == '"' then None
    else if s[0] != '\\' then
      match ReadBody(s[1..])
      case None => None
      case Some(rest) => Some([s[0]] + rest)
    else match Unescape(s)
      case None => None
      case Some((c, k)) =>
        match ReadBody(s[k..])
        case None => None
        case Some(rest) => Some([c] + rest)
  }

  lemma {:induction false} ReadEscapedChar(c: char, rest: string)
    ensures ReadBody(EscapeChar(c) + rest) ==
      match ReadBody(rest)
      case None => None
      case Some(t) => Some([c] + t)
  {
    var e := EscapeChar(c);
    var s := e + rest;
    assert s[|e|..] == rest;
    if e != [c] {
      assert s[0] == '\\';
      if c as int < 0x20 && c != '\n' && c != '\r' && c != '\t' && c as int != 8 && c as int != 12 {
        assert s[1] == 'u' && s[2] == '0' && s[3] == '0';
        assert s[4] == LowerHex(c as int / 16) && s[5] == LowerHex(c as int % 16);
        assert Unescape(s) == Some((c, 6));
      } else {
        assert Unescape(s) == Some((c, 2));
      }
    } else {
      assert s[1..] == rest;
    }
  }

  /** Reading an escaped body back gives the original text. */
  lemma {:induction false} ReadEscapeBody(s: string)
    ensures ReadBody(EscapeBody(s)) == Some(s)
    decreases |s|
  {
    if |s| > 0 {
      ReadEscapeBody(s[1..]);
      ReadEscapedChar(s[0], EscapeBody(s[1..]));
      assert [s[0]] + s[1..] == s;
    }
  }

  /** `"name":"value"` members joined by ',' inside braces. */
  function Object(fields: seq<(string, string)>): (r: string)
    ensures |r| >= 2 && r[0] == '{' && r[|r| - 1] == '}'
  {
    "{" + Members(fields) + "}"
  }

  function Members(fields: seq<(string, string)>): string
    decreases |fields|
  {
    if |fields| == 0 then ""
    else
      var m := Quote(fields[0].0) + ":" + Quote(fields[0].1);
      if |fields| == 1 then m else m + "," + Members(fields[1..])
  }
}

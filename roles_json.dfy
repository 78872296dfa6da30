/**
 * The roles of the signed-in user are kept in storage as the text that
 * `JSON.stringify` gives for an array of strings, and read back with
 * `JSON.parse`.
 *
 * `Stringify` is JSON.stringify on a `string[]`: compact (no spaces), each
 * string quoted, with `"` and `\` escaped, the control characters that have
 * a short escape written as `\b \f \n \r \t`, and the other characters below
 * U+0020 written as `\u00xx` in lower-case hexadecimal.  `ParseRoles` is
 * JSON.parse restricted to compact arrays of strings; any other text is
 * `None`.  `ParseStringify` is the round trip.
 */
module RolesJson {
  import opened Options

  const BACKSPACE: char := 8 as char
  const FORM_FEED: char := 12 as char

  function HexDigit(n: nat): (c: char)
    requires n < 16
    ensures HexValue(c) == Some(n)
  {
    if n < 10 then (48 + n) as char else (87 + n) as char
  }

  /** The value of one hexadecimal digit, either case. */
  function HexValue(c: char): (r: Option<nat>)
    ensures r.Some? ==> r.value < 16
  {
    if '0' <= c <= '9' then Some(c as int - 48)
    else if 'a' <= c <= 'f' then Some(c as int - 87)
    else if 'A' <= c <= 'F' then Some(c as int - 55)
    else None
  }

  /** How JSON.stringify writes one character inside a string. */
  function EscapeChar(c: char): (r: string)
    ensures |r| >= 1
    ensures |r| == 1 <==> (c as int >= 0x20 && c != '"' && c != '\\')
  {
    if c == '"' then "\\\""
    else if c == '\\' then "\\\\"
    else if c == BACKSPACE then "\\b"
    else if c == FORM_FEED then "\\f"
    else if c == '\n' then "\\n"
    else if c == '\r' then "\\r"
    else if c == '\t' then "\\t"
    else if (c as int) < 0x20 then "\\u00" + [HexDigit(c as int / 16), HexDigit(c as int % 16)]
    else [c]
  }

  function EscapeBody(s: string): string {
    if s == [] then [] else EscapeChar(s[0]) + EscapeBody(s[1..])
  }

  function EncodeString(s: string): string {
    "\"" + EscapeBody(s) + "\""
  }

  /** The array's elements, comma-separated. */
  function Elements(rs: seq<string>): string
    decreases |rs|
  {
    if rs == [] then ""
    else if |rs| == 1 then EncodeString(rs[0])
    else EncodeString(rs[0]) + "," + Elements(rs[1..])
  }

  /** `JSON.stringify(roles)`. */
  function Stringify(rs: seq<string>): (r: string)
    ensures |r| >= 2 && r[0] == '[' && r[|r| - 1] == ']'
  {
    "[" + Elements(rs) + "]"
  }

  /** The character an escape stands for and how many characters after the
      backslash it takes up. */
  function Unescape(t: string): (r: Option<(char, nat)>)
    ensures r.Some? ==> 1 <= r.value.1 <= |t|
  {
    if t == [] then None
    else if t[0] == '"' then Some(('"', 1))
    else if t[0] == '\\' then Some(('\\', 1))
    else if t[0] == '/' then Some(('/', 1))
    else if t[0] == 'b' then Some((BACKSPACE, 1))
    else if t[0] == 'f' then Some((FORM_FEED, 1))
    else if t[0] == 'n' then Some(('\n', 1))
    else if t[0] == 'r' then Some(('\r', 1))
    else if t[0] == 't' then Some(('\t', 1))
    else if t[0] == 'u' && |t| >= 5 then
      match (HexValue(t[1]), HexValue(t[2]), HexValue(t[3]), HexValue(t[4]))
      case (Some(a), Some(b), Some(c), Some(d)) =>
        var code := 4096 * a + 256 * b + 16 * c + d;
        // a lone surrogate half is outside this model
        if code < 0xD800 || 0xE000 <= code then Some((code as char, 5)) else None
      case _ => None
    else None
  }

  function Prepend(c: char, r: Option<(string, string)>): Option<(string, string)> {
    match r
    case None => None
    case Some((x, rest)) => Some(([c] + x, rest))
  }

  /** Reads a string's contents up to the closing quote; gives the contents
      and what follows the quote. */
  function ParseStringBody(s: string): (r: Option<(string, string)>)
    ensures r.Some? ==> |r.value.1| < |s|
    decreases |s|
  {
    if s == [] then None
    else if s[0] == '"' then Some(([], s[1..]))
    else if s[0] == '\\' then
      match Unescape(s[1..])
      case None => None
      case Some((c, n)) => Prepend(c, ParseStringBody(s[1 + n..]))
    else if (s[0] as int) < 0x20 then None
    else Prepend(s[0], ParseStringBody(s[1..]))
  }

  /** Reads `"…","…",…]` to the end of the text. */
  function ParseElements(s: string): Option<seq<string>>
    decreases |s|
  {
    if s == [] || s[0] != '"' then None
    else
      match ParseStringBody(s[1..])
      case None => None
      case Some((x, rest)) =>
        if rest == "]" then Some([x])
        else if rest != [] && rest[0] == ',' then
          match ParseElements(rest[1..])
          case None => None
          case Some(xs) => Some([x] + xs)
        else None
  }

  /** `JSON.parse(text)` on text holding an array of strings. */
  function ParseRoles(s: string): Option<seq<string>> {
    if |s| >= 2 && s[0] == '[' then
      if s[1..] == "]" then Some([]) else ParseElements(s[1..])
    else None
  }

  /** Reading back one escaped character gives the character. */
  lemma EscapeCharRoundTrip(c: char, t: string)
    ensures ParseStringBody(EscapeChar(c) + t) == Prepend(c, ParseStringBody(t))
  {
    var s := EscapeChar(c) + t;
    if |EscapeChar(c)| == 1 {
      assert s[0] == c && s[1..] == t;
    } else if (c as int) < 0x20 && c != BACKSPACE && c != FORM_FEED && c != '\n' && c != '\r' && c != '\t' {
      var hi, lo := c as int / 16, c as int % 16;
      var e := EscapeChar(c);
      assert e == "\\u00" + [HexDigit(hi), HexDigit(lo)];
      assert s[0] == '\\' && s[1] == 'u' && s[2] == '0' && s[3] == '0';
      assert s[4] == HexDigit(hi) && s[5] == HexDigit(lo);
      assert HexValue('0') == Some(0);
      assert Unescape(s[1..]) == Some((c, 5));
      assert s[6..] == t;
    } else {
      assert s[0] == '\\' && s[2..] == t;
    }
  }

  lemma {:induction false} StringBodyRoundTrip(x: string, rest: string)
    ensures ParseStringBody(EscapeBody(x) + "\"" + rest) == Some((x, rest))
    decreases |x|
  {
    if x == [] {
      assert EscapeBody(x) + "\"" + rest == "\"" + rest;
    } else {
      var t := EscapeBody(x[1..]) + "\"" + rest;
      assert EscapeBody(x) + "\"" + rest == EscapeChar(x[0]) + t;
      EscapeCharRoundTrip(x[0], t);
      StringBodyRoundTrip(x[1..], rest);
      assert [x[0]] + x[1..] == x;
    }
  }

  /** An encoded element followed by `tail` opens with a quote, and its
      string reads back as the element, leaving `tail`. */
  lemma ParseOneElement(x: string, tail: string)
    ensures var s := EncodeString(x) + tail;
      s != [] && s[0] == '"' && ParseStringBody(s[1..]) == Some((x, tail))
  {
    var q := "\"";
    var s := EncodeString(x) + tail;
    assert s == q + (EscapeBody(x) + q + tail);
    StringBodyRoundTrip(x, tail);
    assert s[1..] == EscapeBody(x) + q + tail;
  }

  lemma {:induction false} ElementsRoundTrip(rs: seq<string>)
    requires rs != []
    ensures ParseElements(Elements(rs) + "]") == Some(rs)
    decreases |rs|
  {
    var head := EncodeString(rs[0]);
    if |rs| > 1 {
      var rest := Elements(rs[1..]);
      var tail := "," + (rest + "]");
      assert Elements(rs) + "]" == head + tail by {
        assert Elements(rs) == head + "," + rest;
        assert (head + "," + rest) + "]" == head + ("," + (rest + "]"));
      }
      ParseOneElement(rs[0], tail);
      assert tail[1..] == rest + "]";
      ElementsRoundTrip(rs[1..]);
      assert [rs[0]] + rs[1..] == rs;
    } else {
      assert Elements(rs) == head;
      ParseOneElement(rs[0], "]");
      assert rs == [rs[0]];
    }
  }

  /** Parsing what was stringified gives back the same roles. */
  lemma ParseStringify(rs: seq<string>)
    ensures ParseRoles(Stringify(rs)) == Some(rs)
  {
    var s := Stringify(rs);
    if rs != [] {
      ElementsRoundTrip(rs);
      assert s[1..] == Elements(rs) + "]";
      assert Elements(rs)[0] == '"';
    } else {
      assert s == "[]";
    }
  }

  /** `roles.includes('ADMIN') || roles.includes('ROLE_ADMIN')`. */
  predicate HasAdminRole(roles: seq<string>) {
    "ADMIN" in roles || "ROLE_ADMIN" in roles
  }
}

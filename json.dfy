/** The JSON texts the storage shim writes: `JSON.stringify` of a user record
    and of a boolean, and the `JSON.parse` that reads them back. String
    escaping follows ECMAScript's QuoteJSONString: '"', '\' and the control
    characters below U+0020 are escaped, everything else is copied. */
module Json {
  import opened Strings
  import opened Options
  import opened Api

  const Backspace: char := 8 as char
  const FormFeed: char := 12 as char

  function HexDigit(d: nat): (c: char)
    requires d < 16
  {
    if d < 10 then ('0' as int + d) as char else ('a' as int + d - 10) as char
  }

  /** The value of a hexadecimal digit of either case. */
  function HexValue(c: char): Option<nat>
  {
    if '0' <= c <= '9' then Some(c as int - '0' as int)
    else if 'a' <= c <= 'f' then Some(c as int - 'a' as int + 10)
    else if 'A' <= c <= 'F' then Some(c as int - 'A' as int + 10)
    else None
  }

  /** How `JSON.stringify` writes one character inside a string literal. */
  function EscapeChar(c: char): string
  {
    if c == '"' then "\\\""
    else if c == '\\' then "\\\\"
    else if c == Backspace then "\\b"
    else if c == '\t' then "\\t"
    else if c == '\n' then "\\n"
    else if c == FormFeed then "\\f"
    else if c == '\r' then "\\r"
    else if c < ' ' then "\\u00" + [HexDigit(c as int / 16), HexDigit(c as int % 16)]
    else [c]
  }

  function EscapeString(s: string): string
  {
    if s == [] then [] else EscapeChar(s[0]) + EscapeString(s[1..])
  }

  /** `JSON.stringify(s)` for a string `s`. */
  function Quote(s: string): string
  {
    "\"" + EscapeString(s) + "\""
  }

  /** The character a two-character escape `\e` stands for. */
  function SimpleEscape(e: char): Option<char>
  {
    if e == '"' then Some('"')
    else if e == '\\' then Some('\\')
    else if e == '/' then Some('/')
    else if e == 'b' then Some(Backspace)
    else if e == 't' then Some('\t')
    else if e == 'n' then Some('\n')
    else if e == 'f' then Some(FormFeed)
    else if e == 'r' then Some('\r')
    else None
  }

  /** The character a `\uXXXX` escape stands for; surrogate halves are refused. */
  function UnicodeEscape(h: string): Option<char>
    requires |h| == 4
  {
    var a :- HexValue(h[0]);
    var b :- HexValue(h[1]);
    var c :- HexValue(h[2]);
    var d :- HexValue(h[3]);
    var code := ((a * 16 + b) * 16 + c) * 16 + d;
    if 0xD800 <= code < 0xE000 then None else Some(code as char)
  }

  function Prepend(c: char, r: Option<(string, string)>): Option<(string, string)>
  {
    match r
    case None => None
    case Some((s, rest)) => Some(([c] + s, rest))
  }

  /** Reads the body of a string literal up to its closing quote: the decoded
      characters and the text after the quote. */
  function ParseChars(t: string): Option<(string, string)>
    decreases |t|
  {
    if t == [] then None
    else if t[0] == '"' then Some(("", t[1..]))
    else if t[0] == '\\' then
      if |t| < 2 then None
      else if t[1] == 'u' then
        if |t| < 6 then None
        else match UnicodeEscape(t[2..6])
          case None => None
          case Some(c) => Prepend(c, ParseChars(t[6..]))
      else match SimpleEscape(t[1])
        case None => None
        case Some(c) => Prepend(c, ParseChars(t[2..]))
    else if t[0] < ' ' then None
    else Prepend(t[0], ParseChars(t[1..]))
  }

  /** Reads one string literal from the front of `t`. */
  function ParseString(t: string): Option<(string, string)>
  {
    if t != [] && t[0] == '"' then ParseChars(t[1..]) else None
  }

  /** The rest of `t` after the literal text `lit`. */
  function Expect(t: string, lit: string): Option<string>
  {
    if StartsWith(t, lit) then Some(t[|lit|..]) else None
  }

  /** Decoding an escaped character gives it back. */
  lemma ParseEscapedChar(c: char, t: string)
    ensures ParseChars(EscapeChar(c) + t) == Prepend(c, ParseChars(t))
  {
    var e := EscapeChar(c);
    if c < ' ' && c != Backspace && c != '\t' && c != '\n' && c != FormFeed && c != '\r' {
      var h := [HexDigit(c as int / 16), HexDigit(c as int % 16)];
      assert (e + t)[2..6] == "00" + h;
      assert (e + t)[6..] == t;
      assert UnicodeEscape("00" + h) == Some(c);
    } else if c == '"' || c == '\\' || c == Backspace || c == '\t' || c == '\n' || c == FormFeed || c == '\r' {
      assert (e + t)[2..] == t;
    } else {
      assert (e + t)[1..] == t;
    }
  }

  /** `JSON.parse` inverts the escaping `JSON.stringify` applies. */
  lemma {:induction false} ParseEscapedString(s: string, rest: string)
    ensures ParseChars(EscapeString(s) + "\"" + rest) == Some((s, rest))
    decreases |s|
  {
    if s == [] {
      assert EscapeString(s) + "\"" + rest == "\"" + rest;
      assert ("\"" + rest)[1..] == rest;
    } else {
      var tail := EscapeString(s[1..]) + "\"" + rest;
      assert EscapeString(s) + "\"" + rest == EscapeChar(s[0]) + tail;
      ParseEscapedChar(s[0], tail);
      ParseEscapedString(s[1..], rest);
      assert [s[0]] + s[1..] == s;
    }
  }

  lemma ParseQuoted(s: string, rest: string)
    ensures ParseString(Quote(s) + rest) == Some((s, rest))
  {
    assert (Quote(s) + rest)[1..] == EscapeString(s) + "\"" + rest;
    ParseEscapedString(s, rest);
  }

  lemma ExpectLiteral(lit: string, rest: string)
    ensures Expect(lit + rest, lit) == Some(rest)
  {
    assert (lit + rest)[..|lit|] == lit;
    assert (lit + rest)[|lit|..] == rest;
  }

  /** The members of a user record after the email, as `JSON.stringify`
      writes them (an absent phone is left out). */
  function EncodeTail(phone: Option<string>): string
  {
    match phone
    case None => "}"
    case Some(p) => ",\"phone\":" + (Quote(p) + "}")
  }

  /** `JSON.stringify(user)`, members in declaration order. */
  function EncodeUser(u: User): string
  {
    "{\"id\":" + (Quote(u.id) +
    (",\"firstName\":" + (Quote(u.firstName) +
    (",\"lastName\":" + (Quote(u.lastName) +
    (",\"email\":" + (Quote(u.email) + EncodeTail(u.phone))))))))
  }

  function DecodeTail(t: string): Option<Option<string>>
  {
    if t == "}" then Some(None)
    else
      var r :- Expect(t, ",\"phone\":");
      var p :- ParseString(r);
      if p.1 == "}" then Some(Some(p.0)) else None
  }

  /** `JSON.parse` of a user document in the layout `EncodeUser` writes. */
  function DecodeUser(t: string): Option<User>
  {
    var r0 :- Expect(t, "{\"id\":");
    var id :- ParseString(r0);
    var r1 :- Expect(id.1, ",\"firstName\":");
    var first :- ParseString(r1);
    var r2 :- Expect(first.1, ",\"lastName\":");
    var last :- ParseString(r2);
    var r3 :- Expect(last.1, ",\"email\":");
    var email :- ParseString(r3);
    var phone :- DecodeTail(email.1);
    Some(User(id.0, first.0, last.0, email.0, phone))
  }

  lemma DecodeEncodedTail(phone: Option<string>)
    ensures DecodeTail(EncodeTail(phone)) == Some(phone)
  {
    match phone
    case None =>
    case Some(p) =>
      ExpectLiteral(",\"phone\":", Quote(p) + "}");
      ParseQuoted(p, "}");
  }

  /** Reading back a stored user gives the user that was written. */
  lemma DecodeEncodedUser(u: User)
    ensures DecodeUser(EncodeUser(u)) == Some(u)
  {
    var tail := EncodeTail(u.phone);
    var t3 := Quote(u.email) + tail;
    var t2 := Quote(u.lastName) + (",\"email\":" + t3);
    var t1 := Quote(u.firstName) + (",\"lastName\":" + t2);
    var t0 := Quote(u.id) + (",\"firstName\":" + t1);
    ExpectLiteral("{\"id\":", t0);
    ParseQuoted(u.id, ",\"firstName\":" + t1);
    ExpectLiteral(",\"firstName\":", t1);
    ParseQuoted(u.firstName, ",\"lastName\":" + t2);
    ExpectLiteral(",\"lastName\":", t2);
    ParseQuoted(u.lastName, ",\"email\":" + t3);
    ExpectLiteral(",\"email\":", t3);
    ParseQuoted(u.email, tail);
    DecodeEncodedTail(u.phone);
  }

  /** `JSON.stringify` of a boolean. */
  function EncodeBool(b: bool): string
  {
    if b then "true" else "false"
  }

  /** `JSON.parse` of the two boolean literals. */
  function DecodeBool(t: string): Option<bool>
  {
    if t == "true" then Some(true) else if t == "false" then Some(false) else None
  }

  lemma DecodeEncodedBool(b: bool)
    ensures DecodeBool(EncodeBool(b)) == Some(b)
  {
  }
}

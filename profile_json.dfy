/** The profile record the session synchroniser keeps under `userData`, the text
    `JSON.stringify` makes of it, and a reader for that text. */
module ProfileJson {
  import opened Common

  /** `APIUser` of `src/contexts/AuthContext.tsx`. */
  datatype User = User(id: string, name: string, email: string, role: string)

  // ---------------------------------------------------------------------------
  // String escaping, as ECMAScript's QuoteJSONString does it

  function HexChar(d: nat): (c: char)
    requires d < 16
  {
    "0123456789abcdef"[d]
  }

  function HexValue(c: char): (r: Option<nat>)
    ensures r.Some? ==> r.value < 16
  {
    if '0' <= c <= '9' then Some((c as int) - ('0' as int))
    else if 'a' <= c <= 'f' then Some((c as int) - ('a' as int) + 10)
    else if 'A' <= c <= 'F' then Some((c as int) - ('A' as int) + 10)
    else None
  }

  lemma HexRoundTrip(d: nat)
    requires d < 16
    ensures HexValue(HexChar(d)) == Some(d)
  {
  }

  /** The JSON text of one character inside a string literal: the two-character
      escapes for quote, backslash, backspace, tab, line feed, form feed and carriage
      return, `\u00xx` for the other control characters, the character itself
      otherwise. */
  function EscapeChar(c: char): (e: string)
    ensures |e| >= 1
  {
    if c == '"' then ['\\', '"']
    else if c == '\\' then ['\\', '\\']
    else if c as int == 8 then ['\\', 'b']
    else if c as int == 9 then ['\\', 't']
    else if c as int == 10 then ['\\', 'n']
    else if c as int == 12 then ['\\', 'f']
    else if c as int == 13 then ['\\', 'r']
    else if (c as int) < 0x20 then ['\\', 'u', '0', '0', HexChar((c as int) / 16), HexChar((c as int) % 16)]
    else [c]
  }

  function Escape(s: string): (e: string)
    decreases |s|
  {
    if s == [] then [] else EscapeChar(s[0]) + Escape(s[1..])
  }

  /** `JSON.stringify(s)`: the escaped text between double quotes. */
  function Quote(s: string): string {
    "\"" + Escape(s) + "\""
  }

  // ---------------------------------------------------------------------------
  // Reading a string literal back

  /** The character an escape sequence stands for, given the text after its
      backslash, and how many characters of that text the sequence takes. */
  function Unescape(t: string): (r: Option<(char, nat)>)
    ensures r.Some? ==> 1 <= r.value.1 <= |t|
  {
    if t == [] then None
    else if t[0] == '"' then Some(('"', 1))
    else if t[0] == '\\' then Some(('\\', 1))
    else if t[0] == '/' then Some(('/', 1))
    else if t[0] == 'b' then Some((8 as char, 1))
    else if t[0] == 't' then Some((9 as char, 1))
    else if t[0] == 'n' then Some((10 as char, 1))
    else if t[0] == 'f' then Some((12 as char, 1))
    else if t[0] == 'r' then Some((13 as char, 1))
    else if t[0] == 'u' && |t| >= 5 then
      match (HexValue(t[1]), HexValue(t[2]), HexValue(t[3]), HexValue(t[4]))
      case (Some(a), Some(b), Some(c), Some(d)) =>
        var code := ((a * 16 + b) * 16 + c) * 16 + d;
        // a lone surrogate half is not a character here
        if 0xD800 <= code < 0xE000 then None else Some((code as char, 5))
      case _ => None
    else None
  }

  function Prepend(c: char, r: Option<(string, string)>): Option<(string, string)> {
    match r
    case None => None
    case Some(p) => Some(([c] + p.0, p.1))
  }

  /** Reads the body of a string literal up to its closing quote: the characters it
      denotes and the text after the quote; `None` when the literal is malformed. */
  function DecodeBody(s: string): Option<(string, string)>
    decreases |s|
  {
    if s == [] then None
    else if s[0] == '"' then Some(([], s[1..]))
    else if s[0] == '\\' then
      match Unescape(s[1..])
      case None => None
      case Some(e) => Prepend(e.0, DecodeBody(s[1 + e.1..]))
    else if (s[0] as int) < 0x20 then None
    else Prepend(s[0], DecodeBody(s[1..]))
  }

  /** Every escaped character is read back as itself, whatever follows it. */
  lemma DecodeEscapedChar(c: char, t: string)
    ensures DecodeBody(EscapeChar(c) + t) == Prepend(c, DecodeBody(t))
  {
    var s := EscapeChar(c) + t;
    if (c as int) < 0x20 && c as int !in {8, 9, 10, 12, 13} {
      var hi, lo := (c as int) / 16, (c as int) % 16;
      HexRoundTrip(hi);
      HexRoundTrip(lo);
      assert s[1..][1..5] == ['0', '0', HexChar(hi), HexChar(lo)];
      assert Unescape(s[1..]) == Some((c, 5));
      assert s[6..] == t;
    } else if |EscapeChar(c)| == 2 {
      assert s[2..] == t;
    } else {
      assert s[1..] == t;
    }
  }

  /** An escaped string followed by a closing quote reads back as that string, and
      what follows the quote is left over. */
  lemma {:induction false} DecodeEscaped(x: string, rest: string)
    ensures DecodeBody(Escape(x) + "\"" + rest) == Some((x, rest))
    decreases |x|
  {
    if x == [] {
      assert Escape(x) + "\"" + rest == "\"" + rest;
    } else {
      assert Escape(x) + "\"" + rest == EscapeChar(x[0]) + (Escape(x[1..]) + "\"" + rest);
      DecodeEscapedChar(x[0], Escape(x[1..]) + "\"" + rest);
      DecodeEscaped(x[1..], rest);
      assert [x[0]] + x[1..] == x;
    }
  }

  /** Distinct strings have distinct JSON texts. */
  lemma QuoteInjective(a: string, b: string)
    requires Quote(a) == Quote(b)
    ensures a == b
  {
    DecodeEscaped(a, "");
    DecodeEscaped(b, "");
    assert Quote(a)[1..] == Escape(a) + "\"" + "";
    assert Quote(b)[1..] == Escape(b) + "\"" + "";
  }

  // ---------------------------------------------------------------------------
  // The profile object

  const ID_PART := "{\"id\":\""
  const NAME_PART := ",\"name\":\""
  const EMAIL_PART := ",\"email\":\""
  const ROLE_PART := ",\"role\":\""

  /** A key with the opening quote of its value, the escaped value, its closing quote,
      and the rest of the object. */
  function Member(part: string, value: string, rest: string): string {
    part + Escape(value) + "\"" + rest
  }

  /** `JSON.stringify(user)`: `{"id":…,"name":…,"email":…,"role":…}`, keys in the
      order the object literal gives them, no white space. */
  function EncodeUser(u: User): (s: string)
    ensures |s| > 0 && s[0] == '{' && s[|s| - 1] == '}'
  {
    Member(ID_PART, u.id, Member(NAME_PART, u.name, Member(EMAIL_PART, u.email, Member(ROLE_PART, u.role, "}"))))
  }

  /** The value of the member that `s` starts with, and the text after it. */
  function ReadMember(s: string, part: string): Option<(string, string)> {
    if StartsWith(s, part) then DecodeBody(s[|part|..]) else None
  }

  /** Reads back exactly the texts `EncodeUser` writes; `None` for any other text. */
  function ParseUser(s: string): Option<User> {
    match ReadMember(s, ID_PART)
    case None => None
    case Some(a) =>
      match ReadMember(a.1, NAME_PART)
      case None => None
      case Some(b) =>
        match ReadMember(b.1, EMAIL_PART)
        case None => None
        case Some(c) =>
          match ReadMember(c.1, ROLE_PART)
          case None => None
          case Some(d) => if d.1 == "}" then Some(User(a.0, b.0, c.0, d.0)) else None
  }

  lemma ReadMemberRoundTrip(part: string, value: string, rest: string)
    ensures ReadMember(Member(part, value, rest), part) == Some((value, rest))
  {
    var s := Member(part, value, rest);
    assert s[..|part|] == part;
    assert s[|part|..] == Escape(value) + "\"" + rest;
    DecodeEscaped(value, rest);
  }

  /** The stored profile reads back as the profile that was stored. */
  lemma ParseEncodedUser(u: User)
    ensures ParseUser(EncodeUser(u)) == Some(u)
  {
    var r3 := Member(ROLE_PART, u.role, "}");
    var r2 := Member(EMAIL_PART, u.email, r3);
    var r1 := Member(NAME_PART, u.name, r2);
    ReadMemberRoundTrip(ID_PART, u.id, r1);
    ReadMemberRoundTrip(NAME_PART, u.name, r2);
    ReadMemberRoundTrip(EMAIL_PART, u.email, r3);
    ReadMemberRoundTrip(ROLE_PART, u.role, "}");
  }

  /** Distinct profiles are stored as distinct texts. */
  lemma EncodeUserInjective(u: User, v: User)
    requires EncodeUser(u) == EncodeUser(v)
    ensures u == v
  {
    ParseEncodedUser(u);
    ParseEncodedUser(v);
  }
}

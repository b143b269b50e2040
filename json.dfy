/**
 * The part of `JSON.stringify` this program relies on (RFC 8259 text, no
 * whitespace), over JSON values whose numbers are non-negative integers,
 * with a decoder for the same text and the round trip between them.
 */
module Json {
  import opened Wrappers
  import opened Numbers
  import opened Sequences

  datatype Json =
    | JNull
    | JBool(b: bool)
    | JNum(n: nat)
    | JStr(s: string)
    | JArr(items: seq<Json>)
    | JObj(members: seq<Member>)

  /**
   * One `key: value` pair of an object. A `JObj` lists the object's own keys
   * in property order: integer-like keys first in ascending order, then the
   * others in insertion order. That is the order `JSON.stringify` writes them.
   */
  datatype Member = Member(key: string, value: Json)

  function HexDigit(d: nat): (c: char)
    requires d < 16
  {
    "0123456789abcdef"[d]
  }

  /**
   * How `JSON.stringify` writes one character inside a string (RFC 8259
   * section 7): quote and backslash escaped, the five control characters with
   * short escapes, every other one below U+0020 as `\u00xx` in lower-case hex,
   * everything else verbatim. Dafny characters are Unicode scalar values, so
   * the lone-surrogate case of the standard cannot arise.
   */
  function EscapeChar(c: char): (r: string)
    ensures |r| >= 1
  {
    if c == '"' then ['\\', '"']
    else if c == '\\' then ['\\', '\\']
    else if c as int == 0x08 then ['\\', 'b']
    else if c as int == 0x09 then ['\\', 't']
    else if c as int == 0x0A then ['\\', 'n']
    else if c as int == 0x0C then ['\\', 'f']
    else if c as int == 0x0D then ['\\', 'r']
    else if c as int < 0x20 then ['\\', 'u', '0', '0', HexDigit(c as int / 16), HexDigit(c as int % 16)]
    else [c]
  }

  function Escape(s: string): string
  {
    if s == [] then [] else EscapeChar(s[0]) + Escape(s[1..])
  }

  function Quote(s: string): (r: string)
    ensures |r| >= 2 && r[0] == '"'
  {
    "\"" + Escape(s) + "\""
  }

  /** `JSON.stringify(v)`: compact, members in the order the `JObj` lists them. */
  function Stringify(v: Json): (r: string)
    ensures |r| >= 1 && StartsValue(r[0])
    decreases v, 1
  {
    match v
    case JNull => "null"
    case JBool(b) => if b then "true" else "false"
    case JNum(n) => NatToString(n)
    case JStr(s) => Quote(s)
    case JArr(items) => "[" + StringifyItems(items) + "]"
    case JObj(members) => "{" + StringifyMembers(members) + "}"
  }

  function StringifyItems(items: seq<Json>): string
    decreases items
  {
    if items == [] then ""
    else if |items| == 1 then Stringify(items[0])
    else Stringify(items[0]) + "," + StringifyItems(items[1..])
  }

  function StringifyMember(m: Member): string
    decreases m
  {
    Quote(m.key) + ":" + Stringify(m.value)
  }

  function StringifyMembers(members: seq<Member>): string
    decreases members
  {
    if members == [] then ""
    else if |members| == 1 then StringifyMember(members[0])
    else StringifyMember(members[0]) + "," + StringifyMembers(members[1..])
  }

  /** The characters a value's text can start with. */
  predicate StartsValue(c: char)
  {
    c == 'n' || c == 't' || c == 'f' || IsDigit(c) || c == '"' || c == '[' || c == '{'
  }

  // ---------------------------------------------------------------- decoder

  predicate StartsWith(s: string, p: string)
  {
    |p| <= |s| && s[..|p|] == p
  }

  predicate IsHex(c: char)
  {
    IsDigit(c) || 'a' <= c <= 'f' || 'A' <= c <= 'F'
  }

  function HexValue(c: char): (d: nat)
    requires IsHex(c)
    ensures d < 16
  {
    if IsDigit(c) then DigitValue(c)
    else if 'a' <= c <= 'f' then c as int - 'a' as int + 10
    else c as int - 'A' as int + 10
  }

  /** The character a two-character escape `\e` stands for. */
  function Unescape(e: char): Option<char>
  {
    if e == '"' then Some('"')
    else if e == '\\' then Some('\\')
    else if e == '/' then Some('/')
    else if e == 'b' then Some(0x08 as char)
    else if e == 't' then Some(0x09 as char)
    else if e == 'n' then Some(0x0A as char)
    else if e == 'f' then Some(0x0C as char)
    else if e == 'r' then Some(0x0D as char)
    else None
  }

  function Prepend(c: char, r: Option<(string, string)>): Option<(string, string)>
  {
    match r
    case None => None
    case Some((t, rest)) => Some(([c] + t, rest))
  }

  /** Reads the body of a string literal up to and including its closing quote. */
  function ParseString(s: string): (r: Option<(string, string)>)
    ensures r.Some? ==> |r.value.1| < |s|
    decreases |s|
  {
    if s == [] then None
    else if s[0] == '"' then Some(([], s[1..]))
    else if s[0] == '\\' then
      if |s| < 2 then None
      else if s[1] == 'u' then
        if |s| >= 6 && IsHex(s[2]) && IsHex(s[3]) && IsHex(s[4]) && IsHex(s[5]) then
          var cp := ((HexValue(s[2]) * 16 + HexValue(s[3])) * 16 + HexValue(s[4])) * 16 + HexValue(s[5]);
          if 0xD800 <= cp < 0xE000 then None else Prepend(cp as char, ParseString(s[6..]))
        else None
      else
        match Unescape(s[1])
        case None => None
        case Some(c) => Prepend(c, ParseString(s[2..]))
    else if s[0] as int < 0x20 then None
    else Prepend(s[0], ParseString(s[1..]))
  }

  /** The number of leading decimal digits. */
  function DigitRun(s: string): (k: nat)
    ensures k <= |s| && AllDigits(s[..k])
  {
    if s != [] && IsDigit(s[0]) then
      var k := 1 + DigitRun(s[1..]);
      assert s[..k] == [s[0]] + s[1..][..k - 1];
      k
    else 0
  }

  /** Reads one value and returns it with the text that follows it. */
  function ParseValue(s: string): (r: Option<(Json, string)>)
    ensures r.Some? ==> |r.value.1| < |s|
    decreases |s|, 1
  {
    if s == [] then None
    else if StartsWith(s, "null") then Some((JNull, s[4..]))
    else if StartsWith(s, "true") then Some((JBool(true), s[4..]))
    else if StartsWith(s, "false") then Some((JBool(false), s[5..]))
    else if IsDigit(s[0]) then
      var k := DigitRun(s);
      Some((JNum(DigitsValue(s[..k])), s[k..]))
    else if s[0] == '"' then
      match ParseString(s[1..])
      case None => None
      case Some((t, rest)) => Some((JStr(t), rest))
    else if s[0] == '[' then
      if |s| >= 2 && s[1] == ']' then Some((JArr([]), s[2..]))
      else
        match ParseItems(s[1..])
        case None => None
        case Some((items, rest)) =>
          if rest != [] && rest[0] == ']' then Some((JArr(items), rest[1..])) else None
    else if s[0] == '{' then
      if |s| >= 2 && s[1] == '}' then Some((JObj([]), s[2..]))
      else
        match ParseMembers(s[1..])
        case None => None
        case Some((members, rest)) =>
          if rest != [] && rest[0] == '}' then Some((JObj(members), rest[1..])) else None
    else None
  }

  function ParseItems(s: string): (r: Option<(seq<Json>, string)>)
    ensures r.Some? ==> |r.value.1| < |s|
    decreases |s|, 2
  {
    match ParseValue(s)
    case None => None
    case Some((v, rest)) =>
      if rest != [] && rest[0] == ',' then
        match ParseItems(rest[1..])
        case None => None
        case Some((vs, rest2)) => Some(([v] + vs, rest2))
      else Some(([v], rest))
  }

  function ParseMembers(s: string): (r: Option<(seq<Member>, string)>)
    ensures r.Some? ==> |r.value.1| < |s|
    decreases |s|, 2
  {
    if s == [] || s[0] != '"' then None
    else
      match ParseString(s[1..])
      case None => None
      case Some((key, rest)) =>
        if rest == [] || rest[0] != ':' then None
        else
          match ParseValue(rest[1..])
          case None => None
          case Some((v, rest2)) =>
            if rest2 != [] && rest2[0] == ',' then
              match ParseMembers(rest2[1..])
              case None => None
              case Some((ms, rest3)) => Some(([Member(key, v)] + ms, rest3))
            else Some(([Member(key, v)], rest2))
  }

  /** A whole JSON text: one value and nothing after it. */
  function Parse(s: string): Option<Json>
  {
    match ParseValue(s)
    case Some((v, rest)) => if rest == [] then Some(v) else None
    case None => None
  }

  // ------------------------------------------------------------ round trip

  /** What may follow a value inside the text `Stringify` produces. */
  predicate CanFollow(rest: string)
  {
    rest == [] || rest[0] == ',' || rest[0] == ']' || rest[0] == '}'
  }

  /** What may follow the last element of an array or object. */
  predicate ClosesList(rest: string)
  {
    rest == [] || rest[0] == ']' || rest[0] == '}'
  }

  lemma HexDigitValue(d: nat)
    requires d < 16
    ensures IsHex(HexDigit(d)) && HexValue(HexDigit(d)) == d
  {
  }

  /** A character written verbatim is read back verbatim. */
  lemma VerbatimRoundTrip(c: char, x: string)
    requires c != '"' && c != '\\' && c as int >= 0x20
    ensures ParseString([c] + x) == Prepend(c, ParseString(x))
  {
    assert ([c] + x)[1..] == x;
  }

  /** A two-character escape is read back as the character it stands for. */
  lemma ShortEscapeRoundTrip(e: char, c: char, x: string)
    requires e != 'u' && Unescape(e) == Some(c)
    ensures ParseString(['\\', e] + x) == Prepend(c, ParseString(x))
  {
    assert (['\\', e] + x)[2..] == x;
  }

  /** A `\u00xx` escape is read back as the control character it encodes. */
  lemma UnicodeEscapeRoundTrip(n: nat, x: string)
    requires n < 0x20
    ensures ParseString(['\\', 'u', '0', '0', HexDigit(n / 16), HexDigit(n % 16)] + x) == Prepend(n as char, ParseString(x))
  {
    var s := ['\\', 'u', '0', '0', HexDigit(n / 16), HexDigit(n % 16)] + x;
    HexDigitValue(n / 16);
    HexDigitValue(n % 16);
    assert s[2] == '0' && s[3] == '0';
    assert s[6..] == x;
    assert ((0 * 16 + 0) * 16 + n / 16) * 16 + n % 16 == n;
  }

  lemma EscapeCharRoundTrip(c: char, x: string)
    ensures ParseString(EscapeChar(c) + x) == Prepend(c, ParseString(x))
  {
    if c == '"' {
      ShortEscapeRoundTrip('"', c, x);
    } else if c == '\\' {
      ShortEscapeRoundTrip('\\', c, x);
    } else if c as int == 0x08 {
      ShortEscapeRoundTrip('b', c, x);
    } else if c as int == 0x09 {
      ShortEscapeRoundTrip('t', c, x);
    } else if c as int == 0x0A {
      ShortEscapeRoundTrip('n', c, x);
    } else if c as int == 0x0C {
      ShortEscapeRoundTrip('f', c, x);
    } else if c as int == 0x0D {
      ShortEscapeRoundTrip('r', c, x);
    } else if c as int < 0x20 {
      UnicodeEscapeRoundTrip(c as int, x);
      assert (c as int) as char == c;
    } else {
      VerbatimRoundTrip(c, x);
    }
  }

  lemma {:induction false} EscapeRoundTrip(t: string, rest: string)
    ensures ParseString(Escape(t) + "\"" + rest) == Some((t, rest))
    decreases |t|
  {
    if t == [] {
      assert Escape(t) + "\"" + rest == "\"" + rest;
    } else {
      var tail := Escape(t[1..]) + "\"" + rest;
      assert Escape(t) + "\"" + rest == EscapeChar(t[0]) + tail;
      EscapeCharRoundTrip(t[0], tail);
      EscapeRoundTrip(t[1..], rest);
      assert [t[0]] + t[1..] == t;
    }
  }

  lemma DigitRunOf(d: string, rest: string)
    requires AllDigits(d)
    requires rest == [] || !IsDigit(rest[0])
    ensures DigitRun(d + rest) == |d|
  {
    if d != [] {
      assert (d + rest)[1..] == d[1..] + rest;
      DigitRunOf(d[1..], rest);
    }
  }

  /** No keyword starts with a digit, a quote or a bracket. */
  lemma NoKeyword(s: string)
    requires s != [] && !(s[0] in "ntf")
    ensures !StartsWith(s, "null") && !StartsWith(s, "true") && !StartsWith(s, "false")
  {
    if |s| >= 4 {
      assert s[..4][0] == s[0];
    }
    if |s| >= 5 {
      assert s[..5][0] == s[0];
    }
  }

  lemma ParseValueNumber(s: string)
    requires s != [] && IsDigit(s[0])
    ensures ParseValue(s) == Some((JNum(DigitsValue(s[..DigitRun(s)])), s[DigitRun(s)..]))
  {
    NoKeyword(s);
  }

  lemma ParseValueString(s: string)
    requires s != [] && s[0] == '"'
    ensures ParseValue(s) ==
      match ParseString(s[1..])
      case None => None
      case Some((t, rest)) => Some((JStr(t), rest))
  {
    NoKeyword(s);
  }

  lemma NumberRoundTrip(n: nat, rest: string)
    requires CanFollow(rest)
    ensures ParseValue(NatToString(n) + rest) == Some((JNum(n), rest))
  {
    var d := NatToString(n);
    var s := d + rest;
    DigitRunOf(d, rest);
    assert s[..|d|] == d;
    assert s[|d|..] == rest;
    NatToStringRoundTrip(n);
    assert IsDigit(s[0]);
    ParseValueNumber(s);
  }

  lemma StringRoundTrip(t: string, rest: string)
    ensures ParseValue(Quote(t) + rest) == Some((JStr(t), rest))
  {
    var s := Quote(t) + rest;
    assert s[1..] == Escape(t) + "\"" + rest;
    EscapeRoundTrip(t, rest);
    ParseValueString(s);
  }

  lemma {:induction false} RoundTrip(v: Json, rest: string)
    requires CanFollow(rest)
    ensures ParseValue(Stringify(v) + rest) == Some((v, rest))
    decreases v, 1
  {
    match v
    case JNull =>
      assert (Stringify(v) + rest)[..4] == "null";
      assert (Stringify(v) + rest)[4..] == rest;
    case JBool(b) =>
      var s := Stringify(v) + rest;
      if b {
        assert s[..4] == "true";
        assert s[4..] == rest;
      } else {
        assert s[..4] != "null" && s[..4] != "true";
        assert s[..5] == "false";
        assert s[5..] == rest;
      }
    case JNum(n) =>
      NumberRoundTrip(n, rest);
    case JStr(t) =>
      StringRoundTrip(t, rest);
    case JArr(items) =>
      ArrayRoundTrip(items, rest);
    case JObj(members) =>
      ObjectRoundTrip(members, rest);
  }

  lemma ParseValueArray(s: string)
    requires s != [] && s[0] == '['
    ensures ParseValue(s) ==
      if |s| >= 2 && s[1] == ']' then Some((JArr([]), s[2..]))
      else
        match ParseItems(s[1..])
        case None => None
        case Some((items, rest)) =>
          if rest != [] && rest[0] == ']' then Some((JArr(items), rest[1..])) else None
  {
    NoKeyword(s);
  }

  lemma ParseValueObject(s: string)
    requires s != [] && s[0] == '{'
    ensures ParseValue(s) ==
      if |s| >= 2 && s[1] == '}' then Some((JObj([]), s[2..]))
      else
        match ParseMembers(s[1..])
        case None => None
        case Some((members, rest)) =>
          if rest != [] && rest[0] == '}' then Some((JObj(members), rest[1..])) else None
  {
    NoKeyword(s);
  }

  lemma {:induction false} ArrayRoundTrip(items: seq<Json>, rest: string)
    requires CanFollow(rest)
    ensures ParseValue(Stringify(JArr(items)) + rest) == Some((JArr(items), rest))
    decreases JArr(items), 0
  {
    var s := Stringify(JArr(items)) + rest;
    var body := StringifyItems(items);
    assert s == "[" + (body + ("]" + rest));
    ParseValueArray(s);
    if items == [] {
      assert s[1] == ']' && s[2..] == rest;
    } else {
      assert s[1..] == body + ("]" + rest);
      ItemsRoundTrip(items, "]" + rest);
      ItemsStart(items);
      assert s[1] == body[0];
    }
  }

  lemma {:induction false} ObjectRoundTrip(members: seq<Member>, rest: string)
    requires CanFollow(rest)
    ensures ParseValue(Stringify(JObj(members)) + rest) == Some((JObj(members), rest))
    decreases JObj(members), 0
  {
    var s := Stringify(JObj(members)) + rest;
    var body := StringifyMembers(members);
    assert s == "{" + (body + ("}" + rest));
    ParseValueObject(s);
    if members == [] {
      assert s[1] == '}' && s[2..] == rest;
    } else {
      assert s[1..] == body + ("}" + rest);
      MembersRoundTrip(members, "}" + rest);
      assert s[1] == '"';
    }
  }

  lemma ItemsStart(items: seq<Json>)
    requires items != []
    ensures |StringifyItems(items)| >= 1 && StringifyItems(items)[0] != ']'
  {
  }

  lemma {:induction false} ItemsRoundTrip(items: seq<Json>, rest: string)
    requires items != [] && ClosesList(rest)
    ensures ParseItems(StringifyItems(items) + rest) == Some((items, rest))
    decreases items
  {
    if |items| == 1 {
      RoundTrip(items[0], rest);
      assert StringifyItems(items) + rest == Stringify(items[0]) + rest;
      assert [items[0]] == items;
    } else {
      var tail := "," + (StringifyItems(items[1..]) + rest);
      assert StringifyItems(items) + rest == Stringify(items[0]) + tail;
      RoundTrip(items[0], tail);
      assert tail[1..] == StringifyItems(items[1..]) + rest;
      ItemsRoundTrip(items[1..], rest);
      assert [items[0]] + items[1..] == items;
    }
  }

  lemma {:induction false} MemberRoundTrip(m: Member, rest: string)
    requires CanFollow(rest)
    ensures var s := StringifyMember(m) + rest;
      s[0] == '"' &&
      ParseString(s[1..]) == Some((m.key, ":" + Stringify(m.value) + rest))
  {
    var s := StringifyMember(m) + rest;
    assert s[1..] == Escape(m.key) + "\"" + (":" + Stringify(m.value) + rest);
    EscapeRoundTrip(m.key, ":" + Stringify(m.value) + rest);
  }

  lemma ParseMembersUnfold(s: string, key: string, rest1: string, v: Json, after: string)
    requires s != [] && s[0] == '"' && ParseString(s[1..]) == Some((key, rest1))
    requires rest1 != [] && rest1[0] == ':' && ParseValue(rest1[1..]) == Some((v, after))
    ensures ParseMembers(s) ==
      if after != [] && after[0] == ',' then
        match ParseMembers(after[1..])
        case None => None
        case Some((ms, rest3)) => Some(([Member(key, v)] + ms, rest3))
      else Some(([Member(key, v)], after))
  {
  }

  /** The first member of an object's body is read back, with what follows it. */
  lemma {:induction false} FirstMemberRoundTrip(m: Member, after: string)
    requires CanFollow(after)
    ensures ParseMembers(StringifyMember(m) + after) ==
      if after != [] && after[0] == ',' then
        match ParseMembers(after[1..])
        case None => None
        case Some((ms, rest3)) => Some(([m] + ms, rest3))
      else Some(([m], after))
  {
    var s := StringifyMember(m) + after;
    MemberRoundTrip(m, after);
    var rest1 := ":" + Stringify(m.value) + after;
    assert rest1[1..] == Stringify(m.value) + after;
    RoundTrip(m.value, after);
    ParseMembersUnfold(s, m.key, rest1, m.value, after);
  }

  lemma {:induction false} MembersRoundTrip(members: seq<Member>, rest: string)
    requires members != [] && ClosesList(rest)
    ensures ParseMembers(StringifyMembers(members) + rest) == Some((members, rest))
    decreases members
  {
    var m := members[0];
    if |members| == 1 {
      assert StringifyMembers(members) == StringifyMember(m);
      FirstMemberRoundTrip(m, rest);
      assert [m] == members;
    } else {
      var tail := StringifyMembers(members[1..]) + rest;
      var after := "," + tail;
      AppendAssoc(StringifyMember(m) + ",", StringifyMembers(members[1..]), rest);
      AppendAssoc(StringifyMember(m), ",", tail);
      FirstMemberRoundTrip(m, after);
      assert after[1..] == tail;
      MembersRoundTrip(members[1..], rest);
      assert [m] + members[1..] == members;
    }
  }

  /** Decoding the text `Stringify` writes gives the value back. */
  lemma ParseStringify(v: Json)
    ensures Parse(Stringify(v)) == Some(v)
  {
    RoundTrip(v, []);
    assert Stringify(v) + [] == Stringify(v);
  }

  /** So two values have the same text only when they are the same value. */
  lemma StringifyInjective(a: Json, b: Json)
    ensures Stringify(a) == Stringify(b) <==> a == b
  {
    ParseStringify(a);
    ParseStringify(b);
  }
}

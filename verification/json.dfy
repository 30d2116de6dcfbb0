/**
  The JSON values the line codec carries, with `JSON.stringify` and `JSON.parse`
  on them, and the few JavaScript coercions the modelled code applies to values
  (string conversion for `join` and for property keys, truthiness, property reads).

  Numbers are integers; objects keep their members in insertion order.
 */
module Json {
  import opened Wrappers
  import opened Numbers
  import Strings

  datatype Json =
    | JNull
    | JBool(b: bool)
    | JNumber(n: int)
    | JString(s: string)
    | JArray(items: seq<Json>)
    | JObject(members: seq<Member>)

  datatype Member = Member(key: string, value: Json)

  /** A JavaScript value as the modelled code sees it: `undefined`, or a JSON value. */
  datatype Value = Undefined | Defined(json: Json)

  // ---------------------------------------------------------------------------
  // JSON.stringify

  function HexDigit(d: nat): (c: char)
    requires d < 16
    ensures IsRadixDigit(c, 16) && DigitValue(c) == d
  {
    if d < 10 then DigitChar(d) else ('a' as nat + d - 10) as char
  }

  /**
    How `JSON.stringify` writes one character inside a string: the quote and the
    backslash are escaped, five control characters get their short escapes, the
    other control characters a `\u00XX` escape, and everything else is copied.
   */
  function EscapeChar(c: char): (e: string)
    ensures |e| >= 1
    ensures Strings.Free(e, '\t')
  {
    if c == '"' then "\\\""
    else if c == '\\' then "\\\\"
    else if c == '\U{0008}' then "\\b"
    else if c == '\U{000C}' then "\\f"
    else if c == '\n' then "\\n"
    else if c == '\r' then "\\r"
    else if c == '\t' then "\\t"
    else if c < ' ' then "\\u00" + [HexDigit(c as nat / 16), HexDigit(c as nat % 16)]
    else [c]
  }

  function Escape(s: string): (e: string)
    ensures Strings.Free(e, '\t')
  {
    if |s| == 0 then "" else EscapeChar(s[0]) + Escape(s[1..])
  }

  function Quote(s: string): string
  {
    "\"" + Escape(s) + "\""
  }

  /** `JSON.stringify(v)`: the compact notation, without any white space. */
  function Stringify(v: Json): (text: string)
    ensures |text| > 0
    decreases v
  {
    match v
    case JNull => "null"
    case JBool(b) => if b then "true" else "false"
    case JNumber(n) => IntString(n)
    case JString(s) => Quote(s)
    case JArray(items) => "[" + StringifyItems(items) + "]"
    case JObject(members) => "{" + StringifyMembers(members) + "}"
  }

  function StringifyItems(items: seq<Json>): string
    decreases items
  {
    if |items| == 0 then ""
    else if |items| == 1 then Stringify(items[0])
    else Stringify(items[0]) + "," + StringifyItems(items[1..])
  }

  function StringifyMember(m: Member): string
    decreases m
  {
    Quote(m.key) + ":" + Stringify(m.value)
  }

  function StringifyMembers(ms: seq<Member>): string
    decreases ms
  {
    if |ms| == 0 then ""
    else if |ms| == 1 then StringifyMember(ms[0])
    else StringifyMember(ms[0]) + "," + StringifyMembers(ms[1..])
  }

  // ---------------------------------------------------------------------------
  // JSON.parse

  /** The white space `JSON.parse` allows between tokens. */
  predicate IsJsonSpace(c: char)
  {
    c == ' ' || c == '\t' || c == '\n' || c == '\r'
  }

  function SkipSpace(s: string): (t: string)
    ensures |t| <= |s|
    ensures |t| > 0 ==> !IsJsonSpace(t[0])
  {
    if |s| > 0 && IsJsonSpace(s[0]) then SkipSpace(s[1..]) else s
  }

  /** The character an escape sequence stands for (`s` follows the backslash), and its length. */
  function Unescape(s: string): (r: Option<(char, nat)>)
    ensures r.Some? ==> 1 <= r.value.1 <= |s|
  {
    if |s| == 0 then None
    else if s[0] == '"' then Some(('"', 1))
    else if s[0] == '\\' then Some(('\\', 1))
    else if s[0] == '/' then Some(('/', 1))
    else if s[0] == 'b' then Some(('\U{0008}', 1))
    else if s[0] == 'f' then Some(('\U{000C}', 1))
    else if s[0] == 'n' then Some(('\n', 1))
    else if s[0] == 'r' then Some(('\r', 1))
    else if s[0] == 't' then Some(('\t', 1))
    else if s[0] == 'u' && HexAt(s, 1) then
      var code := HexValue(s, 1);
      if code < 0xD800 || 0xE000 <= code then Some((code as char, 5))
      else if code < 0xDC00 && |s| >= 11 && s[5] == '\\' && s[6] == 'u' && HexAt(s, 7)
              && 0xDC00 <= HexValue(s, 7) < 0xE000 then
        Some(((0x10000 + (code - 0xD800) * 0x400 + (HexValue(s, 7) - 0xDC00)) as char, 11))
      else None
    else None
  }

  /** Four hexadecimal digits start at `i`. */
  predicate HexAt(s: string, i: nat)
  {
    i + 4 <= |s| && IsRadixDigit(s[i], 16) && IsRadixDigit(s[i + 1], 16)
    && IsRadixDigit(s[i + 2], 16) && IsRadixDigit(s[i + 3], 16)
  }

  /** The UTF-16 code unit written by the four hexadecimal digits at `i`. */
  function HexValue(s: string, i: nat): (code: nat)
    requires HexAt(s, i)
    ensures code < 0x10000
  {
    DigitValue(s[i]) * 4096 + DigitValue(s[i + 1]) * 256 + DigitValue(s[i + 2]) * 16 + DigitValue(s[i + 3])
  }

  /** The characters of a string literal up to its closing quote (`s` follows the opening one). */
  function ParseStringBody(s: string): (r: Option<(string, string)>)
    ensures r.Some? ==> |r.value.1| < |s|
    decreases |s|
  {
    if |s| == 0 then None
    else if s[0] == '"' then Some(("", s[1..]))
    else if s[0] == '\\' then
      match Unescape(s[1..])
      case None => None
      case Some((c, n)) =>
        match ParseStringBody(s[1 + n..])
        case None => None
        case Some((t, rest)) => Some(([c] + t, rest))
    else if s[0] < ' ' then None
    else
      match ParseStringBody(s[1..])
      case None => None
      case Some((t, rest)) => Some(([s[0]] + t, rest))
  }

  function Literal(s: string, word: string, v: Json): (r: Option<(Json, string)>)
    requires |word| > 0
    ensures r.Some? ==> |r.value.1| < |s|
  {
    if |s| >= |word| && s[..|word|] == word then Some((v, s[|word|..])) else None
  }

  /** An integer in JSON notation; fractions and exponents are outside the model and rejected. */
  function ParseNumber(s: string): (r: Option<(Json, string)>)
    ensures r.Some? ==> |r.value.1| < |s|
  {
    var negative := |s| > 0 && s[0] == '-';
    var u := if negative then s[1..] else s;
    match ParseMagnitude(u)
    case None => None
    case Some((magnitude, rest)) =>
      var value: int := magnitude;
      if |rest| > 0 && (rest[0] == '.' || rest[0] == 'e' || rest[0] == 'E') then None
      else Some((JNumber(if negative then -value else value), rest))
  }

  /** The digits of a JSON number: a lone `0`, or a run of digits starting with another digit. */
  function ParseMagnitude(u: string): (r: Option<(nat, string)>)
    ensures r.Some? ==> |r.value.1| < |u|
  {
    if |u| == 0 || !IsDecimalDigit(u[0]) then None
    else
      var n := if u[0] == '0' then 1 else DigitRun(u, 10);
      Some((DigitsValue(u[..n], 10), u[n..]))
  }

  /** One JSON value at the very start of `s`, and what follows it. */
  function ParseValue(s: string): (r: Option<(Json, string)>)
    ensures r.Some? ==> |r.value.1| < |s|
    decreases |s|, 0
  {
    if |s| == 0 then None
    else if s[0] == 'n' then Literal(s, "null", JNull)
    else if s[0] == 't' then Literal(s, "true", JBool(true))
    else if s[0] == 'f' then Literal(s, "false", JBool(false))
    else if s[0] == '"' then
      match ParseStringBody(s[1..])
      case None => None
      case Some((str, rest)) => Some((JString(str), rest))
    else if s[0] == '-' || IsDecimalDigit(s[0]) then ParseNumber(s)
    else if s[0] == '[' then ParseArray(SkipSpace(s[1..]))
    else if s[0] == '{' then ParseObject(SkipSpace(s[1..]))
    else None
  }

  /** An array after its opening bracket and any white space. */
  function ParseArray(t: string): (r: Option<(Json, string)>)
    ensures r.Some? ==> |r.value.1| < |t|
    decreases |t|, 3
  {
    if |t| > 0 && t[0] == ']' then Some((JArray([]), t[1..]))
    else
      match ParseElements(t)
      case None => None
      case Some((items, rest)) => Some((JArray(items), rest))
  }

  /** The elements of a non-empty array and its closing bracket. */
  function ParseElements(s: string): (r: Option<(seq<Json>, string)>)
    ensures r.Some? ==> |r.value.1| < |s|
    decreases |s|, 2
  {
    match ParseValue(s)
    case None => None
    case Some((v, rest)) => ParseElementsAfter(v, SkipSpace(rest))
  }

  /** What follows an element `v`: the closing bracket, or a comma and further elements. */
  function ParseElementsAfter(v: Json, t: string): (r: Option<(seq<Json>, string)>)
    ensures r.Some? ==> |r.value.1| < |t|
    decreases |t|, 1
  {
    if |t| > 0 && t[0] == ']' then Some(([v], t[1..]))
    else if |t| > 0 && t[0] == ',' then
      match ParseElements(SkipSpace(t[1..]))
      case None => None
      case Some((vs, rest)) => Some(([v] + vs, rest))
    else None
  }

  /** An object after its opening brace and any white space. */
  function ParseObject(t: string): (r: Option<(Json, string)>)
    ensures r.Some? ==> |r.value.1| < |t|
    decreases |t|, 4
  {
    if |t| > 0 && t[0] == '}' then Some((JObject([]), t[1..]))
    else
      match ParseMembers(t)
      case None => None
      case Some((ms, rest)) => Some((JObject(Assemble(ms)), rest))
  }

  /** The members of a non-empty object, as written, and its closing brace. */
  function ParseMembers(s: string): (r: Option<(seq<Member>, string)>)
    ensures r.Some? ==> |r.value.1| < |s|
    decreases |s|, 3
  {
    if |s| == 0 || s[0] != '"' then None
    else
      match ParseStringBody(s[1..])
      case None => None
      case Some((key, rest)) => ParseMemberValue(key, SkipSpace(rest))
  }

  /** What follows the key of a member: a colon, the value, and what comes after the member. */
  function ParseMemberValue(key: string, t: string): (r: Option<(seq<Member>, string)>)
    ensures r.Some? ==> |r.value.1| < |t|
    decreases |t|, 2
  {
    if |t| == 0 || t[0] != ':' then None
    else
      match ParseValue(SkipSpace(t[1..]))
      case None => None
      case Some((v, rest)) => ParseMembersAfter(Member(key, v), SkipSpace(rest))
  }

  /** What follows a member `m`: the closing brace, or a comma and further members. */
  function ParseMembersAfter(m: Member, u: string): (r: Option<(seq<Member>, string)>)
    ensures r.Some? ==> |r.value.1| < |u|
    decreases |u|, 1
  {
    if |u| > 0 && u[0] == '}' then Some(([m], u[1..]))
    else if |u| > 0 && u[0] == ',' then
      match ParseMembers(SkipSpace(u[1..]))
      case None => None
      case Some((ms, rest)) => Some(([m] + ms, rest))
    else None
  }

  /**
    Defining a member on an object under construction: a key seen before keeps
    its place and takes the new value, a new key goes last.
   */
  function Put(ms: seq<Member>, m: Member): seq<Member>
  {
    if |ms| == 0 then [m]
    else if ms[0].key == m.key then [m] + ms[1..]
    else [ms[0]] + Put(ms[1..], m)
  }

  /** The object `JSON.parse` builds from its members as written. */
  function Assemble(ms: seq<Member>): seq<Member>
  {
    if |ms| == 0 then [] else Put(Assemble(ms[..|ms| - 1]), ms[|ms| - 1])
  }

  /** `JSON.parse(s)`: one value, with only white space around it; `None` where it throws. */
  function Parse(s: string): Option<Json>
  {
    match ParseValue(SkipSpace(s))
    case None => None
    case Some((v, rest)) => if |SkipSpace(rest)| == 0 then Some(v) else None
  }

  // ---------------------------------------------------------------------------
  // Round trip

  predicate DistinctKeys(ms: seq<Member>)
  {
    forall i, j :: 0 <= i < j < |ms| ==> ms[i].key != ms[j].key
  }

  /** A value `JSON.parse` can produce: no object has two members with the same key. */
  predicate Canonical(v: Json)
    decreases v
  {
    match v
    case JArray(items) => forall i :: 0 <= i < |items| ==> Canonical(items[i])
    case JObject(ms) => DistinctKeys(ms) && forall i :: 0 <= i < |ms| ==> Canonical(ms[i].value)
    case _ => true
  }

  /** What may follow a value inside the notation of an enclosing one, or nothing. */
  predicate Delimited(rest: string)
  {
    |rest| == 0 || rest[0] == ',' || rest[0] == ']' || rest[0] == '}'
  }

  lemma {:induction false} PutNew(ms: seq<Member>, m: Member)
    requires forall i :: 0 <= i < |ms| ==> ms[i].key != m.key
    ensures Put(ms, m) == ms + [m]
  {
    if |ms| > 0 {
      PutNew(ms[1..], m);
      assert ms == [ms[0]] + ms[1..];
    }
  }

  lemma {:induction false} AssembleDistinct(ms: seq<Member>)
    requires DistinctKeys(ms)
    ensures Assemble(ms) == ms
  {
    if |ms| > 0 {
      var init := ms[..|ms| - 1];
      assert DistinctKeys(init);
      AssembleDistinct(init);
      PutNew(init, ms[|ms| - 1]);
      assert init + [ms[|ms| - 1]] == ms;
    }
  }

  lemma SkipSpaceNone(s: string)
    requires |s| == 0 || !IsJsonSpace(s[0])
    ensures SkipSpace(s) == s
  {
  }

  lemma ConcatTail(a: string, b: string, n: nat)
    requires n <= |a|
    ensures (a + b)[n..] == a[n..] + b
  {
  }

  /** A character as `JSON.stringify` writes it inside a string is read back as that character. */
  lemma ParseEscapedChar(c: char, tail: string)
    ensures ParseStringBody(EscapeChar(c) + tail) ==
      match ParseStringBody(tail)
      case None => None
      case Some((t, rest)) => Some(([c] + t, rest))
  {
    if c == '"' || c == '\\' || c == '\U{0008}' || c == '\U{000C}' || c == '\n' || c == '\r' || c == '\t' {
      ParseShortEscape(c, tail);
    } else if c < ' ' {
      ParseUnicodeEscape(c, tail);
    } else {
      var s := EscapeChar(c) + tail;
      assert s[0] == c && s[1..] == tail;
    }
  }

  lemma ParseShortEscape(c: char, tail: string)
    requires c == '"' || c == '\\' || c == '\U{0008}' || c == '\U{000C}' || c == '\n' || c == '\r' || c == '\t'
    ensures ParseStringBody(EscapeChar(c) + tail) ==
      match ParseStringBody(tail)
      case None => None
      case Some((t, rest)) => Some(([c] + t, rest))
  {
    var e := EscapeChar(c);
    var s := e + tail;
    assert |e| == 2 && e[0] == '\\';
    assert s[0] == '\\' && s[1..] == e[1..] + tail && s[2..] == tail;
    assert Unescape(s[1..]) == Some((c, 1));
  }

  lemma ParseUnicodeEscape(c: char, tail: string)
    requires c < ' ' && c != '\U{0008}' && c != '\U{000C}' && c != '\n' && c != '\r' && c != '\t'
    ensures ParseStringBody(EscapeChar(c) + tail) ==
      match ParseStringBody(tail)
      case None => None
      case Some((t, rest)) => Some(([c] + t, rest))
  {
    var hi := HexDigit(c as nat / 16);
    var lo := HexDigit(c as nat % 16);
    var s := EscapeChar(c) + tail;
    assert s == "\\u00" + [hi, lo] + tail;
    var u := s[1..];
    assert u[0] == 'u' && u[1] == '0' && u[2] == '0' && u[3] == hi && u[4] == lo;
    assert DigitValue('0') == 0;
    assert Unescape(u) == Some((c, 5));
    assert s[6..] == tail;
  }

  lemma {:induction false} ParseEscape(s: string, rest: string)
    ensures ParseStringBody(Escape(s) + "\"" + rest) == Some((s, rest))
  {
    if |s| == 0 {
      assert Escape(s) + "\"" + rest == "\"" + rest;
    } else {
      var tail := Escape(s[1..]) + "\"" + rest;
      assert Escape(s) + "\"" + rest == EscapeChar(s[0]) + tail;
      ParseEscape(s[1..], rest);
      ParseEscapedChar(s[0], tail);
      assert [s[0]] + s[1..] == s;
    }
  }

  lemma ParseQuote(s: string, rest: string)
    ensures ParseValue(Quote(s) + rest) == Some((JString(s), rest))
  {
    var text := Quote(s) + rest;
    assert text[1..] == Escape(s) + "\"" + rest;
    ParseEscape(s, rest);
  }

  lemma ParseInteger(n: int, rest: string)
    requires Delimited(rest)
    ensures ParseValue(IntString(n) + rest) == Some((JNumber(n), rest))
  {
    var s := IntString(n) + rest;
    var m: nat := if n < 0 then -n else n;
    assert s[0] == '-' || IsDecimalDigit(s[0]) by {
      if n >= 0 { assert s[0] == NatString(m)[0]; }
    }
    ParseValueNumber(s);
    ParseNumberOf(n, rest);
  }

  lemma ParseNumberOf(n: int, rest: string)
    requires Delimited(rest)
    ensures ParseNumber(IntString(n) + rest) == Some((JNumber(n), rest))
  {
    if n < 0 {
      var m: nat := -n;
      var u := NatString(m) + rest;
      ParseMagnitudeOf(m, rest);
      NegativeText(NatString(m), rest);
      ParseNumberNegative("-" + NatString(m) + rest, u, m, rest);
    } else {
      ParseMagnitudeOf(n, rest);
      var u := NatString(n) + rest;
      assert u[0] == NatString(n)[0];
      ParseNumberUnsigned(u, n, rest);
    }
  }

  lemma NegativeText(digits: string, rest: string)
    ensures var s := "-" + digits + rest; |s| > 0 && s[0] == '-' && s[1..] == digits + rest
  {
  }

  lemma ParseNumberNegative(s: string, u: string, m: nat, rest: string)
    requires |s| > 0 && s[0] == '-' && s[1..] == u
    requires ParseMagnitude(u) == Some((m, rest)) && Delimited(rest)
    ensures ParseNumber(s) == Some((JNumber(-(m as int)), rest))
  {
  }

  lemma ParseNumberUnsigned(u: string, m: nat, rest: string)
    requires |u| > 0 && u[0] != '-'
    requires ParseMagnitude(u) == Some((m, rest)) && Delimited(rest)
    ensures ParseNumber(u) == Some((JNumber(m), rest))
  {
  }

  lemma ParseMagnitudeOf(m: nat, rest: string)
    requires Delimited(rest)
    ensures ParseMagnitude(NatString(m) + rest) == Some((m, rest))
  {
    var digits := NatString(m);
    var u := digits + rest;
    assert u[0] == digits[0];
    DigitRunPrefix(digits, rest, 10);
    NatStringValue(m);
    assert u[..|digits|] == digits;
    assert u[|digits|..] == rest;
  }

  lemma ParseValueNumber(s: string)
    requires |s| > 0 && (s[0] == '-' || IsDecimalDigit(s[0]))
    ensures ParseValue(s) == ParseNumber(s)
  {
  }

  lemma ParseValueArray(s: string)
    requires |s| > 0 && s[0] == '['
    ensures ParseValue(s) == ParseArray(SkipSpace(s[1..]))
  {
  }

  lemma ParseValueObject(s: string)
    requires |s| > 0 && s[0] == '{'
    ensures ParseValue(s) == ParseObject(SkipSpace(s[1..]))
  {
  }

  lemma ParseLiteral(word: string, v: Json, rest: string)
    requires |word| > 0
    ensures Literal(word + rest, word, v) == Some((v, rest))
  {
    assert (word + rest)[..|word|] == word;
    assert (word + rest)[|word|..] == rest;
  }

  /** `JSON.parse` reads back what `JSON.stringify` writes, inside any enclosing notation. */
  lemma {:induction false} ParseStringify(v: Json, rest: string)
    requires Canonical(v) && Delimited(rest)
    ensures ParseValue(Stringify(v) + rest) == Some((v, rest))
    decreases v, 1
  {
    match v
    case JNull => ParseLiteral("null", JNull, rest);
    case JBool(b) =>
      if b { ParseLiteral("true", v, rest); } else { ParseLiteral("false", v, rest); }
    case JNumber(n) => ParseInteger(n, rest);
    case JString(str) => ParseQuote(str, rest);
    case JArray(items) => ParseStringifyArray(v, rest);
    case JObject(ms) => ParseStringifyObject(v, rest);
  }

  lemma {:induction false} ParseStringifyArray(v: Json, rest: string)
    requires v.JArray? && Canonical(v) && Delimited(rest)
    ensures ParseValue(Stringify(v) + rest) == Some((v, rest))
    decreases v, 0
  {
    var items := v.items;
    var inner := StringifyItems(items) + "]" + rest;
    var s := Stringify(v) + rest;
    assert s == "[" + inner;
    assert s[1..] == inner;
    if |items| == 0 {
      assert inner == "]" + rest;
      Cons1(']', rest);
      SkipSpaceNone(inner);
    } else {
      ParseStringifyItems(items, rest);
      FirstChar(items[0]);
      if |items| == 1 {
        assert inner == Stringify(items[0]) + "]" + rest;
      } else {
        assert inner == Stringify(items[0]) + "," + StringifyItems(items[1..]) + "]" + rest;
      }
      assert inner[0] == Stringify(items[0])[0];
      SkipSpaceNone(inner);
    }
    ParseValueArray(s);
  }

  lemma {:induction false} ParseStringifyObject(v: Json, rest: string)
    requires v.JObject? && Canonical(v) && Delimited(rest)
    ensures ParseValue(Stringify(v) + rest) == Some((v, rest))
    decreases v, 0
  {
    var inner := StringifyMembers(v.members) + "}" + rest;
    var s := Stringify(v) + rest;
    assert s == "{" + inner;
    assert s[1..] == inner;
    ParseObjectOf(v.members, rest);
    ParseValueObject(s);
  }

  /** The members and the closing brace of an object, read back after the opening brace. */
  lemma {:induction false} ParseObjectOf(ms: seq<Member>, rest: string)
    requires DistinctKeys(ms) && forall i :: 0 <= i < |ms| ==> Canonical(ms[i].value)
    ensures var inner := StringifyMembers(ms) + "}" + rest;
      SkipSpace(inner) == inner && ParseObject(inner) == Some((JObject(ms), rest))
    decreases ms, 2
  {
    var inner := StringifyMembers(ms) + "}" + rest;
    if |ms| == 0 {
      assert inner == "}" + rest;
      Cons1('}', rest);
      SkipSpaceNone(inner);
    } else {
      ParseStringifyMembers(ms, rest);
      MembersFirst(ms);
      assert inner[0] == StringifyMembers(ms)[0];
      SkipSpaceNone(inner);
      AssembleDistinct(ms);
    }
  }

  /** `JSON.stringify` output starts with the first character of a value, never a space or a closing mark. */
  lemma FirstChar(v: Json)
    ensures var c := Stringify(v)[0]; !IsJsonSpace(c) && c != ']' && c != '}' && c != ','
  {
    match v
    case JNumber(n) =>
      if n >= 0 { assert IsDecimalDigit(NatString(n)[0]); }
    case _ =>
  }

  lemma {:induction false} ParseStringifyItems(items: seq<Json>, rest: string)
    requires |items| > 0
    requires forall i :: 0 <= i < |items| ==> Canonical(items[i])
    ensures ParseElements(StringifyItems(items) + "]" + rest) == Some((items, rest))
    decreases items
  {
    var head := Stringify(items[0]);
    if |items| == 1 {
      var after := "]" + rest;
      assert StringifyItems(items) + "]" + rest == head + after;
      ParseStringify(items[0], after);
      SkipSpaceNone(after);
      assert after[1..] == rest;
      assert [items[0]] == items;
      assert ParseElementsAfter(items[0], after) == Some((items, rest));
    } else {
      var tail := StringifyItems(items[1..]) + "]" + rest;
      var after := "," + tail;
      assert StringifyItems(items) + "]" + rest == head + after;
      ParseStringify(items[0], after);
      SkipSpaceNone(after);
      assert after[1..] == tail;
      ParseStringifyItems(items[1..], rest);
      FirstChar(items[1]);
      if |items| == 2 {
        assert tail == Stringify(items[1]) + "]" + rest;
      } else {
        assert tail == Stringify(items[1]) + "," + StringifyItems(items[2..]) + "]" + rest;
      }
      assert tail[0] == Stringify(items[1])[0];
      SkipSpaceNone(tail);
      ConsTail(items);
      assert ParseElementsAfter(items[0], after) == Some((items, rest));
    }
  }

  lemma {:induction false} ParseStringifyMembers(ms: seq<Member>, rest: string)
    requires |ms| > 0
    requires forall i :: 0 <= i < |ms| ==> Canonical(ms[i].value)
    ensures ParseMembers(StringifyMembers(ms) + "}" + rest) == Some((ms, rest))
    decreases ms, 1
  {
    if |ms| == 1 {
      ParseLastMember(ms, rest);
    } else {
      ParseNextMember(ms, rest);
    }
  }

  lemma {:induction false} ParseLastMember(ms: seq<Member>, rest: string)
    requires |ms| == 1 && Canonical(ms[0].value)
    ensures ParseMembers(StringifyMembers(ms) + "}" + rest) == Some((ms, rest))
    decreases ms, 0
  {
    var m := ms[0];
    var after := "}" + rest;
    assert StringifyMembers(ms) + "}" + rest == StringifyMember(m) + after;
    ParseStringifyMember(m, after);
    ParseMembersClose(m, rest);
    assert [m] == ms;
  }

  lemma {:induction false} ParseNextMember(ms: seq<Member>, rest: string)
    requires |ms| > 1
    requires forall i :: 0 <= i < |ms| ==> Canonical(ms[i].value)
    ensures ParseMembers(StringifyMembers(ms) + "}" + rest) == Some((ms, rest))
    decreases ms, 0
  {
    var m := ms[0];
    var tail := StringifyMembers(ms[1..]) + "}" + rest;
    var after := "," + tail;
    Concat4(StringifyMember(m), ",", StringifyMembers(ms[1..]), "}" + rest);
    assert StringifyMembers(ms) + "}" + rest == StringifyMember(m) + after;
    ParseStringifyMember(m, after);
    MembersFirst(ms[1..]);
    assert tail[0] == StringifyMembers(ms[1..])[0];
    ParseMembersComma(m, tail);
    ParseStringifyMembers(ms[1..], rest);
    ConsTail(ms);
  }

  lemma Cons1(c: char, rest: string)
    ensures var s := [c] + rest; |s| > 0 && s[0] == c && s[1..] == rest
  {
  }

  lemma ConsTail<T>(s: seq<T>)
    requires |s| > 0
    ensures [s[0]] + s[1..] == s
  {
  }

  lemma Concat4(a: string, b: string, c: string, d: string)
    ensures a + b + c + d == a + (b + (c + d))
  {
  }

  lemma ParseMembersClose(m: Member, rest: string)
    ensures ParseMembersAfter(m, "}" + rest) == Some(([m], rest))
  {
    var u := "}" + rest;
    assert u[0] == '}' && u[1..] == rest;
  }

  lemma ParseMembersComma(m: Member, tail: string)
    requires |tail| > 0 && tail[0] == '"'
    ensures ParseMembersAfter(m, "," + tail) ==
      match ParseMembers(tail)
      case None => None
      case Some((ms, rest)) => Some(([m] + ms, rest))
  {
    var u := "," + tail;
    assert u[0] == ',' && u[1..] == tail;
    SkipSpaceNone(tail);
  }

  /** One member as written, followed by what comes after it in the object. */
  lemma {:induction false} ParseStringifyMember(m: Member, after: string)
    requires Canonical(m.value) && |after| > 0 && (after[0] == ',' || after[0] == '}')
    ensures ParseMembers(StringifyMember(m) + after) == ParseMembersAfter(m, after)
    decreases m, 0
  {
    assert m.value < m;
    var x := Stringify(m.value) + after;
    var t := ":" + x;
    assert StringifyMember(m) + after == Quote(m.key) + t;
    ParseMemberKey(m.key, t);
    FirstChar(m.value);
    assert x[0] == Stringify(m.value)[0];
    ParseStringify(m.value, after);
    ParseColon(m.key, x, m.value, after);
    SkipSpaceNone(after);
  }

  lemma ParseColon(key: string, x: string, v: Json, rest: string)
    requires |x| > 0 && !IsJsonSpace(x[0]) && ParseValue(x) == Some((v, rest))
    ensures ParseMemberValue(key, ":" + x) == ParseMembersAfter(Member(key, v), SkipSpace(rest))
  {
    var t := ":" + x;
    assert t[0] == ':' && t[1..] == x;
    SkipSpaceNone(x);
  }

  /** A quoted key and a colon: the member's value is read next. */
  lemma ParseMemberKey(key: string, t: string)
    requires |t| > 0 && t[0] == ':'
    ensures ParseMembers(Quote(key) + t) == ParseMemberValue(key, t)
  {
    var body := Escape(key) + "\"" + t;
    QuoteText(key, t);
    ParseEscape(key, t);
    ParseKeyThen(Quote(key) + t, body, key, t);
  }

  lemma QuoteText(key: string, t: string)
    ensures var s := Quote(key) + t; |s| > 0 && s[0] == '"' && s[1..] == Escape(key) + "\"" + t
  {
    var s := Quote(key) + t;
    assert s == "\"" + (Escape(key) + "\"" + t);
  }

  lemma ParseKeyThen(s: string, body: string, key: string, t: string)
    requires |s| > 0 && s[0] == '"' && s[1..] == body
    requires ParseStringBody(body) == Some((key, t))
    requires |t| > 0 && t[0] == ':'
    ensures ParseMembers(s) == ParseMemberValue(key, t)
  {
    SkipSpaceNone(t);
  }

  lemma MembersFirst(ms: seq<Member>)
    requires |ms| > 0
    ensures |StringifyMembers(ms)| > 0 && StringifyMembers(ms)[0] == '"'
  {
    var m := StringifyMember(ms[0]);
    assert m == "\"" + (Escape(ms[0].key) + "\"" + ":" + Stringify(ms[0].value));
  }

  /** `JSON.parse(JSON.stringify(v))` is `v` for every value `JSON.parse` can produce. */
  lemma ParseOfStringify(v: Json)
    requires Canonical(v)
    ensures Parse(Stringify(v)) == Some(v)
  {
    FirstChar(v);
    SkipSpaceNone(Stringify(v));
    ParseStringify(v, "");
    assert Stringify(v) + "" == Stringify(v);
  }

  /** `JSON.parse` reads an escaped UTF-16 surrogate pair as the one character it encodes. */
  lemma SurrogatePairEscape()
    ensures Parse("\"\\ud83d\\ude00\"") == Some(JString("\U{1F600}"))
  {
    var body := "\\ud83d\\ude00\"";
    assert HexValue(body[1..], 1) == 0xD83D;
    assert HexValue(body[1..], 7) == 0xDE00;
    assert Unescape(body[1..]) == Some(('\U{1F600}', 11));
    assert ParseStringBody(body[12..]) == Some(("", ""));
    assert body[0] == '\\' && body[1 + 11..] == body[12..];
    assert ['\U{1F600}'] + "" == "\U{1F600}";
    assert ParseStringBody(body) == Some(("\U{1F600}", ""));
    var text := "\"" + body;
    assert text[1..] == body;
    assert SkipSpace(text) == text;
    assert ParseValue(text) == Some((JString("\U{1F600}"), ""));
  }

  /** `JSON.stringify` never writes a tab: tabs inside strings are escaped. */
  lemma {:induction false} StringifyTabFree(v: Json)
    ensures Strings.Free(Stringify(v), '\t')
    decreases v
  {
    match v
    case JNumber(n) =>
      var m: nat := if n < 0 then -n else n;
      assert forall k :: 0 <= k < |NatString(m)| ==> IsDecimalDigit(NatString(m)[k]);
    case JArray(items) =>
      ItemsTabFree(items);
      FreeConcat3("[", StringifyItems(items), "]", '\t');
    case JObject(ms) =>
      MembersTabFree(ms);
      FreeConcat3("{", StringifyMembers(ms), "}", '\t');
    case _ =>
  }

  lemma FreeConcat3(a: string, b: string, c: string, x: char)
    requires Strings.Free(a, x) && Strings.Free(b, x) && Strings.Free(c, x)
    ensures Strings.Free(a + b + c, x)
  {
    var s := a + b + c;
    forall k | 0 <= k < |s| ensures s[k] != x {
      if k < |a| { assert s[k] == a[k]; }
      else if k < |a| + |b| { assert s[k] == b[k - |a|]; }
      else { assert s[k] == c[k - |a| - |b|]; }
    }
  }

  lemma {:induction false} ItemsTabFree(items: seq<Json>)
    ensures Strings.Free(StringifyItems(items), '\t')
    decreases items
  {
    if |items| == 1 {
      StringifyTabFree(items[0]);
    } else if |items| > 1 {
      StringifyTabFree(items[0]);
      ItemsTabFree(items[1..]);
      FreeConcat3(Stringify(items[0]), ",", StringifyItems(items[1..]), '\t');
    }
  }

  lemma {:induction false} MembersTabFree(ms: seq<Member>)
    ensures Strings.Free(StringifyMembers(ms), '\t')
    decreases ms
  {
    if |ms| > 0 {
      var m := ms[0];
      assert m.value < m;
      StringifyTabFree(m.value);
      FreeConcat3("\"", Escape(m.key), "\"", '\t');
      FreeConcat3(Quote(m.key), ":", Stringify(m.value), '\t');
      if |ms| > 1 {
        MembersTabFree(ms[1..]);
        FreeConcat3(StringifyMember(m), ",", StringifyMembers(ms[1..]), '\t');
      }
    }
  }

  // ---------------------------------------------------------------------------
  // Coercions

  /** The member `key` of an object's member list, or `undefined`. */
  function Lookup(ms: seq<Member>, key: string): Value
  {
    if |ms| == 0 then Undefined
    else if ms[0].key == key then Defined(ms[0].value)
    else Lookup(ms[1..], key)
  }

  /**
    `v[key]` for a key that only objects can have (such as `id` or `type`): the
    member of an object, `undefined` for any other value, and `None` for `null`,
    where the read throws a TypeError.
   */
  function PropertyOf(v: Json, key: string): Option<Value>
  {
    match v
    case JNull => None
    case JObject(ms) => Some(Lookup(ms, key))
    case _ => Some(Undefined)
  }

  /** How `Array.prototype.join` writes an element: `undefined` and `null` become empty. */
  function JoinText(v: Value): string
  {
    match v
    case Undefined => ""
    case Defined(j) => ElementText(j)
  }

  function ElementText(j: Json): string
    decreases j
  {
    match j
    case JNull => ""
    case JBool(b) => if b then "true" else "false"
    case JNumber(n) => IntString(n)
    case JString(s) => s
    case JArray(items) => ItemsText(items)
    case JObject(_) => "[object Object]"
  }

  /** An array converted to a string: its elements joined with commas. */
  function ItemsText(items: seq<Json>): string
    decreases items
  {
    if |items| == 0 then ""
    else if |items| == 1 then ElementText(items[0])
    else ElementText(items[0]) + "," + ItemsText(items[1..])
  }

  /** `String(v)`, the key under which `obj[v]` stores a value. */
  function PropertyKey(v: Value): string
  {
    match v
    case Undefined => "undefined"
    case Defined(JNull) => "null"
    case Defined(j) => ElementText(j)
  }

  /** JavaScript truthiness. */
  predicate Truthy(v: Value)
  {
    match v
    case Undefined => false
    case Defined(JNull) => false
    case Defined(JBool(b)) => b
    case Defined(JNumber(n)) => n != 0
    case Defined(JString(s)) => |s| > 0
    case Defined(_) => true
  }
}

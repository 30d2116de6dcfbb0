/**
  The tokenizer of the operation line codec. It is a cursor over one line: the
  regular expression `([^\t]+)(\t|$)` with the global flag, whose `lastIndex`
  advances with every match, and a `pos` field that remembers where the last
  token that was read successfully ended, for error messages.
 */
module Tokenizing {
  import opened Wrappers
  import opened Numbers
  import opened Json
  import opened Strings

  /** The field separator of the codec. */
  const TAB: char := '\t'

  /** `s.slice(start, end)`: negative bounds count from the end, and bounds are clamped to the string. */
  function Slice(s: string, start: int, end: int): (r: string)
    ensures |r| <= |s|
  {
    var from := if start < 0 then (if |s| + start < 0 then 0 else |s| + start)
                else if start > |s| then |s| else start;
    var to := if end < 0 then (if |s| + end < 0 then 0 else |s| + end)
              else if end > |s| then |s| else end;
    if from >= to then "" else s[from..to]
  }

  /** `s.slice(start)` */
  function SliceFrom(s: string, start: int): string
  {
    Slice(s, start, |s|)
  }

  /** The first position at or after `i` that holds no tab, or `|s|`. */
  function NextNonTab(s: string, i: nat): (k: nat)
    requires i <= |s|
    ensures i <= k <= |s|
    ensures forall j :: i <= j < k ==> s[j] == TAB
    ensures k < |s| ==> s[k] != TAB
    decreases |s| - i
  {
    if i == |s| || s[i] != TAB then i else NextNonTab(s, i + 1)
  }

  /** The end of the run of non-tab characters that starts at `k`. */
  function RunEnd(s: string, k: nat): (e: nat)
    requires k <= |s|
    ensures k <= e <= |s|
    ensures forall j :: k <= j < e ==> s[j] != TAB
    ensures e < |s| ==> s[e] == TAB
    decreases |s| - k
  {
    if k == |s| || s[k] == TAB then k else RunEnd(s, k + 1)
  }

  /**
    A successful match: where it starts (`match.index`), the captured token
    (`match[1]`) and where the whole match ends, the separator included
    (`match.index + match[0].length`, the new `lastIndex`).
   */
  datatype Match = Match(index: nat, token: string, end: nat)

  /**
    `re.exec(str)` with `re.lastIndex == from`: the token is the longest run of
    non-tab characters that starts at the first non-tab position at or after
    `from`; the match takes the tab that ends it, if any. No such position means
    no match.
   */
  function FindToken(s: string, from: nat): (m: Option<Match>)
    ensures m.Some? ==> from <= m.value.index && m.value.index + |m.value.token| <= m.value.end <= |s|
  {
    if from > |s| then None
    else
      var k := NextNonTab(s, from);
      if k == |s| then None
      else
        var e := RunEnd(s, k);
        Some(Match(k, s[k..e], if e < |s| then e + 1 else e))
  }

  /**
    What a match is: only tabs are skipped before it, the token is a non-empty
    run of non-tab characters of the line, and it stops at a tab or at the end
    of the line; without a match only tabs are left.
   */
  lemma FindTokenMeaning(s: string, from: nat)
    ensures FindToken(s, from).Some? ==>
      var m := FindToken(s, from).value;
      && |m.token| > 0 && Free(m.token, TAB)
      && m.token == s[m.index..m.index + |m.token|]
      && (forall j :: from <= j < m.index ==> s[j] == TAB)
      && (m.index + |m.token| < |s| ==> s[m.index + |m.token|] == TAB && m.end == m.index + |m.token| + 1)
      && (m.index + |m.token| == |s| ==> m.end == |s|)
    ensures FindToken(s, from).None? ==> forall j :: from <= j < |s| ==> s[j] == TAB
  {
    if from <= |s| {
      var k := NextNonTab(s, from);
      if k < |s| {
        var e := RunEnd(s, k);
        assert |s[k..e]| == e - k;
      }
    }
  }

  /** The token `getString` returns: a token that starts with a quote loses its first and last character. */
  function Unquote(t: string): string
  {
    if |t| > 0 && t[0] == '"' then Slice(t, 1, -1) else t
  }

  /** The state of a tokenizer: the regular expression's `lastIndex` and the `pos` field. */
  datatype Cursor = Cursor(lastIndex: nat, pos: int)

  /** A new tokenizer: `lastIndex` is 0 and `pos` is -1. */
  const Start: Cursor := Cursor(0, -1)

  /** The outcome of one read: what it returns or throws, and the tokenizer state after it. */
  datatype Read<+T> = Read(result: Result<T>, next: Cursor)

  /** `this.error(msg)`: the message quotes the line from `pos` on. */
  function Failure(s: string, c: Cursor, msg: string): Error
  {
    ParsingError(msg, SliceFrom(s, c.pos))
  }

  /** `getString()` */
  function ReadString(s: string, c: Cursor): (r: Read<string>)
    ensures r.result.Err? <==> FindToken(s, c.lastIndex).None?
    ensures r.result.Err? ==> r.result.error == Failure(s, c, "expected string") && r.next == Cursor(0, c.pos)
    ensures r.result.Ok? ==> r.result.value == Unquote(FindToken(s, c.lastIndex).value.token)
  {
    match FindToken(s, c.lastIndex)
    case None => Read(Err(Failure(s, c, "expected string")), Cursor(0, c.pos))
    case Some(m) => Read(Ok(Unquote(m.token)), Cursor(m.end, m.end))
  }

  /** `getNumber()`: `parseInt` never throws, so only a missing token is an error. */
  function ReadNumber(s: string, c: Cursor): (r: Read<Number>)
    ensures r.result.Err? <==> FindToken(s, c.lastIndex).None?
  {
    match FindToken(s, c.lastIndex)
    case None => Read(Err(Failure(s, c, "expected number")), Cursor(0, c.pos))
    case Some(m) => Read(Ok(ParseInt(m.token)), Cursor(m.end, m.end))
  }

  /** `getObject()`: a missing token or one `JSON.parse` rejects is an error. */
  function ReadObject(s: string, c: Cursor): (r: Read<Json>)
    ensures r.result.Err? <==> FindToken(s, c.lastIndex).None? || Parse(FindToken(s, c.lastIndex).value.token).None?
    ensures r.result.Err? ==> r.result.error == Failure(s, c, "expected object")
    ensures r.result.Ok? ==> Some(r.result.value) == Parse(FindToken(s, c.lastIndex).value.token)
  {
    match FindToken(s, c.lastIndex)
    case None => Read(Err(Failure(s, c, "expected object")), Cursor(0, c.pos))
    case Some(m) =>
      match Parse(m.token)
      case None => Read(Err(Failure(s, c, "expected object")), Cursor(m.end, c.pos))
      case Some(v) => Read(Ok(v), Cursor(m.end, m.end))
  }

  /** `getPath()`: a string split on dots. */
  function ReadPath(s: string, c: Cursor): (r: Read<seq<string>>)
    ensures r.next == ReadString(s, c).next
    ensures r.result.Ok? <==> ReadString(s, c).result.Ok?
  {
    var t := ReadString(s, c);
    match t.result
    case Err(e) => Read(Err(e), t.next)
    case Ok(str) => Read(Ok(Split(str, '.')), t.next)
  }

  class Tokenizer {
    const str: string
    var lastIndex: nat
    var pos: int

    constructor(str: string)
      ensures this.str == str && State() == Start
    {
      this.str := str;
      lastIndex := 0;
      pos := -1;
    }

    function State(): Cursor
      reads this
    {
      Cursor(lastIndex, pos)
    }

    /** `this.re.exec(this.str)`: a failed search sets `lastIndex` back to 0. */
    method Exec() returns (m: Option<Match>)
      modifies this
      ensures m == FindToken(str, old(lastIndex))
      ensures lastIndex == (if m.Some? then m.value.end else 0) && pos == old(pos)
    {
      m := FindToken(str, lastIndex);
      lastIndex := if m.Some? then m.value.end else 0;
    }

    method GetString() returns (r: Result<string>)
      modifies this
      ensures Read(r, State()) == ReadString(str, old(State()))
    {
      var match_ := Exec();
      if match_.None? {
        return Err(Failure(str, State(), "expected string"));
      }
      pos := match_.value.end;
      var s := match_.value.token;
      if s[0] == '"' {
        s := Slice(s, 1, -1);
      }
      r := Ok(s);
    }

    method GetNumber() returns (r: Result<Number>)
      modifies this
      ensures Read(r, State()) == ReadNumber(str, old(State()))
    {
      var match_ := Exec();
      if match_.None? {
        return Err(Failure(str, State(), "expected number"));
      }
      var number := ParseInt(match_.value.token);
      pos := match_.value.end;
      r := Ok(number);
    }

    method GetObject() returns (r: Result<Json>)
      modifies this
      ensures Read(r, State()) == ReadObject(str, old(State()))
    {
      var match_ := Exec();
      if match_.None? {
        return Err(Failure(str, State(), "expected object"));
      }
      var obj := Parse(match_.value.token);
      if obj.None? {
        return Err(Failure(str, State(), "expected object"));
      }
      pos := match_.value.end;
      r := Ok(obj.value);
    }

    method GetPath() returns (r: Result<seq<string>>)
      modifies this
      ensures Read(r, State()) == ReadPath(str, old(State()))
    {
      var s := GetString();
      if s.Err? {
        return Err(s.error);
      }
      r := Ok(Split(s.value, '.'));
    }
  }

  // ---------------------------------------------------------------------------
  // Reading a line made of fields

  /** A field the tokenizer reads back whole: not empty and without a tab. */
  predicate Field(t: string)
  {
    |t| > 0 && Free(t, TAB)
  }

  /** Fields the tokenizer reads back one by one. */
  predicate Tokens(fields: seq<string>)
  {
    |fields| >= 1 && forall k :: 0 <= k < |fields| ==> Field(fields[k])
  }

  lemma TokensCons(f: string, fields: seq<string>)
    requires Field(f) && (|fields| == 0 || Tokens(fields))
    ensures Tokens([f] + fields)
  {
    var all := [f] + fields;
    forall k | 0 <= k < |all| ensures Field(all[k]) {
      if k > 0 {
        assert all[k] == fields[k - 1];
      }
    }
  }

  /** Where field `i` starts in the fields joined with tabs. */
  function Offset(fields: seq<string>, i: nat): nat
    requires i <= |fields|
  {
    if i == 0 then 0 else |fields[0]| + 1 + Offset(fields[1..], i - 1)
  }

  /** Where the match of field `i` ends: after its tab, or at the end of the line for the last field. */
  function FieldEnd(fields: seq<string>, i: nat): nat
    requires i < |fields|
  {
    if i + 1 < |fields| then Offset(fields, i + 1) else |Join(fields, TAB)|
  }

  function ShiftMatch(m: Option<Match>, d: nat): Option<Match>
  {
    match m
    case None => None
    case Some(Match(index, token, end)) => Some(Match(index + d, token, end + d))
  }

  lemma {:induction false} NextNonTabShift(p: string, t: string, j: nat)
    requires j <= |t|
    ensures NextNonTab(p + t, |p| + j) == |p| + NextNonTab(t, j)
    decreases |t| - j
  {
    if j < |t| {
      assert (p + t)[|p| + j] == t[j];
      if t[j] == TAB {
        NextNonTabShift(p, t, j + 1);
      }
    }
  }

  lemma {:induction false} RunEndShift(p: string, t: string, k: nat)
    requires k <= |t|
    ensures RunEnd(p + t, |p| + k) == |p| + RunEnd(t, k)
    decreases |t| - k
  {
    if k < |t| {
      assert (p + t)[|p| + k] == t[k];
      if t[k] != TAB {
        RunEndShift(p, t, k + 1);
      }
    }
  }

  /** Text in front of the line moves every match by its length and changes nothing else. */
  lemma FindTokenShift(p: string, t: string, j: nat)
    requires j <= |t|
    ensures FindToken(p + t, |p| + j) == ShiftMatch(FindToken(t, j), |p|)
  {
    var s := p + t;
    NextNonTabShift(p, t, j);
    var k := NextNonTab(t, j);
    if k < |t| {
      RunEndShift(p, t, k);
      var e := RunEnd(t, k);
      assert s[|p| + k..|p| + e] == t[k..e];
    }
  }

  /** The first field of a line is its first token. */
  lemma FirstField(f: string, post: string)
    requires |f| > 0 && Free(f, TAB)
    requires |post| == 0 || post[0] == TAB
    ensures FindToken(f + post, 0) == Some(Match(0, f, if |post| > 0 then |f| + 1 else |f|))
  {
    var s := f + post;
    assert s[0] == f[0];
    assert NextNonTab(s, 0) == 0;
    RunEndAfter(f, post);
    assert s[0..|f|] == f;
  }

  lemma RunEndAfter(f: string, post: string)
    requires Free(f, TAB)
    requires |post| == 0 || post[0] == TAB
    ensures RunEnd(f + post, 0) == |f|
  {
    var s := f + post;
    assert forall j :: 0 <= j < |f| ==> s[j] == f[j];
    assert |post| > 0 ==> s[|f|] == post[0];
  }

  /** Reading a line of fields from the start of field `i` gives field `i` and moves to the next one. */
  lemma {:induction false} FieldAt(fields: seq<string>, i: nat)
    requires Tokens(fields) && i < |fields|
    ensures FindToken(Join(fields, TAB), Offset(fields, i)) == Some(Match(Offset(fields, i), fields[i], FieldEnd(fields, i)))
  {
    if |fields| == 1 {
      FirstField(fields[0], "");
      assert fields[0] + "" == fields[0];
    } else if i == 0 {
      HeadField(fields);
    } else {
      var rest := fields[1..];
      TokensTail(fields);
      FieldAt(rest, i - 1);
      LaterField(fields, i);
    }
  }

  lemma TokensTail(fields: seq<string>)
    requires Tokens(fields) && |fields| > 1
    ensures Tokens(fields[1..])
  {
    var rest := fields[1..];
    forall k | 0 <= k < |rest| ensures Field(rest[k]) {
      assert rest[k] == fields[k + 1];
    }
  }

  lemma HeadField(fields: seq<string>)
    requires Tokens(fields) && |fields| > 1
    ensures FindToken(Join(fields, TAB), 0) == Some(Match(0, fields[0], |fields[0]| + 1))
    ensures Offset(fields, 1) == |fields[0]| + 1
  {
    var t := Join(fields[1..], TAB);
    FirstField(fields[0], [TAB] + t);
    assert Join(fields, TAB) == fields[0] + ([TAB] + t);
    assert Offset(fields[1..], 0) == 0;
  }

  lemma LaterField(fields: seq<string>, i: nat)
    requires |fields| > 1 && 0 < i < |fields|
    requires FindToken(Join(fields[1..], TAB), Offset(fields[1..], i - 1))
      == Some(Match(Offset(fields[1..], i - 1), fields[1..][i - 1], FieldEnd(fields[1..], i - 1)))
    ensures FindToken(Join(fields, TAB), Offset(fields, i)) == Some(Match(Offset(fields, i), fields[i], FieldEnd(fields, i)))
  {
    var rest := fields[1..];
    var t := Join(rest, TAB);
    var p := fields[0] + [TAB];
    var o := Offset(rest, i - 1);
    var s := Join(fields, TAB);
    assert s == p + t;
    assert Offset(fields, i) == |p| + o;
    FindTokenShift(p, t, o);
    var m := FindToken(t, o);
    assert ShiftMatch(m, |p|) == Some(Match(|p| + o, rest[i - 1], |p| + FieldEnd(rest, i - 1)));
    assert fields[i] == rest[i - 1];
    if i + 1 < |fields| {
      assert Offset(fields, i + 1) == |p| + Offset(rest, i);
    } else {
      assert |s| == |p| + |t|;
    }
    assert FieldEnd(fields, i) == |p| + FieldEnd(rest, i - 1);
    assert FindToken(s, Offset(fields, i)) == FindToken(p + t, |p| + o);
  }

  /** Reading from `from` finds `token` and moves `lastIndex` to `end`. */
  predicate TokenAt(s: string, from: nat, token: string, end: nat)
  {
    FindToken(s, from).Some? && FindToken(s, from).value.token == token && FindToken(s, from).value.end == end
  }

  /** The three fields of a line are read one after the other. */
  lemma Line3(a: string, b: string, c: string) returns (e1: nat, e2: nat, e3: nat)
    requires Tokens([a, b, c])
    ensures TokenAt(Join([a, b, c], TAB), 0, a, e1)
    ensures TokenAt(Join([a, b, c], TAB), e1, b, e2)
    ensures TokenAt(Join([a, b, c], TAB), e2, c, e3)
    ensures e1 == |a| + 1 && e2 == |a| + |b| + 2
  {
    var fields := [a, b, c];
    e1, e2, e3 := Offset(fields, 1), Offset(fields, 2), FieldEnd(fields, 2);
    FieldAt(fields, 0);
    FieldAt(fields, 1);
    FieldAt(fields, 2);
  }

  /** The four fields of a line are read one after the other. */
  lemma Line4(a: string, b: string, c: string, d: string) returns (e1: nat, e2: nat, e3: nat, e4: nat)
    requires Tokens([a, b, c, d])
    ensures TokenAt(Join([a, b, c, d], TAB), 0, a, e1)
    ensures TokenAt(Join([a, b, c, d], TAB), e1, b, e2)
    ensures TokenAt(Join([a, b, c, d], TAB), e2, c, e3)
    ensures TokenAt(Join([a, b, c, d], TAB), e3, d, e4)
  {
    var fields := [a, b, c, d];
    e1, e2, e3, e4 := Offset(fields, 1), Offset(fields, 2), Offset(fields, 3), FieldEnd(fields, 3);
    assert TokenAt(Join(fields, TAB), 0, a, e1) by { FieldAt(fields, 0); }
    assert TokenAt(Join(fields, TAB), e1, b, e2) by { FieldAt(fields, 1); }
    assert TokenAt(Join(fields, TAB), e2, c, e3) by { FieldAt(fields, 2); }
    assert TokenAt(Join(fields, TAB), e3, d, e4) by { FieldAt(fields, 3); }
  }

  /** The five fields of a line are read one after the other. */
  lemma Line5(a: string, b: string, c: string, d: string, e: string) returns (e1: nat, e2: nat, e3: nat, e4: nat, e5: nat)
    requires Tokens([a, b, c, d, e])
    ensures TokenAt(Join([a, b, c, d, e], TAB), 0, a, e1)
    ensures TokenAt(Join([a, b, c, d, e], TAB), e1, b, e2)
    ensures TokenAt(Join([a, b, c, d, e], TAB), e2, c, e3)
    ensures TokenAt(Join([a, b, c, d, e], TAB), e3, d, e4)
    ensures TokenAt(Join([a, b, c, d, e], TAB), e4, e, e5)
  {
    var fields := [a, b, c, d, e];
    e1, e2, e3, e4, e5 := Offset(fields, 1), Offset(fields, 2), Offset(fields, 3), Offset(fields, 4), FieldEnd(fields, 4);
    assert TokenAt(Join(fields, TAB), 0, a, e1) by { FieldAt(fields, 0); }
    assert TokenAt(Join(fields, TAB), e1, b, e2) by { FieldAt(fields, 1); }
    assert TokenAt(Join(fields, TAB), e2, c, e3) by { FieldAt(fields, 2); }
    assert TokenAt(Join(fields, TAB), e3, d, e4) by { FieldAt(fields, 3); }
    assert TokenAt(Join(fields, TAB), e4, e, e5) by { FieldAt(fields, 4); }
  }

  /** After the last field the line has no token left. */
  lemma NoFieldAfter(s: string)
    ensures FindToken(s, |s|) == None
  {
  }
}

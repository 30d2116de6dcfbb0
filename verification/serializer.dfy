/**
  The operation line codec: a structural operation is written as one line of
  tab-separated fields and read back field by field through a `Tokenizer`.
 */
module Serializer {
  import opened Wrappers
  import opened Numbers
  import opened Json
  import opened Strings
  import opened Operations
  import opened Tokenizing

  // ---------------------------------------------------------------------------
  // Writing

  /** The opcode of a primitive edit: `t` or `a` for the kind of data, `+` or `-` for the edit. */
  function PrimitiveCode(d: PrimitiveOp): string
    requires !d.OtherDiff?
  {
    match d
    case TextOp(k, _, _) => if k == Insertion then "t+" else "t-"
    case ArrayOp(k, _, _) => if k == Insertion then "a+" else "a-"
  }

  /** The value a primitive edit carries: the text of a text edit, the element of an array edit. */
  function Payload(d: PrimitiveOp): Json
    requires !d.OtherDiff?
  {
    match d
    case TextOp(_, _, str) => str
    case ArrayOp(_, _, val) => val
  }

  /** `serializePrimitiveOp(op)`: opcode, position and JSON payload; any other kind of edit throws. */
  function SerializePrimitiveOp(d: PrimitiveOp): (r: Result<string>)
    ensures r.Err? <==> d.OtherDiff?
    ensures r.Err? ==> r.error == UnsupportedOperation
  {
    match d
    case OtherDiff => Err(UnsupportedOperation)
    case _ => Ok(Join([PrimitiveCode(d), NumberText(d.pos), Stringify(Payload(d))], TAB))
  }

  /** The text `op.val.id` adds to the line; `None` where `op.val` is `null` and reading `id` throws. */
  function IdText(val: Json): (t: Option<string>)
    ensures t.None? <==> val.JNull?
  {
    match PropertyOf(val, "id")
    case None => None
    case Some(id) => Some(JoinText(id))
  }

  /** A set's value as written: `undefined` is written as `null`, which JSON can express. */
  function ValueText(v: Value): string
  {
    match v
    case Undefined => "null"
    case Defined(j) => Stringify(j)
  }

  /** `serialize(op)`: one line of tab-separated fields, or the error the source throws. */
  function Serialize(op: ObjectOp): (r: Result<string>)
    ensures r.Err? <==> op.Other? || ((op.Create? || op.Delete?) && op.val.JNull?) || (op.Update? && op.diff.OtherDiff?)
    ensures r.Err? && (op.Other? || op.Update?) ==> r.error == UnsupportedOperation
    ensures r.Err? && (op.Create? || op.Delete?) ==> r.error == TypeError
  {
    match op
    case Create(_, val) =>
      (match IdText(val)
       case None => Err(TypeError)
       case Some(id) => Ok(Join(["c", id, Stringify(val)], TAB)))
    case Delete(_, val) =>
      (match IdText(val)
       case None => Err(TypeError)
       case Some(id) => Ok(Join(["d", id, Stringify(val)], TAB)))
    case Set(path, original, value) =>
      Ok(Join(["s", Join(path, '.'), ValueText(value), ValueText(original)], TAB))
    case Update(path, diff) =>
      (match SerializePrimitiveOp(diff)
       case Err(e) => Err(e)
       case Ok(d) => Ok(Join(["u", Join(path, '.'), d], TAB)))
    case Other(_) => Err(UnsupportedOperation)
  }

  // ---------------------------------------------------------------------------
  // Reading

  /** The opcodes of the primitive edits. */
  predicate IsPrimitiveCode(code: string)
  {
    code == "t+" || code == "t-" || code == "a+" || code == "a-"
  }

  function MakePrimitive(code: string, pos: Number, val: Json): PrimitiveOp
    requires IsPrimitiveCode(code)
  {
    if code == "t+" then TextOp(Insertion, pos, val)
    else if code == "t-" then TextOp(Deletion, pos, val)
    else if code == "a+" then ArrayOp(Insertion, pos, val)
    else ArrayOp(Deletion, pos, val)
  }

  /** `deserializePrimitiveOp(str, tokenizer)` as a function of the tokenizer state. */
  function DecodePrimitive(s: string, c: Cursor): (r: Read<PrimitiveOp>)
    ensures r.result.Ok? ==> !r.result.value.OtherDiff?
  {
    var t := ReadString(s, c);
    match t.result
    case Err(e) => Read(Err(e), t.next)
    case Ok(code) =>
      if IsPrimitiveCode(code) then
        var n := ReadNumber(s, t.next);
        match n.result
        case Err(e) => Read(Err(e), n.next)
        case Ok(pos) =>
          var v := ReadObject(s, n.next);
          match v.result
          case Err(e) => Read(Err(e), v.next)
          case Ok(val) => Read(Ok(MakePrimitive(code, pos, val)), v.next)
      else Read(Err(UnsupportedPrimitive(code)), t.next)
  }

  /**
    `deserialize(str, tokenizer)` as a function of the tokenizer state. An
    opcode other than `c`, `d`, `s` and `u` matches no case of the switch and
    gives `undefined`, modelled as `None`.
   */
  function DecodeOp(s: string, c: Cursor): (r: Read<Option<ObjectOp>>)
    ensures r.result.Ok? && r.result.value.Some? ==> !r.result.value.value.Other?
  {
    var t := ReadString(s, c);
    match t.result
    case Err(e) => Read(Err(e), t.next)
    case Ok(code) =>
      if code == "c" || code == "d" then DecodeNode(code == "c", s, t.next)
      else if code == "s" then DecodeSet(s, t.next)
      else if code == "u" then DecodeUpdate(s, t.next)
      else Read(Ok(None), t.next)
  }

  /** The `c` and `d` cases: a path, then the node data. */
  function DecodeNode(create: bool, s: string, c: Cursor): (r: Read<Option<ObjectOp>>)
    ensures r.result.Ok? ==> r.result.value.Some? && (if create then r.result.value.value.Create? else r.result.value.value.Delete?)
  {
    var p := ReadPath(s, c);
    match p.result
    case Err(e) => Read(Err(e), p.next)
    case Ok(path) =>
      var v := ReadObject(s, p.next);
      match v.result
      case Err(e) => Read(Err(e), v.next)
      case Ok(val) => Read(Ok(Some(if create then Create(path, val) else Delete(path, val))), v.next)
  }

  /** The `s` case: a path, the new value, then the old value. */
  function DecodeSet(s: string, c: Cursor): (r: Read<Option<ObjectOp>>)
    ensures r.result.Ok? ==> r.result.value.Some? && r.result.value.value.Set?
    ensures r.result.Ok? ==> r.result.value.value.original.Defined? && r.result.value.value.value.Defined?
  {
    var p := ReadPath(s, c);
    match p.result
    case Err(e) => Read(Err(e), p.next)
    case Ok(path) =>
      var v := ReadObject(s, p.next);
      match v.result
      case Err(e) => Read(Err(e), v.next)
      case Ok(val) =>
        var o := ReadObject(s, v.next);
        match o.result
        case Err(e) => Read(Err(e), o.next)
        case Ok(oldVal) => Read(Ok(Some(Set(path, Defined(oldVal), Defined(val)))), o.next)
  }

  /** The `u` case: a path, then a primitive edit. */
  function DecodeUpdate(s: string, c: Cursor): (r: Read<Option<ObjectOp>>)
    ensures r.result.Ok? ==> r.result.value.Some? && r.result.value.value.Update?
  {
    var p := ReadPath(s, c);
    match p.result
    case Err(e) => Read(Err(e), p.next)
    case Ok(path) =>
      var d := DecodePrimitive(s, p.next);
      match d.result
      case Err(e) => Read(Err(e), d.next)
      case Ok(diff) => Read(Ok(Some(Update(path, diff))), d.next)
  }

  /** `deserialize(str)` with a fresh tokenizer. */
  function Decode(s: string): Result<Option<ObjectOp>>
  {
    DecodeOp(s, Start).result
  }

  /** `deserialize(str)`: reads the line with a tokenizer of its own. */
  method Deserialize(str: string) returns (r: Result<Option<ObjectOp>>)
    ensures r == Decode(str)
  {
    var tokenizer := new Tokenizer(str);
    r := DeserializeFrom(tokenizer);
  }

  /** `deserialize(str, tokenizer)`: reads on from where the tokenizer stands. */
  method DeserializeFrom(tokenizer: Tokenizer) returns (r: Result<Option<ObjectOp>>)
    modifies tokenizer
    ensures Read(r, tokenizer.State()) == DecodeOp(tokenizer.str, old(tokenizer.State()))
  {
    var code := tokenizer.GetString();
    if code.Err? {
      return Err(code.error);
    }
    var opcode := code.value;
    if opcode == "c" || opcode == "d" {
      var path := tokenizer.GetPath();
      if path.Err? {
        return Err(path.error);
      }
      var val := tokenizer.GetObject();
      if val.Err? {
        return Err(val.error);
      }
      if opcode == "c" {
        r := Ok(Some(Create(path.value, val.value)));
      } else {
        r := Ok(Some(Delete(path.value, val.value)));
      }
    } else if opcode == "s" {
      var path := tokenizer.GetPath();
      if path.Err? {
        return Err(path.error);
      }
      var val := tokenizer.GetObject();
      if val.Err? {
        return Err(val.error);
      }
      var oldVal := tokenizer.GetObject();
      if oldVal.Err? {
        return Err(oldVal.error);
      }
      r := Ok(Some(Set(path.value, Defined(oldVal.value), Defined(val.value))));
    } else if opcode == "u" {
      var path := tokenizer.GetPath();
      if path.Err? {
        return Err(path.error);
      }
      var diff := DeserializePrimitiveFrom(tokenizer);
      if diff.Err? {
        return Err(diff.error);
      }
      r := Ok(Some(Update(path.value, diff.value)));
    } else {
      r := Ok(None);
    }
  }

  /** `deserializePrimitiveOp(str)`: reads the line with a tokenizer of its own. */
  method DeserializePrimitiveOp(str: string) returns (r: Result<PrimitiveOp>)
    ensures r == DecodePrimitive(str, Start).result
  {
    var tokenizer := new Tokenizer(str);
    r := DeserializePrimitiveFrom(tokenizer);
  }

  /** `deserializePrimitiveOp(str, tokenizer)` */
  method DeserializePrimitiveFrom(tokenizer: Tokenizer) returns (r: Result<PrimitiveOp>)
    modifies tokenizer
    ensures Read(r, tokenizer.State()) == DecodePrimitive(tokenizer.str, old(tokenizer.State()))
  {
    var code := tokenizer.GetString();
    if code.Err? {
      return Err(code.error);
    }
    var opcode := code.value;
    if IsPrimitiveCode(opcode) {
      var pos := tokenizer.GetNumber();
      if pos.Err? {
        return Err(pos.error);
      }
      var val := tokenizer.GetObject();
      if val.Err? {
        return Err(val.error);
      }
      r := Ok(MakePrimitive(opcode, pos.value, val.value));
    } else {
      r := Err(UnsupportedPrimitive(opcode));
    }
  }


  // ---------------------------------------------------------------------------
  // Reading a field of a line

  /** A field `getString` returns as it is: it does not start with a quote. */
  predicate Verbatim(t: string)
  {
    Field(t) && t[0] != '"'
  }

  /** A path whose dotted form reads back as the same path. */
  predicate WirePath(path: Path)
  {
    && |path| >= 1
    && (forall k :: 0 <= k < |path| ==> Free(path[k], '.'))
    && Verbatim(Join(path, '.'))
  }

  lemma Opcode(code: string)
    requires code == "c" || code == "d" || code == "s" || code == "u" || IsPrimitiveCode(code)
    ensures Verbatim(code) && Unquote(code) == code
  {
  }

  lemma Tokens3(a: string, b: string, c: string)
    requires Field(a) && Field(b) && Field(c)
    ensures Tokens([a, b, c])
  {
    TokensCons(c, []);
    assert [c] + [] == [c];
    TokensCons(b, [c]);
    assert [b] + [c] == [b, c];
    TokensCons(a, [b, c]);
    assert [a] + [b, c] == [a, b, c];
  }

  lemma Tokens4(a: string, b: string, c: string, d: string)
    requires Field(a) && Field(b) && Field(c) && Field(d)
    ensures Tokens([a, b, c, d])
  {
    Tokens3(b, c, d);
    TokensCons(a, [b, c, d]);
    assert [a] + [b, c, d] == [a, b, c, d];
  }

  lemma Tokens5(a: string, b: string, c: string, d: string, e: string)
    requires Field(a) && Field(b) && Field(c) && Field(d) && Field(e)
    ensures Tokens([a, b, c, d, e])
  {
    Tokens4(b, c, d, e);
    TokensCons(a, [b, c, d, e]);
    assert [a] + [b, c, d, e] == [a, b, c, d, e];
  }

  /** The JSON text of a canonical value is one field, and it parses back to the value. */
  lemma JsonField(v: Json)
    requires Canonical(v)
    ensures Field(Stringify(v)) && Parse(Stringify(v)) == Some(v)
  {
    StringifyTabFree(v);
    ParseOfStringify(v);
  }

  /** A printed number is one field, and `parseInt` reads it back. */
  lemma NumberField(x: Number)
    ensures Field(NumberText(x)) && ParseInt(NumberText(x)) == x
  {
    NumberTextRoundTrip(x);
    NumberTextFree(x);
  }

  lemma NumberTextFree(x: Number)
    ensures Field(NumberText(x))
  {
    match x
    case NaN =>
    case Finite(i) =>
      if i < 0 {
        var m: nat := -i;
        DigitsFree(NatString(m));
        SignFree(NatString(m));
      } else {
        DigitsFree(NatString(i));
      }
  }

  lemma DigitsFree(ds: string)
    requires forall k :: 0 <= k < |ds| ==> IsDecimalDigit(ds[k])
    ensures Free(ds, TAB)
  {
  }

  lemma SignFree(ds: string)
    requires Free(ds, TAB)
    ensures Free("-" + ds, TAB)
  {
    var s := "-" + ds;
    forall k | 0 <= k < |s| ensures s[k] != TAB {
      if k > 0 {
        assert s[k] == ds[k - 1];
      }
    }
  }

  /** The dotted form of a wire path splits back into the path. */
  lemma PathField(path: Path)
    requires WirePath(path)
    ensures Split(Join(path, '.'), '.') == path
  {
    SplitJoin(path, '.');
  }

  // ---------------------------------------------------------------------------
  // Round trips

  /** What a set's value reads back as: `undefined` was written as `null`. */
  function Written(v: Value): (j: Json)
    ensures v.Defined? ==> j == v.json
  {
    match v
    case Undefined => JNull
    case Defined(j) => j
  }

  predicate CanonicalValue(v: Value)
  {
    v.Defined? ==> Canonical(v.json)
  }

  lemma ValueField(v: Value)
    requires CanonicalValue(v)
    ensures Field(ValueText(v)) && Parse(ValueText(v)) == Some(Written(v))
  {
    if v.Defined? {
      JsonField(v.json);
    } else {
      JsonField(JNull);
    }
  }

  /** The first field of a line is read as the opcode that selects the case. */
  lemma DecodeHead(s: string, code: string, e1: nat)
    requires TokenAt(s, 0, code, e1) && (code == "c" || code == "d" || code == "s" || code == "u")
    ensures DecodeOp(s, Start) ==
      if code == "c" then DecodeNode(true, s, Cursor(e1, e1))
      else if code == "d" then DecodeNode(false, s, Cursor(e1, e1))
      else if code == "s" then DecodeSet(s, Cursor(e1, e1))
      else DecodeUpdate(s, Cursor(e1, e1))
  {
    Opcode(code);
  }

  lemma DecodeNodeAt(create: bool, s: string, id: string, data: string, e1: nat, e2: nat, e3: nat, val: Json)
    requires TokenAt(s, e1, id, e2) && TokenAt(s, e2, data, e3)
    requires Verbatim(id) && Parse(data) == Some(val)
    ensures DecodeNode(create, s, Cursor(e1, e1)).result
      == Ok(Some(if create then Create(Split(id, '.'), val) else Delete(Split(id, '.'), val)))
  {
  }

  /**
    A create or delete reads back with the same node data, under the path its
    `val.id` spells: the path of the operation itself is not written.
   */
  lemma NodeRoundTrip(op: ObjectOp)
    requires op.Create? || op.Delete?
    requires Canonical(op.val) && !op.val.JNull?
    requires Verbatim(IdText(op.val).value)
    ensures Serialize(op).Ok?
    ensures var path := Split(IdText(op.val).value, '.');
      Decode(Serialize(op).value) == Ok(Some(if op.Create? then Create(path, op.val) else Delete(path, op.val)))
  {
    var code := if op.Create? then "c" else "d";
    var id, data := IdText(op.val).value, Stringify(op.val);
    var s := Join([code, id, data], TAB);
    assert Serialize(op) == Ok(s);
    Opcode(code);
    JsonField(op.val);
    Tokens3(code, id, data);
    var e1, e2, e3 := Line3(code, id, data);
    DecodeHead(s, code, e1);
    DecodeNodeAt(op.Create?, s, id, data, e1, e2, e3, op.val);
  }

  lemma DecodeSetAt(s: string, p: string, v: string, o: string, e1: nat, e2: nat, e3: nat, e4: nat, val: Json, oldVal: Json)
    requires TokenAt(s, e1, p, e2) && TokenAt(s, e2, v, e3) && TokenAt(s, e3, o, e4)
    requires Verbatim(p) && Parse(v) == Some(val) && Parse(o) == Some(oldVal)
    ensures DecodeSet(s, Cursor(e1, e1)).result == Ok(Some(Set(Split(p, '.'), Defined(oldVal), Defined(val))))
  {
  }

  /**
    A set reads back with the same path, new value and old value, except that an
    `undefined` value comes back as `null`.
   */
  lemma SetRoundTrip(path: Path, original: Value, value: Value)
    requires WirePath(path) && CanonicalValue(original) && CanonicalValue(value)
    ensures Serialize(Set(path, original, value)).Ok?
    ensures Decode(Serialize(Set(path, original, value)).value)
      == Ok(Some(Set(path, Defined(Written(original)), Defined(Written(value)))))
  {
    var p, v, o := Join(path, '.'), ValueText(value), ValueText(original);
    var s := Join(["s", p, v, o], TAB);
    SetLine(path, original, value);
    Opcode("s");
    ValueField(value);
    ValueField(original);
    PathField(path);
    Tokens4("s", p, v, o);
    var e1, e2, e3, e4 := Line4("s", p, v, o);
    DecodeHead(s, "s", e1);
    DecodeSetAt(s, p, v, o, e1, e2, e3, e4, Written(value), Written(original));
  }

  lemma SetLine(path: Path, original: Value, value: Value)
    ensures Serialize(Set(path, original, value)) == Ok(Join(["s", Join(path, '.'), ValueText(value), ValueText(original)], TAB))
  {
  }

  lemma PrimitiveLine(d: PrimitiveOp)
    requires !d.OtherDiff?
    ensures SerializePrimitiveOp(d) == Ok(Join([PrimitiveCode(d), NumberText(d.pos), Stringify(Payload(d))], TAB))
  {
  }

  /** A set whose values are both defined reads back exactly. */
  lemma SetRoundTripDefined(path: Path, original: Json, value: Json)
    requires WirePath(path) && Canonical(original) && Canonical(value)
    ensures Serialize(Set(path, Defined(original), Defined(value))).Ok?
    ensures Decode(Serialize(Set(path, Defined(original), Defined(value))).value) == Ok(Some(Set(path, Defined(original), Defined(value))))
  {
    SetRoundTrip(path, Defined(original), Defined(value));
  }

  lemma PrimitiveFieldsOk(d: PrimitiveOp)
    requires !d.OtherDiff? && Canonical(Payload(d))
    ensures Verbatim(PrimitiveCode(d)) && IsPrimitiveCode(PrimitiveCode(d))
    ensures MakePrimitive(PrimitiveCode(d), d.pos, Payload(d)) == d
    ensures Field(NumberText(d.pos)) && ParseInt(NumberText(d.pos)) == d.pos
    ensures Field(Stringify(Payload(d))) && Parse(Stringify(Payload(d))) == Some(Payload(d))
  {
    Opcode(PrimitiveCode(d));
    JsonField(Payload(d));
    NumberField(d.pos);
  }

  /** Three fields read one after the other are read back as the primitive edit they encode. */
  lemma DecodePrimitiveAt(s: string, c: Cursor, code: string, n: string, j: string, e1: nat, e2: nat, e3: nat, pos: Number, val: Json)
    requires TokenAt(s, c.lastIndex, code, e1) && TokenAt(s, e1, n, e2) && TokenAt(s, e2, j, e3)
    requires Verbatim(code) && IsPrimitiveCode(code)
    requires ParseInt(n) == pos && Parse(j) == Some(val)
    ensures DecodePrimitive(s, c).result == Ok(MakePrimitive(code, pos, val))
  {
  }

  /** A text or array edit reads back as the same kind of edit, at the same position, with the same payload. */
  lemma PrimitiveRoundTrip(d: PrimitiveOp)
    requires !d.OtherDiff? && Canonical(Payload(d))
    ensures SerializePrimitiveOp(d).Ok?
    ensures DecodePrimitive(SerializePrimitiveOp(d).value, Start).result == Ok(d)
  {
    var code, n, j := PrimitiveCode(d), NumberText(d.pos), Stringify(Payload(d));
    var s := Join([code, n, j], TAB);
    PrimitiveLine(d);
    PrimitiveFieldsOk(d);
    Tokens3(code, n, j);
    var e1, e2, e3 := Line3(code, n, j);
    DecodePrimitiveAt(s, Start, code, n, j, e1, e2, e3, d.pos, Payload(d));
  }

  /** Writing the edit's fields into the update line is the same as writing all five fields at once. */
  lemma JoinNested(a: string, b: string, x: string, y: string, z: string)
    ensures Join([a, b, Join([x, y, z], TAB)], TAB) == Join([a, b, x, y, z], TAB)
  {
    var inner := Join([x, y, z], TAB);
    JoinCons(a, [b, inner], TAB);
    assert [a] + [b, inner] == [a, b, inner];
    JoinCons(b, [inner], TAB);
    assert [b] + [inner] == [b, inner];
    JoinCons(a, [b, x, y, z], TAB);
    assert [a] + [b, x, y, z] == [a, b, x, y, z];
    JoinCons(b, [x, y, z], TAB);
    assert [b] + [x, y, z] == [b, x, y, z];
  }

  lemma DecodeUpdateAt(s: string, p: string, code: string, n: string, j: string, e1: nat, e2: nat, e3: nat, e4: nat, e5: nat, d: PrimitiveOp)
    requires TokenAt(s, e1, p, e2) && TokenAt(s, e2, code, e3) && TokenAt(s, e3, n, e4) && TokenAt(s, e4, j, e5)
    requires Verbatim(p) && Verbatim(code) && IsPrimitiveCode(code)
    requires !d.OtherDiff? && MakePrimitive(code, d.pos, Payload(d)) == d
    requires ParseInt(n) == d.pos && Parse(j) == Some(Payload(d))
    ensures DecodeUpdate(s, Cursor(e1, e1)).result == Ok(Some(Update(Split(p, '.'), d)))
  {
    DecodePrimitiveAt(s, Cursor(e2, e2), code, n, j, e3, e4, e5, d.pos, Payload(d));
  }

  /** An update reads back with the same path and the same text or array edit. */
  lemma UpdateRoundTrip(path: Path, diff: PrimitiveOp)
    requires WirePath(path) && !diff.OtherDiff? && Canonical(Payload(diff))
    ensures Serialize(Update(path, diff)).Ok?
    ensures Decode(Serialize(Update(path, diff)).value) == Ok(Some(Update(path, diff)))
  {
    var p := Join(path, '.');
    var code, n, j := PrimitiveCode(diff), NumberText(diff.pos), Stringify(Payload(diff));
    var s := Join(["u", p, code, n, j], TAB);
    UpdateLine(path, diff);
    PrimitiveFieldsOk(diff);
    Opcode("u");
    PathField(path);
    Tokens5("u", p, code, n, j);
    var e1, e2, e3, e4, e5 := Line5("u", p, code, n, j);
    DecodeHead(s, "u", e1);
    DecodeUpdateAt(s, p, code, n, j, e1, e2, e3, e4, e5, diff);
  }

  // ---------------------------------------------------------------------------
  // Layout and errors

  lemma Free3(a: string, b: string, c: string, x: char)
    requires Free(a, x) && Free(b, x) && Free(c, x)
    ensures forall k :: 0 <= k < 3 ==> Free([a, b, c][k], x)
  {
  }

  lemma Free4(a: string, b: string, c: string, d: string, x: char)
    requires Free(a, x) && Free(b, x) && Free(c, x) && Free(d, x)
    ensures forall k :: 0 <= k < 4 ==> Free([a, b, c, d][k], x)
  {
  }

  lemma Free5(a: string, b: string, c: string, d: string, e: string, x: char)
    requires Free(a, x) && Free(b, x) && Free(c, x) && Free(d, x) && Free(e, x)
    ensures forall k :: 0 <= k < 5 ==> Free([a, b, c, d, e][k], x)
  {
  }

  /** The fields of a create or delete line: opcode, the text of `val.id`, the JSON of `val`. */
  lemma NodeLayout(op: ObjectOp)
    requires op.Create? || op.Delete?
    requires !op.val.JNull? && Free(IdText(op.val).value, TAB)
    ensures Serialize(op).Ok?
    ensures Split(Serialize(op).value, TAB) == [if op.Create? then "c" else "d", IdText(op.val).value, Stringify(op.val)]
  {
    var code := if op.Create? then "c" else "d";
    Opcode(code);
    StringifyTabFree(op.val);
    Free3(code, IdText(op.val).value, Stringify(op.val), TAB);
    SplitJoin([code, IdText(op.val).value, Stringify(op.val)], TAB);
  }

  lemma ValueTabFree(v: Value)
    ensures Free(ValueText(v), TAB)
  {
    if v.Defined? {
      StringifyTabFree(v.json);
    }
  }

  /** The fields of a set line: opcode, dotted path, new value, old value, with `null` for `undefined`. */
  lemma SetLayout(path: Path, original: Value, value: Value)
    requires forall k :: 0 <= k < |path| ==> Free(path[k], TAB)
    ensures Serialize(Set(path, original, value)).Ok?
    ensures Split(Serialize(Set(path, original, value)).value, TAB) == ["s", Join(path, '.'), ValueText(value), ValueText(original)]
  {
    SetLine(path, original, value);
    SetFieldsFree(path, original, value);
    Free4("s", Join(path, '.'), ValueText(value), ValueText(original), TAB);
    SplitJoin(["s", Join(path, '.'), ValueText(value), ValueText(original)], TAB);
  }

  lemma UpdateLine(path: Path, diff: PrimitiveOp)
    requires !diff.OtherDiff?
    ensures Serialize(Update(path, diff))
      == Ok(Join(["u", Join(path, '.'), PrimitiveCode(diff), NumberText(diff.pos), Stringify(Payload(diff))], TAB))
  {
    JoinNested("u", Join(path, '.'), PrimitiveCode(diff), NumberText(diff.pos), Stringify(Payload(diff)));
  }

  lemma UpdateFieldsFree(path: Path, diff: PrimitiveOp)
    requires forall k :: 0 <= k < |path| ==> Free(path[k], TAB)
    requires !diff.OtherDiff?
    ensures Free("u", TAB) && Free(Join(path, '.'), TAB) && Free(PrimitiveCode(diff), TAB)
    ensures Free(NumberText(diff.pos), TAB) && Free(Stringify(Payload(diff)), TAB)
  {
    Opcode("u");
    Opcode(PrimitiveCode(diff));
    JoinFree(path, '.', TAB);
    NumberTextFree(diff.pos);
    StringifyTabFree(Payload(diff));
  }

  lemma SetFieldsFree(path: Path, original: Value, value: Value)
    requires forall k :: 0 <= k < |path| ==> Free(path[k], TAB)
    ensures Free("s", TAB) && Free(Join(path, '.'), TAB) && Free(ValueText(value), TAB) && Free(ValueText(original), TAB)
  {
    Opcode("s");
    JoinFree(path, '.', TAB);
    ValueTabFree(value);
    ValueTabFree(original);
  }

  /** The fields of an update line: opcode, dotted path, then the opcode, position and payload of the edit. */
  lemma UpdateLayout(path: Path, diff: PrimitiveOp)
    requires forall k :: 0 <= k < |path| ==> Free(path[k], TAB)
    requires !diff.OtherDiff?
    ensures Serialize(Update(path, diff)).Ok?
    ensures Split(Serialize(Update(path, diff)).value, TAB)
      == ["u", Join(path, '.'), PrimitiveCode(diff), NumberText(diff.pos), Stringify(Payload(diff))]
  {
    var p := Join(path, '.');
    var code, n, j := PrimitiveCode(diff), NumberText(diff.pos), Stringify(Payload(diff));
    UpdateLine(path, diff);
    UpdateFieldsFree(path, diff);
    Free5("u", p, code, n, j, TAB);
    SplitJoin(["u", p, code, n, j], TAB);
  }

  /** A path segment holding a dot is written exactly like two segments: the line cannot tell them apart. */
  lemma DottedSegmentMerged(original: Value, value: Value)
    ensures Serialize(Set(["a.b"], original, value)) == Serialize(Set(["a", "b"], original, value))
  {
    assert ["a", "b"][1..] == ["b"];
    assert Join(["a", "b"], '.') == "a" + ['.'] + "b" == "a.b";
    SetLine(["a.b"], original, value);
    SetLine(["a", "b"], original, value);
  }

  /** A line whose first field is no known opcode reads as `undefined`, not as an error. */
  lemma UnknownOpcode(s: string)
    requires FindToken(s, 0).Some?
    requires var code := Unquote(FindToken(s, 0).value.token); code != "c" && code != "d" && code != "s" && code != "u"
    ensures Decode(s) == Ok(None)
  {
  }

  /** An update whose edit has an unknown opcode fails with that opcode. */
  lemma UnknownPrimitive(path: Path, code: string, rest: string)
    requires WirePath(path) && Verbatim(code) && !IsPrimitiveCode(code) && Field(rest)
    ensures Decode(Join(["u", Join(path, '.'), code, rest], TAB)) == Err(UnsupportedPrimitive(code))
  {
    var p := Join(path, '.');
    var s := Join(["u", p, code, rest], TAB);
    Opcode("u");
    Tokens4("u", p, code, rest);
    var e1, e2, e3, e4 := Line4("u", p, code, rest);
    DecodeHead(s, "u", e1);
  }

  /** A line without any token fails at its first read, quoting the last character of the line. */
  lemma EmptyLine(s: string)
    requires forall k :: 0 <= k < |s| ==> s[k] == TAB
    ensures Decode(s) == Err(ParsingError("expected string", SliceFrom(s, -1)))
  {
    assert NextNonTab(s, 0) == |s|;
  }

  /** Node data that is not JSON fails the read that expects an object, quoting the line from the data on. */
  lemma NotJson(create: bool, id: string, data: string)
    requires Verbatim(id) && Field(data) && Parse(data).None?
    ensures Decode(Join([if create then "c" else "d", id, data], TAB)) == Err(ParsingError("expected object", data))
  {
    var code := if create then "c" else "d";
    var s := Join([code, id, data], TAB);
    Opcode(code);
    Tokens3(code, id, data);
    var e1, e2, e3 := Line3(code, id, data);
    DecodeHead(s, code, e1);
    assert [code, id, data][1..] == [id, data] && [id, data][1..] == [data];
    assert Join([id, data], TAB) == id + [TAB] + data;
    assert s == code + [TAB] + Join([id, data], TAB);
    assert SliceFrom(s, e2) == data;
  }
}

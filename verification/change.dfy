/**
  The change record: a list of structural operations with the selection state
  before and after it, a lifecycle state, and three lookup tables derived from
  the operations in one pass: the nodes the change leaves created, the nodes it
  leaves deleted, and the property operations recorded per path.
 */
module Changes {
  import opened Wrappers
  import opened Json
  import opened Operations

  const PROVISIONAL := 1
  const FINAL := 2
  const PENDING := 3
  const ACKNOWLEDGED := 4

  /** The `_state` field: a number, or `undefined`. */
  datatype StateField = StateUndefined | StateCode(code: int)

  /** The record `toJSON` returns and the single-object constructor reads. */
  datatype ChangeData = ChangeData(
    id: Value,
    state: StateField,
    ops: seq<ObjectOp>,
    before: Value,
    after: Value,
    timestamp: Option<int>,
    userId: Value,
    data: Value)

  /** How the constructor was called: with `(ops, before, after)`, with one record, or otherwise. */
  datatype ChangeArgs =
    | Parts(ops: seq<ObjectOp>, before: Value, after: Value)
    | Restore(record: ChangeData)
    | Illegal

  /**
    The three derived tables: `created` and `deleted` map a node id to the node
    data of its create or delete; `updated` maps a property path to the set and
    update operations recorded under it, in order.
   */
  datatype Tables = Tables(
    created: map<string, Json>,
    deleted: map<string, Json>,
    updated: map<Path, seq<ObjectOp>>)

  const NoTables := Tables(map[], map[], map[])

  // ---------------------------------------------------------------------------
  // The derivation, one operation at a time

  /** `updated.add(path, op)`: append `op` to the list recorded under `path`. */
  function AddUpdate(u: map<Path, seq<ObjectOp>>, p: Path, op: ObjectOp): map<Path, seq<ObjectOp>>
  {
    u[p := (if p in u then u[p] else []) + [op]]
  }

  /** `delete updated[id]`: drop every path on node `id`. */
  function WithoutNode(u: map<Path, seq<ObjectOp>>, id: string): map<Path, seq<ObjectOp>>
  {
    map p | p in u && (|p| == 0 || p[0] != id) :: u[p]
  }

  /**
    One turn of the derivation loop. A create or delete whose node data is
    `null` fails, because reading `id` of `null` throws.
   */
  function Step(t: Tables, op: ObjectOp): Result<Tables>
  {
    match op
    case Create(_, val) =>
      (match NodeKey(val)
       case None => Err(TypeError)
       case Some(k) => Ok(Tables(t.created[k := val], t.deleted - {k}, t.updated)))
    case Delete(_, val) =>
      (match NodeKey(val)
       case None => Err(TypeError)
       case Some(k) => Ok(Tables(t.created - {k}, t.deleted[k := val], WithoutNode(t.updated, k))))
    case Set(path, _, _) => Ok(Tables(t.created, t.deleted, AddUpdate(t.updated, path, op)))
    case Update(path, _) => Ok(Tables(t.created, t.deleted, AddUpdate(t.updated, path, op)))
    case Other(_) => Ok(t)
  }

  /** The tables after running the loop over all of `ops`, or the error it stops with. */
  function Derive(ops: seq<ObjectOp>): Result<Tables>
    decreases |ops|
  {
    if |ops| == 0 then Ok(NoTables)
    else
      match Derive(ops[..|ops| - 1])
      case Err(e) => Err(e)
      case Ok(t) => Step(t, ops[|ops| - 1])
  }

  // ---------------------------------------------------------------------------
  // Reference definitions of what the tables hold

  /** No create or delete carries `null` node data. */
  predicate WellKeyed(ops: seq<ObjectOp>)
  {
    forall k :: 0 <= k < |ops| && IsNodeOp(ops[k]) ==> !ops[k].val.JNull?
  }

  predicate OnNode(op: ObjectOp, id: string)
  {
    IsNodeOp(op) && NodeKey(op.val) == Some(id)
  }

  /** The index of the last create or delete of node `id`, if any. */
  function LastNodeOp(ops: seq<ObjectOp>, id: string): (r: Option<nat>)
    ensures r.Some? ==> r.value < |ops| && OnNode(ops[r.value], id)
    ensures r.Some? ==> forall j :: r.value < j < |ops| ==> !OnNode(ops[j], id)
    ensures r.None? ==> forall j :: 0 <= j < |ops| ==> !OnNode(ops[j], id)
    decreases |ops|
  {
    if |ops| == 0 then None
    else if OnNode(ops[|ops| - 1], id) then Some(|ops| - 1)
    else LastNodeOp(ops[..|ops| - 1], id)
  }

  /** A delete of the node a path lies on. */
  predicate DeletesNode(op: ObjectOp, p: Path)
  {
    op.Delete? && |p| >= 1 && NodeKey(op.val) == Some(p[0])
  }

  /** The position just after the last delete of the node `p` lies on, or 0. */
  function Cut(ops: seq<ObjectOp>, p: Path): (r: nat)
    ensures r <= |ops|
    ensures r > 0 ==> DeletesNode(ops[r - 1], p)
    ensures forall j :: r <= j < |ops| ==> !DeletesNode(ops[j], p)
    decreases |ops|
  {
    if |ops| == 0 then 0
    else if DeletesNode(ops[|ops| - 1], p) then |ops|
    else Cut(ops[..|ops| - 1], p)
  }

  predicate EditsPath(op: ObjectOp, p: Path)
  {
    IsPropertyOp(op) && op.path == p
  }

  /** The set and update operations on `p`, in order. */
  function EditsOn(ops: seq<ObjectOp>, p: Path): (r: seq<ObjectOp>)
    ensures forall x :: x in r ==> x in ops && EditsPath(x, p)
    ensures forall k :: 0 <= k < |ops| && EditsPath(ops[k], p) ==> ops[k] in r
    decreases |ops|
  {
    if |ops| == 0 then []
    else
      var init := EditsOn(ops[..|ops| - 1], p);
      assert forall k :: 0 <= k < |ops| - 1 ==> ops[k] == ops[..|ops| - 1][k];
      if EditsPath(ops[|ops| - 1], p) then init + [ops[|ops| - 1]] else init
  }

  predicate IsPrefix(p: Path, q: Path)
  {
    |p| <= |q| && q[..|p|] == p
  }

  /** `!!updated.get(path)`: some recorded path lies at or below `path`. */
  predicate Affected(u: map<Path, seq<ObjectOp>>, path: Path)
  {
    exists q :: q in u && IsPrefix(path, q)
  }

  // ---------------------------------------------------------------------------
  // The derivation against the reference definitions

  /** The derivation succeeds exactly when no create or delete has `null` data, and otherwise throws a TypeError. */
  lemma {:induction false} DeriveOk(ops: seq<ObjectOp>)
    ensures Derive(ops).Ok? <==> WellKeyed(ops)
    ensures Derive(ops).Err? ==> Derive(ops).error == TypeError
    decreases |ops|
  {
    if |ops| > 0 {
      var init := ops[..|ops| - 1];
      DeriveOk(init);
      assert forall k :: 0 <= k < |init| ==> init[k] == ops[k];
      if WellKeyed(ops) {
        assert WellKeyed(init);
      }
    }
  }

  /** Once the loop has thrown, the operations after the failing one do not matter. */
  lemma {:induction false} DeriveErrPrefix(ops: seq<ObjectOp>, n: nat)
    requires n <= |ops|
    requires Derive(ops[..n]).Err?
    ensures Derive(ops) == Derive(ops[..n])
    decreases |ops| - n
  {
    if n < |ops| {
      var next := ops[..n + 1];
      assert next[..n] == ops[..n];
      assert Derive(next) == Derive(ops[..n]);
      DeriveErrPrefix(ops, n + 1);
    } else {
      assert ops[..n] == ops;
    }
  }

  /**
    `created` holds exactly the nodes whose last create or delete is a create,
    with that create's data; `deleted` holds exactly those whose last one is a
    delete, with that delete's data.
   */
  lemma {:induction false} NodeTables(ops: seq<ObjectOp>, id: string)
    requires WellKeyed(ops)
    ensures Derive(ops).Ok?
    ensures LastNodeOp(ops, id).None? ==>
      id !in Derive(ops).value.created && id !in Derive(ops).value.deleted
    ensures LastNodeOp(ops, id).Some? && ops[LastNodeOp(ops, id).value].Create? ==>
      id in Derive(ops).value.created && id !in Derive(ops).value.deleted &&
      Derive(ops).value.created[id] == ops[LastNodeOp(ops, id).value].val
    ensures LastNodeOp(ops, id).Some? && ops[LastNodeOp(ops, id).value].Delete? ==>
      id in Derive(ops).value.deleted && id !in Derive(ops).value.created &&
      Derive(ops).value.deleted[id] == ops[LastNodeOp(ops, id).value].val
    decreases |ops|
  {
    DeriveOk(ops);
    if |ops| > 0 {
      var init := ops[..|ops| - 1];
      var x := ops[|ops| - 1];
      assert forall k :: 0 <= k < |init| ==> init[k] == ops[k];
      assert WellKeyed(init);
      NodeTables(init, id);
      DeriveOk(init);
      var t := Derive(init).value;
      assert Derive(ops) == Step(t, x);
      NodeStep(t, x, id);
    }
  }

  /** How one turn of the loop changes what `created` and `deleted` hold for one node. */
  lemma NodeStep(t: Tables, x: ObjectOp, id: string)
    requires Step(t, x).Ok?
    ensures !OnNode(x, id) ==>
      (id in Step(t, x).value.created <==> id in t.created) &&
      (id in Step(t, x).value.deleted <==> id in t.deleted)
    ensures !OnNode(x, id) && id in t.created ==> Step(t, x).value.created[id] == t.created[id]
    ensures !OnNode(x, id) && id in t.deleted ==> Step(t, x).value.deleted[id] == t.deleted[id]
    ensures OnNode(x, id) && x.Create? ==>
      id in Step(t, x).value.created && id !in Step(t, x).value.deleted &&
      Step(t, x).value.created[id] == x.val
    ensures OnNode(x, id) && x.Delete? ==>
      id in Step(t, x).value.deleted && id !in Step(t, x).value.created &&
      Step(t, x).value.deleted[id] == x.val
  {
  }

  lemma SliceSnoc(ops: seq<ObjectOp>, c: nat)
    requires c < |ops|
    ensures ops[c..] == ops[..|ops| - 1][c..] + [ops[|ops| - 1]]
  {
  }

  lemma EditsOnSnoc(s: seq<ObjectOp>, x: ObjectOp, p: Path)
    ensures EditsOn(s + [x], p) == EditsOn(s, p) + (if EditsPath(x, p) then [x] else [])
  {
    assert (s + [x])[..|s|] == s;
  }

  /** How one turn of the loop changes what `updated` holds under one path. */
  lemma UpdatedStep(t: Tables, x: ObjectOp, p: Path)
    requires Step(t, x).Ok?
    ensures DeletesNode(x, p) ==> p !in Step(t, x).value.updated
    ensures !DeletesNode(x, p) ==>
      (p in Step(t, x).value.updated <==> p in t.updated || EditsPath(x, p))
    ensures !DeletesNode(x, p) && p in Step(t, x).value.updated ==>
      Step(t, x).value.updated[p] ==
        (if p in t.updated then t.updated[p] else []) + (if EditsPath(x, p) then [x] else [])
  {
  }

  /**
    `updated` records under a path exactly the set and update operations on it
    that come after the last delete of its node, and no path whose list would
    be empty.
   */
  lemma {:induction false} UpdatedTable(ops: seq<ObjectOp>, p: Path)
    requires WellKeyed(ops)
    ensures Derive(ops).Ok?
    ensures p in Derive(ops).value.updated <==> |EditsOn(ops[Cut(ops, p)..], p)| > 0
    ensures p in Derive(ops).value.updated ==>
      Derive(ops).value.updated[p] == EditsOn(ops[Cut(ops, p)..], p)
    decreases |ops|
  {
    DeriveOk(ops);
    if |ops| > 0 {
      var init := ops[..|ops| - 1];
      var x := ops[|ops| - 1];
      assert forall k :: 0 <= k < |init| ==> init[k] == ops[k];
      assert WellKeyed(init);
      UpdatedTable(init, p);
      DeriveOk(init);
      var t := Derive(init).value;
      assert Derive(ops) == Step(t, x);
      UpdatedStep(t, x, p);
      if DeletesNode(x, p) {
        assert ops[Cut(ops, p)..] == [];
      } else {
        var c := Cut(init, p);
        assert Cut(ops, p) == c;
        SliceSnoc(ops, c);
        EditsOnSnoc(init[c..], x, p);
      }
    }
  }

  lemma CutBefore(ops: seq<ObjectOp>, p: Path, j: nat)
    requires j < |ops| && !DeletesNode(ops[j], p)
    requires forall l :: j < l < |ops| ==> !DeletesNode(ops[l], p)
    ensures Cut(ops, p) <= j
  {
  }

  lemma EditIncluded(s: seq<ObjectOp>, k: nat, p: Path)
    requires k < |s| && EditsPath(s[k], p)
    ensures |EditsOn(s, p)| > 0
  {
    assert s[k] in EditsOn(s, p);
  }

  /** A set or update that no later delete of its node undoes leaves its path affected. */
  lemma AffectedByEdit(ops: seq<ObjectOp>, j: nat)
    requires WellKeyed(ops)
    requires j < |ops| && IsPropertyOp(ops[j])
    requires forall l :: j < l < |ops| ==> !DeletesNode(ops[l], ops[j].path)
    ensures Derive(ops).Ok?
    ensures Affected(Derive(ops).value.updated, ops[j].path)
  {
    var p := ops[j].path;
    CutBefore(ops, p, j);
    var c := Cut(ops, p);
    EditIncluded(ops[c..], j - c, p);
    UpdatedTable(ops, p);
    assert IsPrefix(p, p);
  }

  /** A path that no set or update reaches, at or below it, is not affected. */
  lemma NotAffectedWithoutEdits(ops: seq<ObjectOp>, path: Path)
    requires WellKeyed(ops)
    requires forall j :: 0 <= j < |ops| && IsPropertyOp(ops[j]) ==> !IsPrefix(path, ops[j].path)
    ensures Derive(ops).Ok?
    ensures !Affected(Derive(ops).value.updated, path)
  {
    DeriveOk(ops);
    var u := Derive(ops).value.updated;
    forall q | q in u
      ensures !IsPrefix(path, q)
    {
      UpdatedTable(ops, q);
      var e := EditsOn(ops[Cut(ops, q)..], q);
      assert e[0] in e;
      assert e[0] in ops;
    }
  }

  /** Inverting the operations keeps every create's and delete's node data, so it keeps the derivation from failing. */
  lemma InvertWellKeyed(ops: seq<ObjectOp>)
    ensures WellKeyed(InvertAll(ops)) <==> WellKeyed(ops)
  {
    var inv := InvertAll(ops);
    if WellKeyed(ops) {
      forall k | 0 <= k < |inv| && IsNodeOp(inv[k])
        ensures !inv[k].val.JNull?
      {
        assert inv[k] == Invert(ops[|ops| - 1 - k]);
      }
    }
    if WellKeyed(inv) {
      forall k | 0 <= k < |ops| && IsNodeOp(ops[k])
        ensures !ops[k].val.JNull?
      {
        assert inv[|ops| - 1 - k] == Invert(ops[k]);
      }
    }
  }

  // ---------------------------------------------------------------------------
  // The change object

  class DocumentChange {
    const id: Value
    var state: StateField
    const ops: seq<ObjectOp>
    const before: Value
    const after: Value
    var timestamp: Option<int>
    const userId: Value
    const data: Value
    /** Set by `Object.freeze(this)`; any later assignment to a field throws. */
    var frozen: bool
    var created: map<string, Json>
    var deleted: map<string, Json>
    var updated: map<Path, seq<ObjectOp>>

    /** The fields one of the two constructor modes assigns; the tables start out empty. */
    constructor (id: Value, state: StateField, ops: seq<ObjectOp>, before: Value, after: Value,
                 timestamp: Option<int>, userId: Value, data: Value)
      ensures Fields() == ChangeData(id, state, ops, before, after, timestamp, userId, data)
      ensures !frozen && created == map[] && deleted == map[] && updated == map[]
    {
      this.id := id;
      this.state := state;
      this.ops := ops;
      this.before := before;
      this.after := after;
      this.timestamp := timestamp;
      this.userId := userId;
      this.data := data;
      frozen := false;
      created := map[];
      deleted := map[];
      updated := map[];
    }

    function Fields(): ChangeData
      reads this
    {
      ChangeData(id, state, ops, before, after, timestamp, userId, data)
    }

    /** The tables agree with the derivation over the change's own operations. */
    predicate Valid()
      reads this
    {
      Derive(ops) == Ok(Tables(created, deleted, updated))
    }

    /** `Object.freeze(this)` */
    method Freeze()
      modifies this
      ensures frozen
      ensures Fields() == old(Fields())
      ensures created == old(created) && deleted == old(deleted) && updated == old(updated)
    {
      frozen := true;
    }

    /** `this.updated = null; this.created = null; this.deleted = null;` */
    method ClearTables() returns (o: Outcome)
      modifies this
      ensures old(frozen) ==> o == Fail(TypeError) && unchanged(this)
      ensures !old(frozen) ==> o == Pass && created == map[] && deleted == map[] && updated == map[]
      ensures frozen == old(frozen) && Fields() == old(Fields())
    {
      if frozen {
        return Fail(TypeError);
      }
      updated := map[];
      created := map[];
      deleted := map[];
      o := Pass;
    }

    /**
      `_init`: one pass over the operations filling three local tables, which
      are then stored in the change. It throws where the loop reads the `id`
      of `null` node data, or where the change is frozen.
     */
    method Init() returns (o: Outcome)
      modifies this
      ensures Derive(ops).Err? ==> o == Fail(Derive(ops).error) && unchanged(this)
      ensures Derive(ops).Ok? && old(frozen) ==> o == Fail(TypeError) && unchanged(this)
      ensures Derive(ops).Ok? && !old(frozen) ==> o == Pass && Valid()
      ensures frozen == old(frozen) && Fields() == old(Fields())
    {
      var c: map<string, Json> := map[];
      var d: map<string, Json> := map[];
      var u: map<Path, seq<ObjectOp>> := map[];
      var i := 0;
      while i < |ops|
        invariant 0 <= i <= |ops|
        invariant Derive(ops[..i]) == Ok(Tables(c, d, u))
      {
        var op := ops[i];
        assert ops[..i + 1][..i] == ops[..i];
        if op.Create? {
          var key := NodeKey(op.val);
          if key.None? {
            DeriveErrPrefix(ops, i + 1);
            return Fail(TypeError);
          }
          c := c[key.value := op.val];
          d := d - {key.value};
        }
        if op.Delete? {
          var key := NodeKey(op.val);
          if key.None? {
            DeriveErrPrefix(ops, i + 1);
            return Fail(TypeError);
          }
          c := c - {key.value};
          u := WithoutNode(u, key.value);
          d := d[key.value := op.val];
        }
        if op.Set? || op.Update? {
          u := AddUpdate(u, op.path, op);
        }
        i := i + 1;
      }
      assert ops[..|ops|] == ops;
      if frozen {
        return Fail(TypeError);
      }
      created := c;
      deleted := d;
      updated := u;
      o := Pass;
    }

    /** `change.timestamp = t`, which throws on a frozen change. */
    method SetTimestamp(t: int) returns (o: Outcome)
      modifies this
      ensures old(frozen) ==> o == Fail(TypeError) && unchanged(this)
      ensures !old(frozen) ==> o == Pass && timestamp == Some(t)
      ensures !old(frozen) ==> state == old(state) && frozen == old(frozen)
      ensures !old(frozen) ==> created == old(created) && deleted == old(deleted) && updated == old(updated)
    {
      if frozen {
        return Fail(TypeError);
      }
      timestamp := Some(t);
      o := Pass;
    }

    /** `change._state = s`, which throws on a frozen change. */
    method SetState(s: StateField) returns (o: Outcome)
      modifies this
      ensures old(frozen) ==> o == Fail(TypeError) && unchanged(this)
      ensures !old(frozen) ==> o == Pass && state == s
      ensures !old(frozen) ==> timestamp == old(timestamp) && frozen == old(frozen)
      ensures !old(frozen) ==> created == old(created) && deleted == old(deleted) && updated == old(updated)
    {
      if frozen {
        return Fail(TypeError);
      }
      state := s;
      o := Pass;
    }

    predicate IsFinal()
      reads this
    {
      state.StateCode? && state.code >= FINAL
    }

    predicate IsPending()
      reads this
    {
      state == StateCode(PENDING)
    }

    predicate IsAcknowledged()
      reads this
    {
      state == StateCode(ACKNOWLEDGED)
    }

    predicate IsAffected(path: Path)
      reads this
    {
      Affected(updated, path)
    }

    /** The same function as `IsAffected`. */
    predicate IsUpdated(path: Path)
      reads this
    {
      IsAffected(path)
    }

    /** `toJSON`: id, state, before, ops and after; timestamp, user and data are not written. */
    function ToJson(): ChangeData
      reads this
    {
      ChangeData(id, state, ops, before, after, None, Undefined, Undefined)
    }

    /**
      The constructor, in the order the fields are frozen in the corrected
      single-object mode: the tables are derived before `Object.freeze`.
      `freshId` is the value `uuid()` returns; only the three-argument mode
      draws one.
     */
    static method New(args: ChangeArgs, freshId: string) returns (r: Result<DocumentChange>)
      ensures args.Illegal? ==> r == Err(IllegalArguments)
      ensures args.Parts? ==> (r.Ok? <==> WellKeyed(args.ops))
      ensures args.Restore? ==> (r.Ok? <==> WellKeyed(args.record.ops))
      ensures r.Err? && !args.Illegal? ==> r.error == TypeError
      ensures r.Ok? ==> fresh(r.value) && r.value.Valid()
      ensures r.Ok? && args.Parts? ==>
        r.value.Fields() == ChangeData(Defined(JString(freshId)), StateCode(PROVISIONAL),
                                       args.ops, args.before, args.after, None, Undefined, Undefined) &&
        !r.value.frozen
      ensures r.Ok? && args.Restore? ==> r.value.Fields() == args.record && r.value.frozen
    {
      var c: DocumentChange;
      match args {
        case Illegal => return Err(IllegalArguments);
        case Parts(ops, before, after) =>
          c := new DocumentChange(Defined(JString(freshId)), StateCode(PROVISIONAL), ops, before, after,
                                  None, Undefined, Undefined);
        case Restore(d) =>
          c := new DocumentChange(d.id, d.state, d.ops, d.before, d.after, d.timestamp, d.userId, d.data);
      }
      var o := c.ClearTables();
      o := c.Init();
      DeriveOk(c.ops);
      if o.Fail? {
        return Err(o.error);
      }
      if args.Restore? {
        c.Freeze();
      }
      r := Ok(c);
    }

    /**
      The constructor as written: the single-object mode freezes the change and
      then assigns `this.updated = null` in strict mode, which throws.
     */
    static method NewAsWritten(args: ChangeArgs, freshId: string) returns (r: Result<DocumentChange>)
      ensures args.Restore? ==> r == Err(TypeError)
      ensures args.Illegal? ==> r == Err(IllegalArguments)
      ensures args.Parts? ==> (r.Ok? <==> WellKeyed(args.ops))
    {
      var c: DocumentChange;
      match args {
        case Illegal => return Err(IllegalArguments);
        case Parts(ops, before, after) =>
          c := new DocumentChange(Defined(JString(freshId)), StateCode(PROVISIONAL), ops, before, after,
                                  None, Undefined, Undefined);
        case Restore(d) =>
          c := new DocumentChange(d.id, d.state, d.ops, d.before, d.after, d.timestamp, d.userId, d.data);
          c.Freeze();
      }
      var o := c.ClearTables();
      if o.Fail? {
        return Err(o.error);
      }
      o := c.Init();
      DeriveOk(c.ops);
      if o.Fail? {
        return Err(o.error);
      }
      r := Ok(c);
    }

    /** `DocumentChange.fromJSON(data)` over the corrected constructor `New`. */
    static method FromJson(d: ChangeData) returns (r: Result<DocumentChange>)
      ensures r.Ok? <==> WellKeyed(d.ops)
      ensures r.Err? ==> r.error == TypeError
      ensures r.Ok? ==> fresh(r.value) && r.value.Valid() && r.value.frozen && r.value.Fields() == d
    {
      r := New(Restore(d), "");
    }

    /** `DocumentChange.fromJSON(data)` as written: it throws for every record. */
    static method FromJsonAsWritten(d: ChangeData) returns (r: Result<DocumentChange>)
      ensures r == Err(TypeError)
    {
      r := NewAsWritten(Restore(d), "");
    }

    /**
      `invert`: the inverse of every operation, last one first, in a new
      provisional change whose before and after are this change's after and
      before.
     */
    method Invert(freshId: string) returns (r: Result<DocumentChange>)
      ensures r.Ok? <==> WellKeyed(ops)
      ensures r.Err? ==> r.error == TypeError
      ensures r.Ok? ==> fresh(r.value) && r.value.Valid() && !r.value.frozen
      ensures r.Ok? ==>
        r.value.Fields() == ChangeData(Defined(JString(freshId)), StateCode(PROVISIONAL),
                                       InvertAll(ops), after, before, None, Undefined, Undefined)
    {
      var inv: seq<ObjectOp> := [];
      var i := |ops|;
      while i > 0
        invariant 0 <= i <= |ops|
        invariant |inv| == |ops| - i
        invariant forall k :: 0 <= k < |inv| ==> inv[k] == Operations.Invert(ops[|ops| - 1 - k])
      {
        i := i - 1;
        inv := inv + [Operations.Invert(ops[i])];
      }
      assert inv == InvertAll(ops);
      InvertWellKeyed(ops);
      r := New(Parts(inv, after, before), freshId);
    }
  }

  /** `isAcknowledged` and `isPending` each imply `isFinal`, and exclude each other. */
  lemma StatePredicates(c: DocumentChange)
    ensures c.IsAcknowledged() ==> c.IsFinal() && !c.IsPending()
    ensures c.IsPending() ==> c.IsFinal()
    ensures c.state == StateCode(PROVISIONAL) || c.state == StateUndefined ==> !c.IsFinal()
  {
  }

  /** A change written with `toJSON` and read back with the corrected `fromJSON` keeps its id, state, operations, before and after. */
  method Reload(c: DocumentChange) returns (r: Result<DocumentChange>)
    requires c.Valid()
    ensures r.Ok? && r.value.Valid() && r.value.frozen
    ensures r.value.id == c.id && r.value.state == c.state && r.value.ops == c.ops
    ensures r.value.before == c.before && r.value.after == c.after
  {
    DeriveOk(c.ops);
    r := DocumentChange.FromJson(c.ToJson());
  }

  /** As written, reading back what `toJSON` wrote fails for every change. */
  method ReloadAsWritten(c: DocumentChange) returns (r: Result<DocumentChange>)
    ensures r == Err(TypeError)
  {
    r := DocumentChange.FromJsonAsWritten(c.ToJson());
  }

  /** Undoing an undo: the inverse of the inverse has the original operations, before and after. */
  method InvertTwice(c: DocumentChange, id1: string, id2: string) returns (r: Result<DocumentChange>)
    requires c.Valid()
    ensures r.Ok? && r.value.Valid()
    ensures r.value.ops == c.ops && r.value.before == c.before && r.value.after == c.after
  {
    DeriveOk(c.ops);
    var once := c.Invert(id1);
    InvertAllInvolution(c.ops);
    r := once.value.Invert(id2);
  }
}

/**
  The structural operations a document change is made of, as the codec, the
  change record and the table of contents see them: the fields they read
  (`type`, `path`, `val`, `original`, `diff`; `pos`, `str`/`val`) and the
  inversion each operation carries with it.
 */
module Operations {
  import opened Wrappers
  import opened Numbers
  import opened Json

  /** A property path: `[id]` for a node, `[id, property]` for one of its properties. */
  type Path = seq<string>

  datatype EditKind = Insertion | Deletion

  /** The diff an update wraps: a text edit, an array edit, or some other kind of operation. */
  datatype PrimitiveOp =
    | TextOp(kind: EditKind, pos: Number, str: Json)
    | ArrayOp(kind: EditKind, pos: Number, val: Json)
    | OtherDiff

  /**
    A structural operation. `Other` stands for an operation whose `type` is none
    of the four kinds (such as a no-op); the modelled code only reads its path.
   */
  datatype ObjectOp =
    | Create(path: Path, val: Json)
    | Delete(path: Path, val: Json)
    | Set(path: Path, original: Value, value: Value)
    | Update(path: Path, diff: PrimitiveOp)
    | Other(path: Path)

  function InvertKind(k: EditKind): (r: EditKind)
    ensures r != k
  {
    match k
    case Insertion => Deletion
    case Deletion => Insertion
  }

  /** The inverse of a primitive edit: the opposite edit at the same position with the same payload. */
  function InvertPrimitive(d: PrimitiveOp): (r: PrimitiveOp)
    ensures r.TextOp? <==> d.TextOp?
    ensures r.ArrayOp? <==> d.ArrayOp?
    ensures r.TextOp? ==> r.kind != d.kind && r.pos == d.pos && r.str == d.str
    ensures r.ArrayOp? ==> r.kind != d.kind && r.pos == d.pos && r.val == d.val
  {
    match d
    case TextOp(k, pos, str) => TextOp(InvertKind(k), pos, str)
    case ArrayOp(k, pos, val) => ArrayOp(InvertKind(k), pos, val)
    case OtherDiff => OtherDiff
  }

  /**
    The inverse an operation computes from its own data: a create becomes a
    delete of the same node data and back, a set swaps its old and new value, an
    update inverts its diff.
   */
  function Invert(op: ObjectOp): (r: ObjectOp)
    ensures r.path == op.path
    ensures r.Create? <==> op.Delete?
    ensures r.Delete? <==> op.Create?
    ensures r.Set? <==> op.Set?
    ensures r.Update? <==> op.Update?
    ensures (r.Create? || r.Delete?) ==> r.val == op.val
    ensures r.Set? ==> r.original == op.value && r.value == op.original
    ensures r.Update? ==> r.diff == InvertPrimitive(op.diff)
  {
    match op
    case Create(path, val) => Delete(path, val)
    case Delete(path, val) => Create(path, val)
    case Set(path, original, value) => Set(path, value, original)
    case Update(path, diff) => Update(path, InvertPrimitive(diff))
    case Other(path) => Other(path)
  }

  lemma InvertInvolution(op: ObjectOp)
    ensures Invert(Invert(op)) == op
  {
    if op.Update? {
      match op.diff {
        case TextOp(k, pos, str) =>
        case ArrayOp(k, pos, val) =>
        case OtherDiff =>
      }
    }
  }

  /** The ops of an inverted change: the inverse of every op, last op first. */
  function InvertAll(ops: seq<ObjectOp>): (r: seq<ObjectOp>)
    ensures |r| == |ops|
    ensures forall k :: 0 <= k < |ops| ==> r[k] == Invert(ops[|ops| - 1 - k])
  {
    if |ops| == 0 then [] else [Invert(ops[|ops| - 1])] + InvertAll(ops[..|ops| - 1])
  }

  /** Inverting the ops of a change twice gives back the same ops in the same order. */
  lemma InvertAllInvolution(ops: seq<ObjectOp>)
    ensures InvertAll(InvertAll(ops)) == ops
  {
    var r := InvertAll(InvertAll(ops));
    forall k | 0 <= k < |ops| ensures r[k] == ops[k] {
      InvertInvolution(ops[k]);
    }
  }

  /** `op.isCreate() || op.isDelete()` */
  predicate IsNodeOp(op: ObjectOp)
  {
    op.Create? || op.Delete?
  }

  /** `op.type === "set" || op.type === "update"` */
  predicate IsPropertyOp(op: ObjectOp)
  {
    op.Set? || op.Update?
  }

  /** The key `obj[op.val.id]` uses for a create or delete: `None` where reading `id` of `null` throws. */
  function NodeKey(val: Json): (k: Option<string>)
    ensures k.None? <==> val.JNull?
  {
    match PropertyOf(val, "id")
    case None => None
    case Some(id) => Some(PropertyKey(id))
  }
}

/**
  The table of contents: the heading entries of the `main` container, and the
  filter that decides from a change's operations whether they must be
  recomputed.
 */
module Toc {
  import opened Wrappers
  import opened Json
  import opened Operations

  /** `TOC.static.tocTypes`: the node types whose changes can alter the table. */
  const TOC_TYPES: seq<string> := ["heading"]

  /** A document node as the table reads it; `nodes` is empty for a node that is no container. */
  datatype Node = Node(id: string, nodeType: string, content: string, level: int, nodes: seq<string>)

  /** `doc.get(id)`: the nodes of the document by id. */
  type Document = map<string, Node>

  /** `{ id, name, level, node }` */
  datatype Entry = Entry(id: string, name: string, level: int, node: Node)

  function EntryOf(n: Node): Entry
  {
    Entry(n.id, n.content, n.level, n)
  }

  predicate IsHeading(doc: Document, id: string)
  {
    id in doc && doc[id].nodeType == "heading"
  }

  // ---------------------------------------------------------------------------
  // computeEntries

  /**
    The entries for the node ids `ids`, in order: one per heading. Reading
    `type` of a missing node throws.
   */
  function Headings(doc: Document, ids: seq<string>): (r: Result<seq<Entry>>)
    ensures r.Err? ==> r.error == TypeError
    decreases |ids|
  {
    if |ids| == 0 then Ok([])
    else if ids[0] !in doc then Err(TypeError)
    else
      match Headings(doc, ids[1..])
      case Err(e) => Err(e)
      case Ok(rest) => Ok(if doc[ids[0]].nodeType == "heading" then [EntryOf(doc[ids[0]])] + rest else rest)
  }

  /** `computeEntries`: the heading entries of the `main` container, which must exist. */
  function ComputeEntries(doc: Document): (r: Result<seq<Entry>>)
    ensures "main" !in doc ==> r == Err(TypeError)
    ensures "main" in doc ==> r == Headings(doc, doc["main"].nodes)
  {
    if "main" !in doc then Err(TypeError) else Headings(doc, doc["main"].nodes)
  }

  /** The positions in `ids` that hold a heading, in increasing order. */
  function HeadingPositions(doc: Document, ids: seq<string>): seq<nat>
    decreases |ids|
  {
    if |ids| == 0 then []
    else (if IsHeading(doc, ids[0]) then [0] else []) + Shift(HeadingPositions(doc, ids[1..]))
  }

  function Shift(s: seq<nat>): (r: seq<nat>)
    ensures |r| == |s| && forall k :: 0 <= k < |s| ==> r[k] == s[k] + 1
  {
    seq(|s|, k requires 0 <= k < |s| => s[k] + 1)
  }

  /** Every heading position holds a heading. */
  lemma {:induction false} PositionsHeadings(doc: Document, ids: seq<string>)
    ensures forall k :: 0 <= k < |HeadingPositions(doc, ids)| ==>
      HeadingPositions(doc, ids)[k] < |ids| && IsHeading(doc, ids[HeadingPositions(doc, ids)[k]])
    decreases |ids|
  {
    if |ids| > 0 {
      var tail := ids[1..];
      PositionsHeadings(doc, tail);
      var t := HeadingPositions(doc, tail);
      var r := HeadingPositions(doc, ids);
      var n := if IsHeading(doc, ids[0]) then 1 else 0;
      forall k | 0 <= k < |r|
        ensures r[k] < |ids| && IsHeading(doc, ids[r[k]])
      {
        if k >= n {
          var j := t[k - n];
          assert r[k] == j + 1;
          assert j < |tail| && IsHeading(doc, tail[j]);
          assert ids[j + 1] == tail[j];
        }
      }
    }
  }

  /** The heading positions increase. */
  lemma {:induction false} PositionsIncrease(doc: Document, ids: seq<string>)
    ensures forall k, l :: 0 <= k < l < |HeadingPositions(doc, ids)| ==>
      HeadingPositions(doc, ids)[k] < HeadingPositions(doc, ids)[l]
    decreases |ids|
  {
    if |ids| > 0 {
      var tail := ids[1..];
      PositionsIncrease(doc, tail);
      var t := HeadingPositions(doc, tail);
      var r := HeadingPositions(doc, ids);
      var n := if IsHeading(doc, ids[0]) then 1 else 0;
      forall k, l | 0 <= k < l < |r|
        ensures r[k] < r[l]
      {
        assert r[l] == t[l - n] + 1;
        if k >= n {
          assert r[k] == t[k - n] + 1;
        }
      }
    }
  }

  /** Every heading in `ids` has its position listed. */
  lemma {:induction false} PositionsComplete(doc: Document, ids: seq<string>)
    ensures forall i :: 0 <= i < |ids| && IsHeading(doc, ids[i]) ==> i in HeadingPositions(doc, ids)
    decreases |ids|
  {
    if |ids| > 0 {
      var tail := ids[1..];
      PositionsComplete(doc, tail);
      var t := HeadingPositions(doc, tail);
      var r := HeadingPositions(doc, ids);
      var n := if IsHeading(doc, ids[0]) then 1 else 0;
      forall i | 0 <= i < |ids| && IsHeading(doc, ids[i])
        ensures i in r
      {
        if i == 0 {
          assert r[0] == 0;
        } else {
          assert tail[i - 1] == ids[i];
          assert i - 1 in t;
          var k :| 0 <= k < |t| && t[k] == i - 1;
          assert r[n + k] == i;
        }
      }
    }
  }

  /** Computing the entries fails exactly when some id has no node. */
  lemma {:induction false} HeadingsOk(doc: Document, ids: seq<string>)
    ensures Headings(doc, ids).Ok? <==> forall i :: 0 <= i < |ids| ==> ids[i] in doc
    decreases |ids|
  {
    if |ids| > 0 {
      var tail := ids[1..];
      HeadingsOk(doc, tail);
      assert forall i :: 0 < i < |ids| ==> ids[i] == tail[i - 1];
    }
  }

  /** Entry `k` of `r` is the node at position `pos[k]` of `ids`. */
  predicate EntriesAt(doc: Document, ids: seq<string>, r: seq<Entry>, pos: seq<nat>)
  {
    |r| == |pos| &&
    forall k :: 0 <= k < |r| ==> pos[k] < |ids| && ids[pos[k]] in doc && r[k] == EntryOf(doc[ids[pos[k]]])
  }

  /**
    The entries are those of the heading positions, in order: together with
    the lemmas about those positions, every node of `ids` that is a heading is
    listed once, in the order of `ids`, and nothing else is.
   */
  lemma {:induction false} HeadingsEntries(doc: Document, ids: seq<string>)
    requires Headings(doc, ids).Ok?
    ensures EntriesAt(doc, ids, Headings(doc, ids).value, HeadingPositions(doc, ids))
    decreases |ids|
  {
    if |ids| > 0 {
      var tail := ids[1..];
      HeadingsEntries(doc, tail);
      var head := if IsHeading(doc, ids[0]) then [EntryOf(doc[ids[0]])] else [];
      var first: seq<nat> := if IsHeading(doc, ids[0]) then [0] else [];
      EntriesCons(doc, ids, head, first, Headings(doc, tail).value, HeadingPositions(doc, tail));
    }
  }

  lemma EntriesCons(doc: Document, ids: seq<string>, head: seq<Entry>, first: seq<nat>,
                    rest: seq<Entry>, t: seq<nat>)
    requires |ids| > 0 && ids[0] in doc
    requires EntriesAt(doc, ids[1..], rest, t)
    requires IsHeading(doc, ids[0]) ==> head == [EntryOf(doc[ids[0]])] && first == [0]
    requires !IsHeading(doc, ids[0]) ==> head == [] && first == []
    ensures EntriesAt(doc, ids, head + rest, first + Shift(t))
  {
    var tail := ids[1..];
    var r := head + rest;
    var pos := first + Shift(t);
    var n := |head|;
    forall k | n <= k < |r|
      ensures pos[k] < |ids| && ids[pos[k]] in doc && r[k] == EntryOf(doc[ids[pos[k]]])
    {
      var j := t[k - n];
      assert r[k] == rest[k - n];
      assert pos[k] == j + 1;
      assert ids[j + 1] == tail[j];
    }
  }

  // ---------------------------------------------------------------------------
  // The change filter

  /** `_.includes(tocTypes, v)` for the `type` read from an operation's node data. */
  predicate ListedType(v: Value)
  {
    v.Defined? && v.json.JString? && v.json.s in TOC_TYPES
  }

  /**
    Whether one operation asks for a recompute. A create or delete looks at the
    type in its node data, which throws when that data is `null`; any other
    operation looks up the node `path[0]` in the document.
   */
  function OpTriggers(doc: Document, op: ObjectOp): (r: Result<bool>)
    ensures IsNodeOp(op) ==> (r.Err? <==> op.val.JNull?)
    ensures r.Err? ==> r.error == TypeError
    ensures IsNodeOp(op) && r.Ok? ==> (r.value <==> ListedType(PropertyOf(op.val, "type").value))
    ensures !IsNodeOp(op) ==> r.Ok?
    ensures !IsNodeOp(op) ==>
      (r.value <==> |op.path| > 0 && op.path[0] in doc && doc[op.path[0]].nodeType in TOC_TYPES)
  {
    if IsNodeOp(op) then
      match PropertyOf(op.val, "type")
      case None => Err(TypeError)
      case Some(t) => Ok(ListedType(t))
    else
      Ok(|op.path| > 0 && op.path[0] in doc && doc[op.path[0]].nodeType in TOC_TYPES)
  }

  /** The scan over a change's operations: stops at the first one that triggers, or at the first that throws. */
  function Scan(doc: Document, ops: seq<ObjectOp>): Result<bool>
    decreases |ops|
  {
    if |ops| == 0 then Ok(false)
    else
      match OpTriggers(doc, ops[0])
      case Err(e) => Err(e)
      case Ok(true) => Ok(true)
      case Ok(false) => Scan(doc, ops[1..])
  }

  /** The scan finds nothing exactly when no operation triggers and none throws. */
  lemma {:induction false} ScanQuiet(doc: Document, ops: seq<ObjectOp>)
    ensures Scan(doc, ops) == Ok(false) <==> forall i :: 0 <= i < |ops| ==> OpTriggers(doc, ops[i]) == Ok(false)
    decreases |ops|
  {
    if |ops| > 0 {
      ScanQuiet(doc, ops[1..]);
      assert forall i :: 0 < i < |ops| ==> ops[i] == ops[1..][i - 1];
    }
  }

  /** Once an operation triggers, the scan reports a recompute whatever follows it. */
  lemma {:induction false} ScanStopsAtTrigger(doc: Document, ops: seq<ObjectOp>, j: nat)
    requires j < |ops| && OpTriggers(doc, ops[j]) == Ok(true)
    requires forall i :: 0 <= i < j ==> OpTriggers(doc, ops[i]) == Ok(false)
    ensures Scan(doc, ops) == Ok(true)
    decreases j
  {
    if j > 0 {
      ScanStopsAtTrigger(doc, ops[1..], j - 1);
    }
  }

  class TOC {
    var entries: seq<Entry>
    var activeEntry: Option<string>
    /** The events the table has emitted. */
    var emitted: seq<string>

    /** The constructor after `computeEntries`: the first entry is the active one. */
    constructor (entries: seq<Entry>)
      ensures this.entries == entries && emitted == []
      ensures |entries| > 0 ==> activeEntry == Some(entries[0].id)
      ensures |entries| == 0 ==> activeEntry == None
    {
      this.entries := entries;
      if |entries| > 0 {
        activeEntry := Some(entries[0].id);
      } else {
        activeEntry := None;
      }
      emitted := [];
    }

    /** `new TOC(controller)` on the document `doc`, which throws when the entries cannot be computed. */
    static method Open(doc: Document) returns (r: Result<TOC>)
      ensures r.Err? <==> ComputeEntries(doc).Err?
      ensures r.Err? ==> r.error == TypeError
      ensures r.Ok? ==> fresh(r.value) && r.value.entries == ComputeEntries(doc).value && r.value.emitted == []
      ensures r.Ok? && |r.value.entries| > 0 ==> r.value.activeEntry == Some(r.value.entries[0].id)
      ensures r.Ok? && |r.value.entries| == 0 ==> r.value.activeEntry == None
    {
      var es := ComputeEntries(doc);
      if es.Err? {
        return Err(es.error);
      }
      var t := new TOC(es.value);
      r := Ok(t);
    }

    /**
      `handleDocumentChange`: scan the operations until one triggers; when one
      does, recompute the entries and emit `toc:updated`.
     */
    method HandleDocumentChange(doc: Document, ops: seq<ObjectOp>) returns (o: Outcome)
      modifies this
      ensures Scan(doc, ops).Err? ==> o == Fail(TypeError) && unchanged(this)
      ensures Scan(doc, ops) == Ok(false) ==> o == Pass && unchanged(this)
      ensures Scan(doc, ops) == Ok(true) && ComputeEntries(doc).Err? ==> o == Fail(TypeError) && unchanged(this)
      ensures Scan(doc, ops) == Ok(true) && ComputeEntries(doc).Ok? ==>
        o == Pass && entries == ComputeEntries(doc).value &&
        emitted == old(emitted) + ["toc:updated"] && activeEntry == old(activeEntry)
    {
      var needsUpdate := false;
      var i := 0;
      while i < |ops|
        invariant 0 <= i <= |ops|
        invariant !needsUpdate ==> Scan(doc, ops) == Scan(doc, ops[i..])
        invariant needsUpdate ==> Scan(doc, ops) == Ok(true)
        decreases |ops| - i, if needsUpdate then 0 else 1
      {
        assert ops[i..][1..] == ops[i + 1..];
        var op := ops[i];
        if IsNodeOp(op) {
          var nodeData := op.val;
          var nodeType := PropertyOf(nodeData, "type");
          if nodeType.None? {
            return Fail(TypeError);
          }
          if ListedType(nodeType.value) {
            needsUpdate := true;
            break;
          }
        } else {
          if |op.path| > 0 && op.path[0] in doc && doc[op.path[0]].nodeType in TOC_TYPES {
            needsUpdate := true;
            break;
          }
        }
        i := i + 1;
      }
      if needsUpdate {
        var es := ComputeEntries(doc);
        if es.Err? {
          return Fail(es.error);
        }
        entries := es.value;
        emitted := emitted + ["toc:updated"];
      }
      o := Pass;
    }
  }
}

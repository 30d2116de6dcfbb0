/**
  The session history: the stacks of changes that can be undone and redone, and
  `commit`, which stamps a change, applies it, possibly merges it into the
  previous one, and notifies listeners. The document, the compressor and the
  clock are outside the model: what the session asks of the document and of
  the compressor is recorded in an event log, the compressor's answer and the
  clock readings are parameters.
 */
module Sessions {
  import opened Wrappers
  import opened Json
  import opened Operations
  import opened Changes

  /** How long a provisional change stays open to merging, in milliseconds. */
  const MAXIMUM_CHANGE_DURATION := 1500

  /**
    `DocumentChange.FINAL` as the session reads it: the change module exports
    only its constructor, so the property is `undefined`.
   */
  const ExportedFinal := StateUndefined

  /** The `info` the session passes when it replays an undo or redo: `{ replay: true }`. */
  const Replay := JObject([Member("replay", JBool(true))])

  /** What the session asks of its collaborators, in order. */
  datatype Event =
    /** `doc._apply(change)`, with `'saveTransaction'` when `saving` */
    | Applied(change: DocumentChange, saving: bool)
    /** `doc._notifyChangeListeners(change, info)` */
    | Notified(change: DocumentChange, info: Json)
    /** `compressor.merge(last, change)` */
    | MergeAsked(last: DocumentChange, change: DocumentChange)
    /** `delay(finalize, MAXIMUM_CHANGE_DURATION)` */
    | FinalizeScheduled(change: DocumentChange)
    /** `_commitChange(change)` */
    | SentToHub(change: DocumentChange)

  /** Whether `commit` consults the compressor about merging into `last` at time `now`. */
  predicate MayMerge(last: DocumentChange, now: int)
    reads last
  {
    !last.IsFinal() && last.timestamp.Some? && now - last.timestamp.value < MAXIMUM_CHANGE_DURATION
  }

  /** The notification `commit` sends for `info`: none when `info.silent` is truthy. */
  function Notification(change: DocumentChange, info: Json): seq<Event>
  {
    match PropertyOf(info, "silent")
    case None => []
    case Some(silent) => if Truthy(silent) then [] else [Notified(change, info)]
  }

  class DocumentSession {
    var version: int
    var uncommittedChanges: seq<DocumentChange>
    var pendingChanges: seq<DocumentChange>
    var doneChanges: seq<DocumentChange>
    var undoneChanges: seq<DocumentChange>
    var log: seq<Event>

    constructor ()
      ensures version == 0 && uncommittedChanges == [] && pendingChanges == []
      ensures doneChanges == [] && undoneChanges == [] && log == []
    {
      version := 0;
      uncommittedChanges := [];
      pendingChanges := [];
      doneChanges := [];
      undoneChanges := [];
      log := [];
    }

    /** Every change on either stack can be inverted without throwing. */
    predicate Valid()
      reads this
    {
      (forall c :: c in doneChanges ==> WellKeyed(c.ops)) &&
      (forall c :: c in undoneChanges ==> WellKeyed(c.ops))
    }

    predicate CanUndo()
      reads this
    {
      |doneChanges| > 0
    }

    predicate CanRedo()
      reads this
    {
      |undoneChanges| > 0
    }

    function GetLastChange(): (r: Option<DocumentChange>)
      reads this
      ensures r.None? <==> !CanUndo()
      ensures r.Some? ==> r.value == doneChanges[|doneChanges| - 1]
    {
      if |doneChanges| == 0 then None else Some(doneChanges[|doneChanges| - 1])
    }

    /**
      `undo`: pop the last done change, apply its inverse, push the inverse on
      the redo stack and notify with `replay: true`. The pop happens first, so a
      change whose inversion throws is lost.
     */
    method Undo(freshId: string) returns (o: Outcome)
      modifies this
      ensures version == old(version) && uncommittedChanges == old(uncommittedChanges)
      ensures pendingChanges == old(pendingChanges)
      ensures old(|doneChanges|) == 0 ==>
        o == Pass && doneChanges == old(doneChanges) && undoneChanges == old(undoneChanges) && log == old(log)
      ensures old(|doneChanges|) > 0 ==> doneChanges == old(doneChanges[..|doneChanges| - 1])
      ensures old(|doneChanges|) > 0 ==>
        (o == Pass <==> WellKeyed(old(doneChanges[|doneChanges| - 1]).ops))
      ensures old(|doneChanges|) > 0 && o.Fail? ==>
        o.error == TypeError && undoneChanges == old(undoneChanges) && log == old(log)
      ensures old(|doneChanges|) > 0 && o.Pass? ==>
        |undoneChanges| == old(|undoneChanges|) + 1 && undoneChanges[..|undoneChanges| - 1] == old(undoneChanges)
      ensures old(|doneChanges|) > 0 && o.Pass? ==>
        var top := old(doneChanges[|doneChanges| - 1]);
        var inv := undoneChanges[|undoneChanges| - 1];
        fresh(inv) && inv.Valid() && inv.ops == InvertAll(top.ops) &&
        inv.before == top.after && inv.after == top.before && inv.state == StateCode(PROVISIONAL) &&
        log == old(log) + [Applied(inv, false), Notified(inv, Replay)]
      ensures old(Valid()) ==> Valid() && o == Pass
    {
      if |doneChanges| == 0 {
        return Pass;
      }
      var change := doneChanges[|doneChanges| - 1];
      doneChanges := doneChanges[..|doneChanges| - 1];
      var inverted := change.Invert(freshId);
      if inverted.Err? {
        return Fail(inverted.error);
      }
      var inv := inverted.value;
      log := log + [Applied(inv, false)];
      undoneChanges := undoneChanges + [inv];
      log := log + [Notified(inv, Replay)];
      InvertWellKeyed(change.ops);
      o := Pass;
    }

    /** `redo`: the mirror image of `undo`, from the redo stack to the undo stack. */
    method Redo(freshId: string) returns (o: Outcome)
      modifies this
      ensures version == old(version) && uncommittedChanges == old(uncommittedChanges)
      ensures pendingChanges == old(pendingChanges)
      ensures old(|undoneChanges|) == 0 ==>
        o == Pass && doneChanges == old(doneChanges) && undoneChanges == old(undoneChanges) && log == old(log)
      ensures old(|undoneChanges|) > 0 ==> undoneChanges == old(undoneChanges[..|undoneChanges| - 1])
      ensures old(|undoneChanges|) > 0 ==>
        (o == Pass <==> WellKeyed(old(undoneChanges[|undoneChanges| - 1]).ops))
      ensures old(|undoneChanges|) > 0 && o.Fail? ==>
        o.error == TypeError && doneChanges == old(doneChanges) && log == old(log)
      ensures old(|undoneChanges|) > 0 && o.Pass? ==>
        |doneChanges| == old(|doneChanges|) + 1 && doneChanges[..|doneChanges| - 1] == old(doneChanges)
      ensures old(|undoneChanges|) > 0 && o.Pass? ==>
        var top := old(undoneChanges[|undoneChanges| - 1]);
        var inv := doneChanges[|doneChanges| - 1];
        fresh(inv) && inv.Valid() && inv.ops == InvertAll(top.ops) &&
        inv.before == top.after && inv.after == top.before && inv.state == StateCode(PROVISIONAL) &&
        log == old(log) + [Applied(inv, false), Notified(inv, Replay)]
      ensures old(Valid()) ==> Valid() && o == Pass
    {
      if |undoneChanges| == 0 {
        return Pass;
      }
      var change := undoneChanges[|undoneChanges| - 1];
      undoneChanges := undoneChanges[..|undoneChanges| - 1];
      var inverted := change.Invert(freshId);
      if inverted.Err? {
        return Fail(inverted.error);
      }
      var inv := inverted.value;
      log := log + [Applied(inv, false)];
      doneChanges := doneChanges + [inv];
      log := log + [Notified(inv, Replay)];
      InvertWellKeyed(change.ops);
      o := Pass;
    }

    /**
      `commit(change, info)`. `stamp` and `now` are the two readings of the
      clock, and `merges` is what the compressor answers when it is asked.
      Stamping a frozen change throws before anything else happens; reading
      `silent` of a `null` info throws after everything else has happened.
     */
    method Commit(change: DocumentChange, info: Json, stamp: int, now: int, merges: bool) returns (o: Outcome)
      modifies this, change
      ensures old(change.frozen) ==> o == Fail(TypeError) && unchanged(this) && unchanged(change)
      ensures !old(change.frozen) ==>
        change.timestamp == Some(stamp) && change.state == old(change.state) && !change.frozen &&
        change.created == old(change.created) && change.deleted == old(change.deleted) &&
        change.updated == old(change.updated)
      ensures !old(change.frozen) ==>
        version == old(version) && uncommittedChanges == old(uncommittedChanges) &&
        pendingChanges == old(pendingChanges) && undoneChanges == []
      ensures !old(change.frozen) ==>
        var last := old(GetLastChange());
        var asked := last.Some? && MayMerge(last.value, now);
        var merged := asked && merges;
        doneChanges == old(doneChanges) + (if merged then [] else [change]) &&
        log == old(log) + [Applied(change, true)]
                        + (if asked then [MergeAsked(last.value, change)] else [])
                        + (if merged then [] else [FinalizeScheduled(change)])
                        + Notification(change, info) &&
        o == (if PropertyOf(info, "silent").None? then Fail(TypeError) else Pass)
      ensures old(Valid()) && WellKeyed(change.ops) ==> Valid()
    {
      o := change.SetTimestamp(stamp);
      if o.Fail? {
        return;
      }
      log := log + [Applied(change, true)];
      var lastChange := GetLastChange();
      assert lastChange == old(GetLastChange());
      ghost var asked := lastChange.Some? && MayMerge(lastChange.value, now);
      ghost var scheduled := log;
      var merged := false;
      if lastChange.Some? && MayMerge(lastChange.value, now) {
        log := log + [MergeAsked(lastChange.value, change)];
        merged := merges;
      }
      if !merged {
        log := log + [FinalizeScheduled(change)];
        doneChanges := doneChanges + [change];
      }
      assert log == scheduled + (if asked then [MergeAsked(lastChange.value, change)] else [])
                              + (if merged then [] else [FinalizeScheduled(change)]);
      undoneChanges := [];
      ghost var decided := log;
      match PropertyOf(info, "silent") {
        case None =>
          return Fail(TypeError);
        case Some(silent) =>
          if !Truthy(silent) {
            log := log + [Notified(change, info)];
          }
      }
      assert log == decided + Notification(change, info);
    }

    /**
      `_finalizeChange`: store `DocumentChange.FINAL` in the change's state, then
      hand the change to the hub. That property is `undefined`, so the change
      does not become final.
     */
    method FinalizeChange(change: DocumentChange) returns (o: Outcome)
      modifies this, change
      ensures old(change.frozen) ==> o == Fail(TypeError) && unchanged(this) && unchanged(change)
      ensures !old(change.frozen) ==>
        o == Pass && change.state == StateUndefined && !change.IsFinal() &&
        change.timestamp == old(change.timestamp) && !change.frozen
      ensures !old(change.frozen) ==>
        log == old(log) + [SentToHub(change)] &&
        doneChanges == old(doneChanges) && undoneChanges == old(undoneChanges) &&
        version == old(version) && uncommittedChanges == old(uncommittedChanges) &&
        pendingChanges == old(pendingChanges)
    {
      o := change.SetState(ExportedFinal);
      if o.Fail? {
        return;
      }
      log := log + [SentToHub(change)];
    }

    /** The callback `commit` schedules: finalize the change unless it is final already. */
    method FinalizeTimeout(change: DocumentChange) returns (o: Outcome)
      modifies this, change
      ensures old(change.IsFinal()) ==> o == Pass && unchanged(this) && unchanged(change)
      ensures !old(change.IsFinal()) && old(change.frozen) ==>
        o == Fail(TypeError) && unchanged(this) && unchanged(change)
      ensures !old(change.IsFinal()) && !old(change.frozen) ==>
        o == Pass && change.state == StateUndefined && !change.IsFinal() &&
        log == old(log) + [SentToHub(change)] && doneChanges == old(doneChanges) &&
        undoneChanges == old(undoneChanges)
    {
      if !change.IsFinal() {
        o := FinalizeChange(change);
      } else {
        o := Pass;
      }
    }
  }

  /**
    An undo followed by a redo leaves both stacks as long as before, and the
    change back on top of the undo stack has the operations, before and after
    of the change that was undone.
   */
  method UndoThenRedo(s: DocumentSession, id1: string, id2: string)
    requires s.Valid() && s.CanUndo()
    modifies s
    ensures s.Valid()
    ensures |s.doneChanges| == old(|s.doneChanges|) && |s.undoneChanges| == old(|s.undoneChanges|)
    ensures s.undoneChanges == old(s.undoneChanges)
    ensures s.doneChanges[..|s.doneChanges| - 1] == old(s.doneChanges[..|s.doneChanges| - 1])
    ensures var top := s.doneChanges[|s.doneChanges| - 1];
      var was := old(s.doneChanges[|s.doneChanges| - 1]);
      top.ops == was.ops && top.before == was.before && top.after == was.after
  {
    var o := s.Undo(id1);
    o := s.Redo(id2);
    InvertAllInvolution(old(s.doneChanges[|s.doneChanges| - 1]).ops);
  }
}

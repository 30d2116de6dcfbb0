# Substance change history, line codec and table of contents, in Dafny

This project models four pieces of the Substance document editor:

- **The operation line codec** (`OperationSerializer`). It writes one structural
  operation as one line of tab-separated fields and reads such a line back.
  The opcodes are `c`, `d`, `s` and `u` for create, delete, set and update. The
  primitive edits carried by an update use `t+`, `t-`, `a+` and `a-`. The reader
  is a `Tokenizer`: a global regular expression `([^\t]+)(\t|$)` whose
  `lastIndex` advances with every match, and a `pos` field used in error
  messages. The model has the writer as functions, the tokenizer as a class
  whose methods are proved against reading functions, and the reader as
  methods proved against a decoding function. Round trips, the field layout of
  every line and the error paths are proved as lemmas.
- **The change record** (`DocumentChange`). A change is a list of operations
  with the selection before and after it and a lifecycle state (provisional,
  final, pending, acknowledged). The constructor has two modes: three parts,
  or one record restored from JSON. `_init` derives three tables from the
  operations in one loop:
  - `created` holds the nodes the change leaves created;
  - `deleted` holds the nodes it leaves deleted;
  - `updated` holds the set and update operations per property path.

  The loop is a method. It is proved against a derivation function `Derive`.
  What the tables hold is proved against independent reference definitions:
  the last operation on a node, and the edits on a path after the last delete
  of its node. `invert` is proved to reverse and invert the operations and to
  swap before and after; inverting twice restores the operations.
- **The session history** (`DocumentSession`). It keeps the undo and redo
  stacks. `commit` stamps a change, applies it, and may ask the compressor to
  merge it into the previous change. When it does not merge, it schedules the
  change's finalization and pushes the change. It always clears the redo
  stack, then notifies listeners unless `info.silent`. The document, the
  compressor and the clock are outside the model. What the session asks of
  them is an event log, and their answers are parameters.
- **The table of contents** (`TOC`). `computeEntries` lists the headings of the
  `main` container in order. `handleDocumentChange` scans a change's
  operations for one that touches a heading, and recomputes the entries when
  it finds one.

Modules, one per file: `Wrappers`, `Strings`, `Numbers` (`parseInt` and
number-to-text), `Json` (`JSON.stringify`/`JSON.parse` and the JavaScript
coercions used), `Operations` (the operations and their inverses),
`Tokenizing`, `Serializer`, `Changes`, `Sessions`, `Toc`.

Thrown exceptions are modelled as `Err`/`Fail` results carrying the
`Error` datatype. A `TypeError` stands for two engine errors: reading a
property of `null`, or assigning to a frozen object, since every core file
runs in strict mode.

## Model

| member | source | states |
|---|---|---|
| Strings.SplitJoin | model/data/OperationSerializer.js:250-253 | Splitting a joined list of fields at the separator gives the fields back when none contains the separator |
| Strings.JoinSplit | model/data/OperationSerializer.js:250-253 | Joining the pieces of a split string with the separator gives the string back |
| Numbers.NumberTextRoundTrip | model/data/OperationSerializer.js:220-233 | `parseInt` of a written position (an integer or `NaN`) gives that position back, with every position written in full decimal digits |
| Numbers.ParseIntString | model/data/OperationSerializer.js:227 | `parseInt` reads the decimal text of any integer, negative ones included, as that integer |
| Json.ParseOfStringify | model/data/OperationSerializer.js:242 | `JSON.parse(JSON.stringify(v))` is `v` for every value without duplicate object keys |
| Json.SurrogatePairEscape | model/data/OperationSerializer.js:242 | `JSON.parse` reads an escaped UTF-16 surrogate pair as the single character it encodes |
| Json.StringifyTabFree | model/data/OperationSerializer.js:69 | `JSON.stringify` output never holds a tab, so a JSON field never splits the line |
| Operations.Invert | model/DocumentChange.js:117 | The inverse of an operation keeps its path, swaps create and delete, swaps a set's old and new value and inverts an update's edit |
| Operations.InvertInvolution | model/DocumentChange.js:117 | Inverting an operation twice gives the operation back |
| Operations.InvertAll | model/DocumentChange.js:115-118 | The inverted list has the same length, and its k-th element is the inverse of the k-th operation from the end |
| Operations.InvertAllInvolution | model/DocumentChange.js:114-122 | Inverting an operation list twice gives the list back |
| Operations.NodeKey | model/DocumentChange.js:84 | The node key `op.val.id` is unavailable exactly when the node data is `null` |
| Tokenizing.FindToken | model/data/OperationSerializer.js:196 | A match lies at or after `lastIndex` and ends within the line |
| Tokenizing.FindTokenMeaning | model/data/OperationSerializer.js:196 | A match skips only tabs, captures a non-empty tab-free run, and takes the tab that ends it; without a match only tabs are left |
| Tokenizing.ReadString | model/data/OperationSerializer.js:207-218 | The read fails exactly when no token is left, raising "expected string" quoting the line from `pos` and resetting `lastIndex` to 0; otherwise it returns the token without its surrounding quotes |
| Tokenizing.ReadNumber | model/data/OperationSerializer.js:220-233 | Reading a number fails exactly when no token is left: `parseInt` never throws |
| Tokenizing.ReadObject | model/data/OperationSerializer.js:235-248 | The read fails exactly when no token is left or `JSON.parse` rejects the token, raising "expected object"; otherwise it returns the parsed token |
| Tokenizing.ReadPath | model/data/OperationSerializer.js:250-253 | A path read advances the tokenizer exactly as a string read does and fails exactly when it does |
| Tokenizing.Tokenizer.constructor | model/data/OperationSerializer.js:195-199 | A new tokenizer starts with `lastIndex` 0 and `pos` -1 |
| Tokenizing.Tokenizer.Exec | model/data/OperationSerializer.js:208 | `exec` returns the next match and moves `lastIndex` past it, or back to 0 when there is none |
| Tokenizing.Tokenizer.GetString | model/data/OperationSerializer.js:207-218 | Result and new state are those of `ReadString` |
| Tokenizing.Tokenizer.GetNumber | model/data/OperationSerializer.js:220-233 | Result and new state are those of `ReadNumber` |
| Tokenizing.Tokenizer.GetObject | model/data/OperationSerializer.js:235-248 | Result and new state are those of `ReadObject`; a failed parse leaves `pos` where it was |
| Tokenizing.Tokenizer.GetPath | model/data/OperationSerializer.js:250-253 | Result and new state are those of `ReadPath` |
| Serializer.SerializePrimitiveOp | model/data/OperationSerializer.js:103-125 | Writing an edit fails exactly for one that is neither a text nor an array edit, with "Unsupported operation type." |
| Serializer.IdText | model/data/OperationSerializer.js:68 | The id field is unavailable exactly when the node data is `null` |
| Serializer.Serialize | model/data/OperationSerializer.js:63-101 | Writing fails exactly for an unknown operation type or an unsupported edit (unsupported-operation error), or for `null` node data (TypeError) |
| Serializer.Deserialize | model/data/OperationSerializer.js:127-157 | Reading a line with a fresh tokenizer gives `Decode` of the line |
| Serializer.DeserializeFrom | model/data/OperationSerializer.js:127-157 | Reading with a given tokenizer gives the result and tokenizer state of `DecodeOp` |
| Serializer.DeserializePrimitiveOp | model/data/OperationSerializer.js:159-190 | Reading an edit with a fresh tokenizer gives `DecodePrimitive` from the start state |
| Serializer.DeserializePrimitiveFrom | model/data/OperationSerializer.js:159-190 | Reading an edit with a given tokenizer gives the result and tokenizer state of `DecodePrimitive` |
| Serializer.NodeRoundTrip | model/data/OperationSerializer.js:66-75 | For node data without duplicate keys whose id text is non-empty, tab-free and does not start with a quote, a create or delete reads back as the same kind with the same node data, under the path spelled by `val.id` |
| Serializer.SetRoundTrip | model/data/OperationSerializer.js:76-91 | For a non-empty path of dot-free segments whose dotted form is non-empty, tab-free and does not start with a quote, and values without duplicate keys, a set reads back with its path and both values; an `undefined` value comes back as `null` |
| Serializer.SetRoundTripDefined | model/data/OperationSerializer.js:144-149 | Under the same path and value conditions, a set with two defined values reads back exactly, old and new value in their places |
| Serializer.PrimitiveRoundTrip | model/data/OperationSerializer.js:159-190 | A text or array edit whose payload has no duplicate keys reads back as the same edit |
| Serializer.UpdateRoundTrip | model/data/OperationSerializer.js:92-96 | For a path meeting the set's conditions and a payload without duplicate keys, an update reads back with the same path and edit, the edit's fields continuing the same line |
| Serializer.DottedSegmentMerged | model/data/OperationSerializer.js:78 | A path segment holding a dot is written exactly like the two segments it splits into, so the line loses the difference |
| Serializer.NodeLayout | model/data/OperationSerializer.js:66-75 | A create or delete line has exactly three fields: opcode, id text, JSON of the node |
| Serializer.SetLayout | model/data/OperationSerializer.js:76-91 | A set line has exactly four fields: `s`, dotted path, new value, old value, with `null` for `undefined` |
| Serializer.UpdateLayout | model/data/OperationSerializer.js:92-96 | An update line has exactly five fields: `u`, dotted path, edit opcode, position, payload |
| Serializer.UnknownOpcode | model/data/OperationSerializer.js:133-156 | A line whose first field is no known opcode reads as `undefined`, not as an error |
| Serializer.UnknownPrimitive | model/data/OperationSerializer.js:186-187 | An update with an unknown edit opcode fails naming that opcode |
| Serializer.EmptyLine | model/data/OperationSerializer.js:209-211 | A line holding only tabs fails at the first read with "expected string" |
| Serializer.NotJson | model/data/OperationSerializer.js:245-246 | Node data that is not JSON fails with "expected object", quoting the line from the data on |
| Changes.LastNodeOp | model/DocumentChange.js:83-91 | The position of the last create or delete of a node: no later operation touches that node, and none exists when absent |
| Changes.Cut | model/DocumentChange.js:87-91 | The position just after the last delete of a path's node; no later operation deletes that node |
| Changes.EditsOn | model/DocumentChange.js:92-95 | The sets and updates recorded under a path: exactly the operations of the list that edit that path |
| Changes.DeriveOk | model/DocumentChange.js:75-100 | Deriving the tables succeeds exactly when no create or delete has `null` node data; otherwise it fails with a TypeError |
| Changes.DeriveErrPrefix | model/DocumentChange.js:81-96 | Once the loop throws on some prefix, the whole derivation throws the same error |
| Changes.NodeTables | model/DocumentChange.js:83-91 | A node is in `created` (or `deleted`) exactly when its last create-or-delete is a create (a delete), with that operation's node data |
| Changes.UpdatedTable | model/DocumentChange.js:87-95 | A path is in `updated` exactly when it is edited after the last delete of its node, and it holds exactly those edits in order |
| Changes.AffectedByEdit | model/DocumentChange.js:147-149 | A change is affected at the path of any set or update whose node is not deleted afterwards |
| Changes.NotAffectedWithoutEdits | model/DocumentChange.js:147-149 | A change is not affected at a path that is no prefix of any edited path |
| Changes.InvertWellKeyed | model/DocumentChange.js:114-122 | The inverse operation list can be derived exactly when the original can |
| Changes.StatePredicates | model/DocumentChange.js:130-140 | Pending and acknowledged changes are final and exclusive; provisional and undefined states are not final |
| Changes.DocumentChange.constructor | model/DocumentChange.js:62-67 | A new record holds the given fields, empty tables and is not frozen |
| Changes.DocumentChange.Freeze | model/DocumentChange.js:49 | Freezing changes no field and no table |
| Changes.DocumentChange.ClearTables | model/DocumentChange.js:63-67 | Resetting the tables succeeds and empties them when not frozen, and throws a TypeError changing nothing when frozen |
| Changes.DocumentChange.Init | model/DocumentChange.js:75-100 | The loop leaves tables equal to `Derive(ops)`; a `null` node key or a frozen record throws and changes nothing |
| Changes.DocumentChange.SetTimestamp | model/DocumentSession.js:59 | Stamping sets the timestamp and nothing else, or throws a TypeError on a frozen record |
| Changes.DocumentChange.SetState | model/DocumentSession.js:94 | Setting the state changes nothing else, or throws a TypeError on a frozen record |
| Changes.DocumentChange.New | model/DocumentChange.js:36-71 | Illegal arguments throw; otherwise construction succeeds exactly when the operations are well keyed. A three-part change is provisional with a fresh id; a restored one holds the record and is frozen; both have consistent tables |
| Changes.DocumentChange.NewAsWritten | model/DocumentChange.js:36-71 | As written, the single-record mode always throws a TypeError, because it assigns to the tables after freezing the record |
| Changes.DocumentChange.FromJson | model/DocumentChange.js:157-159 | Over the corrected constructor of the Findings row, reading a record succeeds exactly when its operations are well keyed, and gives a frozen change holding that record |
| Changes.DocumentChange.FromJsonAsWritten | model/DocumentChange.js:157-159 | As written, `fromJSON` throws a TypeError for every record |
| Changes.DocumentChange.Invert | model/DocumentChange.js:114-122 | The inverse is a new provisional change with the inverted operations in reverse order, before and after swapped; it fails exactly when the operations are not well keyed |
| Changes.Reload | model/DocumentChange.js:102-112 | Over the corrected constructor, `fromJSON(toJSON())` of a consistent change succeeds and keeps its id, state, operations, before and after |
| Changes.ReloadAsWritten | model/DocumentChange.js:102-112 | As written, `fromJSON(toJSON())` throws a TypeError for every change |
| Changes.InvertTwice | model/DocumentChange.js:114-122 | Inverting a consistent change twice gives its operations, before and after back |
| Sessions.DocumentSession.constructor | model/DocumentSession.js:9-21 | A new session has version 0 and all stacks empty |
| Sessions.DocumentSession.GetLastChange | model/DocumentSession.js:113-115 | The last change is absent exactly when nothing can be undone, and is otherwise the top of the undo stack |
| Sessions.DocumentSession.Undo | model/DocumentSession.js:33-43 | An empty undo stack changes nothing. Otherwise the top is popped first. On success its inverse is pushed on the redo stack, applied and notified with `replay`. An inversion that throws loses the change. A consistent session stays consistent and never throws |
| Sessions.DocumentSession.Redo | model/DocumentSession.js:45-55 | The mirror image of undo, moving the inverse of the redo top onto the undo stack |
| Sessions.DocumentSession.Commit | model/DocumentSession.js:57-91 | A frozen change throws before anything happens. Otherwise the change is stamped and applied. The compressor is asked only when the last change is open and younger than 1500 ms. Without a merge the change is scheduled and pushed. The redo stack is always cleared. The change is notified unless `silent`, and a `null` info throws at the end |
| Sessions.DocumentSession.FinalizeChange | model/DocumentSession.js:93-96 | The state becomes `undefined` (the exported constant), so the change is not final; it is then handed to the hub |
| Sessions.DocumentSession.FinalizeTimeout | model/DocumentSession.js:76-78 | The scheduled callback does nothing for a final change and finalizes any other |
| Sessions.UndoThenRedo | model/DocumentSession.js:33-55 | Undo then redo restores both stack lengths; the redo stack is unchanged, and the change on top has the original operations, before and after |
| Toc.ComputeEntries | ui/TOC.js:69-85 | Without a `main` node the computation throws; otherwise it is the headings of `main`'s children |
| Toc.HeadingsOk | ui/TOC.js:72-83 | Computing entries succeeds exactly when every listed child id names a node |
| Toc.PositionsHeadings | ui/TOC.js:73-83 | Every entry position points at a heading child |
| Toc.PositionsIncrease | ui/TOC.js:73-83 | Entry positions strictly increase: entries keep document order without repeats |
| Toc.PositionsComplete | ui/TOC.js:73-83 | Every heading child has an entry |
| Toc.HeadingsEntries | ui/TOC.js:69-85 | Each entry carries the id, content, level and node of the heading at its position |
| Toc.OpTriggers | ui/TOC.js:45-61 | A create or delete triggers exactly when its node type is a listed type, and throws on `null` node data; any other operation triggers exactly when the node at its path's head exists and has a listed type |
| Toc.ScanQuiet | ui/TOC.js:44-62 | The scan finds nothing exactly when no operation triggers |
| Toc.ScanStopsAtTrigger | ui/TOC.js:44-62 | The scan reports an update when the first operation that does not pass quietly triggers one |
| Toc.TOC.constructor | ui/TOC.js:11-16 | The active entry is the first entry's id, or none when there are no entries |
| Toc.TOC.Open | ui/TOC.js:7-22 | Opening computes the entries from the document, fails exactly when that computation throws, and sets the active entry |
| Toc.TOC.HandleDocumentChange | ui/TOC.js:33-67 | When an operation triggers, the entries are recomputed and "toc:updated" is emitted; otherwise nothing changes; a throw leaves the TOC unchanged |

## Left out

- `ObjectOperation`, `TextOperation` and `ArrayOperation` are not part of this model. An operation is a closed datatype holding their fields. Their `invert`, `fromJSON` and `toJSON` act as the functions `Operations.Invert` and the identity on operation data.
- `PathAdapter` is not part of this model. `updated` is a map keyed by whole path, and `get` on a path is read as "some recorded path extends it".
- `uuid()`, `Date.now()` and the compressor's `merge` answer are parameters of the methods that use them.
- The lodash `delay` becomes a `FinalizeScheduled` log event. The callback it runs is the method `FinalizeTimeout`, called by the caller.
- The document's `_apply` and `_notifyChangeListeners` are events in the session's log, with no effect on a document.
- `_commitChange` only logs to the console and becomes the `SentToHub` event. `_acknowledgeChange` and `_receivedChange` have empty bodies and are not modelled.
- Console output is not modelled. `undo` and `redo` with an empty stack only print an error.
- `doc.connect`, `dispose`, `markActiveEntry`, scrolling and the other view methods of the TOC are outside the modelled core.
- JSON numbers are integers. Fractions, exponents and floating point are not modelled. A number with a fraction or an exponent is rejected by the model's `JSON.parse`, so a line holding one, such as `s`, `p.x`, `1.5`, `null`, reads as an "expected object" error where the source reads it.
- Json.Parse: objects keep their members in insertion order. JavaScript lists integer-like keys first, so the source writes `{"b":1,"2":0}` back as `{"2":0,"b":1}`, and the model keeps the order as read.
- Strings are sequences of Unicode scalar values, where JavaScript strings are UTF-16 code units. An escaped surrogate pair decodes to its character. A lone surrogate escape such as `\ud800`, which `JSON.parse` accepts, is rejected. `slice(1, -1)` in `getString` removes one character, not one code unit, so a quoted token ending in a character outside the Basic Multilingual Plane is cut differently.
- The TOC's document is a map from id to node. A node's `content` is a string and its `level` an integer.
- A non-node operation with an empty path looks up `doc.get(undefined)`, which is taken to find no node.
- `_.includes(tocTypes, nodeType)` is modelled as list membership of a string type.
- The defensive copy `ops.slice(0)` and `Object.freeze` of `ops`, `before` and `after` have nothing to protect in the model, because operation lists and values are immutable.
- `traverse` calls back into code outside the model and is not modelled.
- Changes.DocumentChange.New: a restored record's operations are taken as already-built operations. Rebuilding them with `ObjectOperation.fromJSON` is not modelled.
- Serializer.NodeRoundTrip: the operation's own path is not written by the source, so the round trip is stated up to the path, which comes back as the split `val.id`.
- Serializer.NodeRoundTrip: it requires an id text that is non-empty, tab-free and not quoted, because the source loses the others. Node data without an `id` writes an empty field, which the tokenizer skips, so the JSON is read as the path and the read fails with "expected object". An id starting with `"` loses its first and last character.
- Serializer.SetRoundTrip: it requires a path of dot-free segments whose dotted form is non-empty and not quoted, because the source loses the others. A segment holding a dot comes back as two segments (`Serializer.DottedSegmentMerged`). An empty path writes an empty field that is skipped, shifting every later field. A dotted path starting with `"` loses its first and last character. The same conditions hold for Serializer.SetRoundTripDefined and Serializer.UpdateRoundTrip.
- Serializer.SetRoundTrip: the source writes `undefined` as `null`, so the round trip is stated up to that replacement.
- Numbers.NumberTextRoundTrip: JavaScript writes a number of magnitude 1e21 or more in exponent form, such as `1e+21`, which `parseInt` reads as 1. The model writes every digit, so in the source this round trip, and so Serializer.PrimitiveRoundTrip and Serializer.UpdateRoundTrip, hold only for positions below 1e21.
- Sessions.DocumentSession.Undo: the document's `_apply` and the change listeners are taken never to throw. In the source a throw there comes after the pop, so the change is lost and not pushed, as the model shows for a throwing `invert`. "A consistent session never throws" holds only under that assumption.
- Sessions.DocumentSession.Redo: the same assumption about `_apply` and the listeners, with the same loss of the popped change when they throw.
- Sessions.DocumentSession.Commit: `_apply` and the listeners are taken never to throw. In the source a throw from `_apply` leaves the change stamped but not pushed, and the redo stack not cleared.
- Sessions.UndoThenRedo: it holds only under the same assumption that `_apply` and the listeners do not throw.

## Findings

| source | as written | input that shows it | evidently intended | confidence | as-written member | corrected member |
|---|---|---|---|---|---|---|
| model/DocumentChange.js:49-63 | The single-record constructor freezes the object, then assigns `this.updated = null`. Under `"use strict"` that assignment throws a TypeError, so the record is never built | any record, e.g. `DocumentChange.fromJSON(change.toJSON())` | restore the fields and derive the tables first, then freeze the object | not executed | Changes.DocumentChange.NewAsWritten | Changes.DocumentChange.New |

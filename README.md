# Shape-diff visitors, results buffers and the JSON-lines encoder

A Dafny model of three small pieces of Optic's Rust diff engine.

- **Results buffers and visitor capabilities** (`Results.dfy`, module `Results`).
  `VisitorResults<R>` holds an `Option<Vec<R>>` field. `push` appends to it.
  `take_results` hands the list out and puts a present, empty list back.
  A visitor's `results()` answers either its own buffer or, by default, none.
  The default `push` and `take_results` dispatch on that answer.
  `InteractionVisitors::take_results` forwards to the path visitor.
  The buffer is a class whose field the methods reassign.
  Beside it, `Run` and `RunVisitor` replay a sequence of pushes and drains on values.
  The lemmas about buffers are proved on these replays.
- **Shape-diff visitors** (`ShapeDiff.dfy`, module `ShapeDiff`).
  `DiffPrimitiveVisitor::visit` and `DiffArrayVisitor::visit` judge one JSON value.
  They compare it against the candidate shapes (`ChoiceOutput`s) the specification admits at that position.
  They append to their own buffer:
  - one `UnspecifiedShape` at the trail origin when there are no candidates;
  - nothing when some candidate's kind fits the value's runtime kind;
  - otherwise one `UnmatchedShape` per candidate, in candidate order.

  `Fits` is the closure the source partitions by. `Partition` is the partition.
  `DiffRecords` is what a visit appends. Each `Visit` method is proved to append exactly `DiffRecords` of its inputs.
  Earlier buffer contents stay as they were.
  Because `DiffRecords` is a function of the inputs alone, repeating a visit appends the same records again.
- **JSON-lines encoder** (`Streams.dfy`, module `Streams`).
  `JsonLineEncoder::encode` serialises an item and appends it to a byte buffer.
  The delimiter goes before every item except the first; a `first` flag tracks this.
  `Emitted` folds this two-state machine over a list of items.
  `EmittedFromFreshIsJoin` proves that a fresh encoder appends the items joined by the delimiter.
  `JoinExtends` gives the same fact one encode at a time.
  `EncodeAll` runs `Encode` over a list of items, as the framed writer does, and is proved to leave the encoded items joined by the delimiter on the buffer.
  `Encode` leaves `first` equal to "nothing encoded yet", so this lemma applies after every call.

The serialiser (`serde_json::to_string`) is a function parameter of `Encode` that returns bytes or an error.
`ShapeTrail` is an abstract type. `ChoiceOutput` carries the trail its `shape_trail()` reports.
Both visits carry the precondition `Dispatched(visitor, json)`: primitives go to the primitive visitor and arrays to the array visitor.
This is the dispatch the `unreachable!` arms of the partition closures rely on.
The source reaches those arms only when the candidate list is non-empty, so the precondition is stricter than the source in one case; see "## Left out".

## Model

| member | source | states |
|---|---|---|
| `ShapeDiff.Fits` | diff/src/shapes/visitors/diff.rs:76-95 | A candidate fits exactly when its kind is the value's runtime kind: Bool↔BooleanKind, Number↔NumberKind, String↔StringKind, Null↔NullableKind for the primitive visitor, and Array↔ListKind for the array visitor (144-151). |
| `ShapeDiff.Partition` | diff/src/shapes/visitors/diff.rs:76-95 | The matched part holds only fitting candidates and the unmatched part only non-fitting ones. Together they are a permutation of the candidates. The matched part is empty iff no candidate fits, and then the unmatched part is the whole list in order. |
| `ShapeDiff.DiffRecords` | diff/src/shapes/visitors/diff.rs:68-103 | No candidates gives exactly `[UnspecifiedShape(jsonTrail, trailOrigin)]`. Any fitting candidate gives no records. Otherwise there is one record per candidate, and record i is `UnmatchedShape(jsonTrail, choices[i].shapeTrail)`. |
| `ShapeDiff.ConformingAlternativeSuffices` | diff/src/shapes/visitors/diff.rs:96-103 | Union semantics: a fitting candidate anywhere in the list silences the node, whatever candidates stand before or after it. |
| `ShapeDiff.RejectionsConcatenate` | diff/src/shapes/visitors/diff.rs:96-103 | When nothing fits, the records are per candidate, not per node. Reports for `left + right` are the reports for `left` followed by those for `right`. |
| `ShapeDiff.UnmatchedRecordsAppend` | diff/src/shapes/visitors/diff.rs:97-102 | The per-candidate `UnmatchedShape` records of a concatenated list are those of each part, in order. |
| `ShapeDiff.PushUnmatched` | diff/src/shapes/visitors/diff.rs:97-102 | The `for_each` over rejected candidates appends exactly one `UnmatchedShape(jsonTrail, c.shapeTrail)` per candidate c, in order, after the earlier contents. The same loop is at 154-159. |
| `ShapeDiff.DiffPrimitiveVisitor.Visit` | diff/src/shapes/visitors/diff.rs:61-104 | Given a Bool, Number, String or Null value, appends exactly `DiffRecords` of the inputs to its own buffer. Earlier contents are unchanged and the buffer stays present. |
| `ShapeDiff.DiffArrayVisitor.Visit` | diff/src/shapes/visitors/diff.rs:129-163 | Given an Array value, appends exactly `DiffRecords` of the inputs to its own buffer. Returns an empty candidate list in every branch. |
| `ShapeDiff.DiffPrimitiveVisitor.Results` | diff/src/shapes/visitors/diff.rs:54-57 | `results()` is always present: it is the visitor's own buffer. |
| `ShapeDiff.DiffArrayVisitor.Results` | diff/src/shapes/visitors/diff.rs:122-125 | `results()` is always present: it is the visitor's own buffer. |
| `ShapeDiff.DiffPrimitiveVisitor.constructor` | diff/src/shapes/visitors/diff.rs:46-51 | A new primitive visitor owns a fresh, present, empty buffer. |
| `ShapeDiff.DiffArrayVisitor.constructor` | diff/src/shapes/visitors/diff.rs:114-119 | A new array visitor owns a fresh, present, empty buffer. |
| `ShapeDiff.DiffVisitors.constructor` | diff/src/shapes/visitors/diff.rs:15-21 | The bundle holds two fresh visitors. Each has its own fresh, empty buffer, and the two buffers are distinct. |
| `ShapeDiff.DiffVisitors.Array` | diff/src/shapes/visitors/diff.rs:30-32 | `array()` is the bundle's array visitor. Its buffer is not the primitive visitor's. |
| `ShapeDiff.DiffVisitors.Primitive` | diff/src/shapes/visitors/diff.rs:34-36 | `primitive()` is the bundle's primitive visitor. Its buffer is not the array visitor's. |
| `Results.VisitorResults.constructor` | diff/src/interactions/visitors/mod.rs:53-57 | A new buffer holds a present, empty list. |
| `Results.VisitorResults.Push` | diff/src/interactions/visitors/mod.rs:59-63 | Appends the result at the end when the list is present and changes nothing when it is absent. A present list stays present. |
| `Results.VisitorResults.TakeResults` | diff/src/interactions/visitors/mod.rs:65-69 | Returns the field as it was: `Some` of the current contents when present. Leaves a present, empty list. |
| `Results.RunKeepsFieldPresent` | diff/src/interactions/visitors/mod.rs:53-69 | From a present field (as `new` leaves it), any sequence of pushes and drains keeps the field present. No drain returns `None`. |
| `Results.RunPushes` | diff/src/interactions/visitors/mod.rs:59-63 | Pushes append at the end in call order and drain nothing. |
| `Results.RunAppend` | diff/src/interactions/visitors/mod.rs:59-69 | Replaying two sequences of calls one after the other equals replaying their concatenation. Drained values come in call order. |
| `Results.DrainReturnsPushed` | diff/src/interactions/visitors/mod.rs:59-69 | A drain returns what the buffer held plus everything pushed since, in push order. It leaves a present, empty list. |
| `Results.SecondDrainIsEmpty` | diff/src/interactions/visitors/mod.rs:65-69 | After any history, a drain straight after a drain returns `Some([])`, never `None`. |
| `Results.NoResultsDrainsNone` | diff/src/interactions/visitors/mod.rs:18-34 | A visitor whose `results()` is none keeps no storage. Every drain returns `None`, one per drain, however many pushes came first. |
| `Results.BufferedVisitorUsesBuffer` | diff/src/interactions/visitors/mod.rs:22-34 | A visitor whose `results()` is a buffer pushes into that buffer and drains it, exactly as the buffer does on its own. |
| `Results.InteractionVisitor.Push` | diff/src/interactions/visitors/mod.rs:22-26 | The default `push`: pushes into the buffer when `results()` is present and does nothing otherwise. |
| `Results.InteractionVisitor.TakeResults` | diff/src/interactions/visitors/mod.rs:28-34 | The default `take_results`: drains the buffer when `results()` is present and returns `None` otherwise. |
| `Results.InteractionVisitor.WithoutResults` | diff/src/interactions/visitors/mod.rs:18-20 | A visitor that keeps the default `results()`, which answers none. |
| `Results.InteractionVisitor.WithResults` | diff/src/interactions/visitors/mod.rs:18-20 | A visitor whose `results()` answers the given buffer. |
| `Results.InteractionVisitors.TakeResults` | diff/src/interactions/visitors/mod.rs:11-14 | `take_results` of the bundle returns and leaves exactly what the path visitor's `take_results` does. |
| `Streams.JsonLineEncoder.Default` | workspaces/diff-engine/src/streams/mod.rs:21-28 | `default()` builds an encoder in its first state with delimiter `"\n"`. |
| `Streams.JsonLineEncoder.constructor` | workspaces/diff-engine/src/streams/mod.rs:30-36 | `new` builds an encoder in its first state with a copy of the given delimiter. |
| `Streams.JsonLineEncoder.Encode` | workspaces/diff-engine/src/streams/mod.rs:45-55 | If serialisation fails, returns `Err(Json(e))` and leaves the buffer and `first` alone. Otherwise appends the item, preceded by the delimiter unless it is the first, to the old buffer. Clears `first` and returns `Ok`. |
| `Streams.EmittedAfterFirst` | workspaces/diff-engine/src/streams/mod.rs:48-53 | Once `first` is cleared, every encoded item is preceded by the delimiter. |
| `Streams.EmittedFromFreshIsJoin` | workspaces/diff-engine/src/streams/mod.rs:45-55 | Successful encodes of items i1..in from a fresh encoder append exactly join(delimiter, [ser(i1)..ser(in)]). |
| `Streams.JoinExtends` | workspaces/diff-engine/src/streams/mod.rs:48-53 | One more successful encode turns join(delimiter, items) into join(delimiter, items + [item]). The delimiter is written only when something was encoded before. |
| `Streams.JsonLineEncoder.EncodeAll` | workspaces/diff-engine/src/streams/mod.rs:45-55 | Repeated `encode` from a fresh encoder, stopping at the first serialisation error: the buffer gains exactly the successfully serialised items joined by the delimiter, in item order. On error, the failing item is the first one not encoded and its error is returned as `Err(Json(e))`. |
| `Streams.JsonLinesCodec` | workspaces/diff-engine/src/streams/mod.rs:129-137 | The JSON-lines codec is a fresh encoder in its first state with delimiter `"\n"`. |
| `Streams.JsonArrayItemsCodec` | workspaces/diff-engine/src/streams/mod.rs:139-146 | The array-items codec is a fresh encoder in its first state with delimiter `"\n,"`. |

## Left out

- Object nodes are not modelled. No object visitor appears in diff/src/shapes/visitors/diff.rs, whose `DiffVisitors` holds only an array and a primitive visitor.
- The diff visitors' results buffer is the `VisitorResults` of `shapes::visitors` (imported at diff/src/shapes/visitors/diff.rs:1-3), whose code is not part of this model. It is taken to behave like the interactions buffer of diff/src/interactions/visitors/mod.rs:48-69: `new` gives a present, empty list and `push` appends. `ShapeDiff.DiffPrimitiveVisitor.Visit`, `ShapeDiff.DiffArrayVisitor.Visit` and the two visitor constructors rest on that assumption.
- `ShapeDiff.DiffPrimitiveVisitor.Visit`, `ShapeDiff.DiffArrayVisitor.Visit`: the precondition `Dispatched` is stricter than the source in one case. A wrongly dispatched value with an empty candidate list gets an `UnspecifiedShape` in the source, because both visits return before the partition closure (diff/src/shapes/visitors/diff.rs:68-74, 136-142). The model forbids that call too, since the driver never makes it.
- `PathVisitor::visit` is not modelled. Only the trait is declared, with no implementation in this model, so `InteractionVisitor` models just the capability it inherits. `PathVisitorContext` is a datatype with no operation.
- `ShapeTrail` and the computation behind `ChoiceOutput::shape_trail()` are abstract. The specification model that builds `ChoiceOutput` lists is not part of this model.
- `JsonTrail` is modelled as a sequence of key/index steps. Its cloning per record is plain value copying here.
- `ShapeDiff.DiffArrayVisitor.Visit` returns an empty candidate list, as the source does in both branches. So item-level recursion into arrays is not computed. This looks unfinished in the source and is kept as written.
- `serde_json::to_string` is an opaque function parameter. `buf.reserve` (capacity only) is not modelled. Bytes are a `byte` newtype, not `BytesMut`.
- `write_to_json_lines`, `write_to_json_array`, `FramedWrite`, `BufWriter`, the `[`/`]` framing, flushing and the panics on a failed send are asynchronous I/O and are not modelled. The `From` conversions into `JsonLineEncoderError` are not modelled either. `Encode` builds the `Json` variant directly.
- Concurrency is not modelled. Each visitor owns its buffer, and the model checks only the sequential behaviour.

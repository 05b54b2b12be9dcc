/**
 * The shape-diff visitors for primitive and array JSON nodes
 * (diff/src/shapes/visitors/diff.rs).
 *
 * A visit judges one observed JSON value against the shape alternatives the
 * specification admits at that position and appends diff records to the
 * visitor's own results buffer: one `UnspecifiedShape` when there are no
 * alternatives, nothing when some alternative accepts the value's kind, and
 * one `UnmatchedShape` per alternative when none does.
 */
module ShapeDiff {
  import opened Results

  /** A JSON value, as the driver hands it to a visitor. */
  datatype JsonValue =
    | Null
    | Bool(b: bool)
    | Number(literal: string)
    | String(s: string)
    | Array(items: seq<JsonValue>)
    | Object(members: seq<(string, JsonValue)>)

  predicate IsPrimitive(json: JsonValue)
  {
    json.Null? || json.Bool? || json.Number? || json.String?
  }

  /** One step of an observed-data trail: an object key or an array index. */
  datatype JsonTrailStep = ObjectKey(key: string) | ArrayItem(index: nat)

  /** Where a value sits inside the observed JSON body. */
  type JsonTrail = seq<JsonTrailStep>

  /** Where a shape sits inside the recorded specification; its structure is not part of this model. */
  type ShapeTrail(==)

  /** The kinds a shape may have; `OtherKind` stands for the kinds no visitor here tests for. */
  datatype ShapeKind =
    | ObjectKind
    | ListKind
    | StringKind
    | NumberKind
    | BooleanKind
    | NullableKind
    | OtherKind(name: string)

  /**
   * One admissible shape alternative: its core kind, and the specification trail
   * that its `shape_trail()` reports.
   */
  datatype ChoiceOutput = ChoiceOutput(coreShapeKind: ShapeKind, shapeTrail: ShapeTrail)

  datatype ShapeDiffResult =
    | UnspecifiedShape(jsonTrail: JsonTrail, shapeTrail: ShapeTrail)
    | UnmatchedShape(jsonTrail: JsonTrail, shapeTrail: ShapeTrail)

  /** The one kind that describes a JSON value at run time. */
  function RuntimeKind(json: JsonValue): ShapeKind
  {
    match json
    case Null => NullableKind
    case Bool(_) => BooleanKind
    case Number(_) => NumberKind
    case String(_) => StringKind
    case Array(_) => ListKind
    case Object(_) => ObjectKind
  }

  /** Which of the two visitors a node was dispatched to. */
  datatype NodeVisitor = PrimitiveVisitor | ArrayVisitor

  /** The driver dispatches primitives to the primitive visitor and arrays to the array visitor; nothing else reaches them. */
  predicate Dispatched(visitor: NodeVisitor, json: JsonValue)
  {
    match visitor
    case PrimitiveVisitor => IsPrimitive(json)
    case ArrayVisitor => json.Array?
  }

  /**
   * The predicate each visitor partitions its alternatives by: an alternative
   * fits when its kind is the one the value's runtime kind requires.
   */
  function Fits(visitor: NodeVisitor, json: JsonValue, kind: ShapeKind): (b: bool)
    requires Dispatched(visitor, json)
    ensures b <==> kind == RuntimeKind(json)
  {
    match visitor
    case PrimitiveVisitor =>
      (match json
       case Bool(_) => kind.BooleanKind?
       case Number(_) => kind.NumberKind?
       case String(_) => kind.StringKind?
       case Null => kind.NullableKind?)
    case ArrayVisitor =>
      (match json
       case Array(_) => kind.ListKind?)
  }

  /**
   * Splits the alternatives into those that fit and those that do not, each
   * part in the order of `choices`.
   */
  function Partition(visitor: NodeVisitor, json: JsonValue, choices: seq<ChoiceOutput>)
    : (p: (seq<ChoiceOutput>, seq<ChoiceOutput>))
    requires Dispatched(visitor, json)
    ensures forall c :: c in p.0 ==> c.coreShapeKind == RuntimeKind(json)
    ensures forall c :: c in p.1 ==> c.coreShapeKind != RuntimeKind(json)
    ensures multiset(p.0) + multiset(p.1) == multiset(choices)
    ensures p.0 == [] <==> forall c :: c in choices ==> c.coreShapeKind != RuntimeKind(json)
    ensures p.0 == [] ==> p.1 == choices
  {
    if choices == [] then ([], [])
    else
      var rest := Partition(visitor, json, choices[1..]);
      assert choices == [choices[0]] + choices[1..];
      if Fits(visitor, json, choices[0].coreShapeKind) then ([choices[0]] + rest.0, rest.1)
      else (rest.0, [choices[0]] + rest.1)
  }

  /** One `UnmatchedShape` per alternative, in order, each at the node's trail. */
  function UnmatchedRecords(jsonTrail: JsonTrail, choices: seq<ChoiceOutput>): (records: seq<ShapeDiffResult>)
  {
    seq(|choices|, i requires 0 <= i < |choices| => UnmatchedShape(jsonTrail, choices[i].shapeTrail))
  }

  /**
   * The records a visit of `json` appends, computed as the visitors compute
   * them: no alternatives gives one `UnspecifiedShape` at the trail origin; a
   * fitting alternative gives nothing; otherwise every alternative is reported.
   */
  function DiffRecords(visitor: NodeVisitor, json: JsonValue, jsonTrail: JsonTrail, trailOrigin: ShapeTrail,
                       choices: seq<ChoiceOutput>): (records: seq<ShapeDiffResult>)
    requires Dispatched(visitor, json)
    ensures choices == [] ==> records == [UnspecifiedShape(jsonTrail, trailOrigin)]
    ensures (exists i :: 0 <= i < |choices| && choices[i].coreShapeKind == RuntimeKind(json)) ==> records == []
    ensures choices != [] && (forall i :: 0 <= i < |choices| ==> choices[i].coreShapeKind != RuntimeKind(json)) ==>
              |records| == |choices| &&
              forall i :: 0 <= i < |choices| ==> records[i] == UnmatchedShape(jsonTrail, choices[i].shapeTrail)
  {
    if choices == [] then [UnspecifiedShape(jsonTrail, trailOrigin)]
    else
      var p := Partition(visitor, json, choices);
      if p.0 == [] then UnmatchedRecords(jsonTrail, p.1) else []
  }

  /**
   * Union semantics: one alternative that accepts the value's kind silences the
   * node, whatever other alternatives stand before or after it.
   */
  lemma ConformingAlternativeSuffices(visitor: NodeVisitor, json: JsonValue, jsonTrail: JsonTrail,
                                      trailOrigin: ShapeTrail, before: seq<ChoiceOutput>, c: ChoiceOutput,
                                      after: seq<ChoiceOutput>)
    requires Dispatched(visitor, json)
    requires c.coreShapeKind == RuntimeKind(json)
    ensures DiffRecords(visitor, json, jsonTrail, trailOrigin, before + [c] + after) == []
  {
  }

  /** With no fitting alternative, a non-empty list is reported alternative by alternative. */
  lemma AllRejectedReportsEach(visitor: NodeVisitor, json: JsonValue, jsonTrail: JsonTrail, trailOrigin: ShapeTrail,
                               choices: seq<ChoiceOutput>)
    requires Dispatched(visitor, json)
    requires choices != []
    requires forall i :: 0 <= i < |choices| ==> choices[i].coreShapeKind != RuntimeKind(json)
    ensures DiffRecords(visitor, json, jsonTrail, trailOrigin, choices) == UnmatchedRecords(jsonTrail, choices)
  {
  }

  /**
   * When no alternative fits, the node yields one record per rejected
   * alternative, not one per node: reports for a split list of alternatives
   * are the reports for each part, in order.
   */
  lemma RejectionsConcatenate(visitor: NodeVisitor, json: JsonValue, jsonTrail: JsonTrail, trailOrigin: ShapeTrail,
                              left: seq<ChoiceOutput>, right: seq<ChoiceOutput>)
    requires Dispatched(visitor, json)
    requires left != [] && right != []
    requires forall i :: 0 <= i < |left| ==> left[i].coreShapeKind != RuntimeKind(json)
    requires forall i :: 0 <= i < |right| ==> right[i].coreShapeKind != RuntimeKind(json)
    ensures DiffRecords(visitor, json, jsonTrail, trailOrigin, left + right)
         == DiffRecords(visitor, json, jsonTrail, trailOrigin, left)
          + DiffRecords(visitor, json, jsonTrail, trailOrigin, right)
  {
    var all := left + right;
    forall i | 0 <= i < |all| ensures all[i].coreShapeKind != RuntimeKind(json) {
      if i >= |left| {
        assert all[i] == right[i - |left|];
      }
    }
    AllRejectedReportsEach(visitor, json, jsonTrail, trailOrigin, all);
    AllRejectedReportsEach(visitor, json, jsonTrail, trailOrigin, left);
    AllRejectedReportsEach(visitor, json, jsonTrail, trailOrigin, right);
    UnmatchedRecordsAppend(jsonTrail, left, right);
  }

  /** Per-alternative records of a split list are the records of each part, in order. */
  lemma UnmatchedRecordsAppend(jsonTrail: JsonTrail, left: seq<ChoiceOutput>, right: seq<ChoiceOutput>)
    ensures UnmatchedRecords(jsonTrail, left + right) == UnmatchedRecords(jsonTrail, left) + UnmatchedRecords(jsonTrail, right)
  {
  }

  // ---------------------------------------------------------------------------
  // The visitors

  /** Pushes one `UnmatchedShape` per rejected alternative, in order, each with its own copy of the node's trail. */
  method PushUnmatched(results: VisitorResults<ShapeDiffResult>, jsonTrail: JsonTrail, unmatched: seq<ChoiceOutput>)
    requires results.Valid()
    modifies results
    ensures results.Valid()
    ensures results.Contents() == old(results.Contents()) + UnmatchedRecords(jsonTrail, unmatched)
  {
    for i := 0 to |unmatched|
      invariant results.Valid()
      invariant results.Contents() == old(results.Contents()) + UnmatchedRecords(jsonTrail, unmatched[..i])
    {
      results.Push(UnmatchedShape(jsonTrail, unmatched[i].shapeTrail));
      assert unmatched[..i + 1] == unmatched[..i] + [unmatched[i]];
      UnmatchedRecordsAppend(jsonTrail, unmatched[..i], [unmatched[i]]);
    }
    assert unmatched[..|unmatched|] == unmatched;
  }

  /** `DiffPrimitiveVisitor`: judges booleans, numbers, strings and nulls. */
  class DiffPrimitiveVisitor {
    const results: VisitorResults<ShapeDiffResult>

    ghost predicate Valid()
      reads results
    {
      results.Valid()
    }

    constructor ()
      ensures Valid() && fresh(results) && results.Contents() == []
    {
      results := new VisitorResults();
    }

    /** `results()`: this visitor always exposes its buffer. */
    function Results(): (r: VisitorResults?<ShapeDiffResult>)
      ensures r != null && r == results
    {
      results
    }

    method Visit(json: JsonValue, jsonTrail: JsonTrail, trailOrigin: ShapeTrail, choices: seq<ChoiceOutput>)
      requires Dispatched(PrimitiveVisitor, json)
      requires Valid()
      modifies results
      ensures Valid()
      ensures results.Contents()
           == old(results.Contents()) + DiffRecords(PrimitiveVisitor, json, jsonTrail, trailOrigin, choices)
    {
      if choices == [] {
        results.Push(UnspecifiedShape(jsonTrail, trailOrigin));
        return;
      }
      var p := Partition(PrimitiveVisitor, json, choices);
      var matched, unmatched := p.0, p.1;
      if matched == [] {
        PushUnmatched(results, jsonTrail, unmatched);
      }
    }
  }

  /** `DiffArrayVisitor`: judges arrays. */
  class DiffArrayVisitor {
    const results: VisitorResults<ShapeDiffResult>

    ghost predicate Valid()
      reads results
    {
      results.Valid()
    }

    constructor ()
      ensures Valid() && fresh(results) && results.Contents() == []
    {
      results := new VisitorResults();
    }

    /** `results()`: this visitor always exposes its buffer. */
    function Results(): (r: VisitorResults?<ShapeDiffResult>)
      ensures r != null && r == results
    {
      results
    }

    /** Returns the alternatives to visit the array's items against: always none, in every branch. */
    method Visit(json: JsonValue, jsonTrail: JsonTrail, trailOrigin: ShapeTrail, choices: seq<ChoiceOutput>)
      returns (itemChoices: seq<ChoiceOutput>)
      requires Dispatched(ArrayVisitor, json)
      requires Valid()
      modifies results
      ensures Valid()
      ensures results.Contents()
           == old(results.Contents()) + DiffRecords(ArrayVisitor, json, jsonTrail, trailOrigin, choices)
      ensures itemChoices == []
    {
      if choices == [] {
        results.Push(UnspecifiedShape(jsonTrail, trailOrigin));
        return [];
      }
      var p := Partition(ArrayVisitor, json, choices);
      var matched, unmatched := p.0, p.1;
      if matched == [] {
        PushUnmatched(results, jsonTrail, unmatched);
      }
      return [];
    }
  }

  /** `DiffVisitors`: the bundle of the two diff visitors. */
  class DiffVisitors {
    const arrayVisitor: DiffArrayVisitor
    const primitiveVisitor: DiffPrimitiveVisitor

    /** Each visitor owns its own buffer. */
    ghost predicate Valid()
      reads arrayVisitor.results, primitiveVisitor.results
    {
      arrayVisitor.Valid() && primitiveVisitor.Valid() && arrayVisitor.results != primitiveVisitor.results
    }

    constructor ()
      ensures Valid()
      ensures fresh(arrayVisitor) && fresh(primitiveVisitor) && fresh(arrayVisitor.results) && fresh(primitiveVisitor.results)
      ensures arrayVisitor.results.Contents() == [] && primitiveVisitor.results.Contents() == []
    {
      arrayVisitor := new DiffArrayVisitor();
      primitiveVisitor := new DiffPrimitiveVisitor();
    }

    /** `array()`: the array visitor, whose buffer is not the primitive visitor's. */
    function Array(): (v: DiffArrayVisitor)
      requires Valid()
      reads arrayVisitor.results, primitiveVisitor.results
      ensures v == arrayVisitor && v.Results() != primitiveVisitor.Results()
    {
      arrayVisitor
    }

    /** `primitive()`: the primitive visitor, whose buffer is not the array visitor's. */
    function Primitive(): (v: DiffPrimitiveVisitor)
      requires Valid()
      reads arrayVisitor.results, primitiveVisitor.results
      ensures v == primitiveVisitor && v.Results() != arrayVisitor.Results()
    {
      primitiveVisitor
    }
  }
}

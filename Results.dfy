/**
 * Results buffers and the capability every interaction visitor has
 * (diff/src/interactions/visitors/mod.rs).
 *
 * A `VisitorResults` owns an optional list of results; `push` appends to it and
 * `take_results` hands the list out and puts a fresh empty list in its place.
 * A visitor exposes such a buffer through `results()`, or answers "none" when it
 * keeps no results at all; the default `push` and `take_results` of a visitor
 * dispatch on that answer.
 */
module Results {

  datatype Option<+T> = None | Some(value: T)

  // ---------------------------------------------------------------------------
  // The `results` field of a buffer, as a value

  /** The field after `VisitorResults::push(r)`: appended to when present, left alone when absent. */
  function AfterPush<R>(field: Option<seq<R>>, r: R): Option<seq<R>>
  {
    match field
    case Some(rs) => Some(rs + [r])
    case None => None
  }

  /** What `VisitorResults::take_results` returns, and the field it leaves behind. */
  function AfterTake<R>(field: Option<seq<R>>): (Option<seq<R>>, Option<seq<R>>)
  {
    (field, Some([]))
  }

  /** One call on a buffer or a visitor: a push of one result, or a drain. */
  datatype Op<R> = Push(item: R) | Take

  /** The calls that push `rs`, one by one, in order. */
  function Pushes<R>(rs: seq<R>): (ops: seq<Op<R>>)
  {
    seq(|rs|, i requires 0 <= i < |rs| => Push(rs[i]))
  }

  /** The number of drains among `ops`. */
  function Takes<R>(ops: seq<Op<R>>): nat
  {
    if ops == [] then 0 else (if ops[0].Take? then 1 else 0) + Takes(ops[1..])
  }

  /**
   * Replays `ops` on a buffer whose field starts as `field`: the field at the end,
   * and what each drain returned, in call order.
   */
  function Run<R>(field: Option<seq<R>>, ops: seq<Op<R>>): (Option<seq<R>>, seq<Option<seq<R>>>)
    decreases |ops|
  {
    if ops == [] then (field, [])
    else match ops[0]
      case Push(r) => Run(AfterPush(field, r), ops[1..])
      case Take =>
        var rest := Run(AfterTake(field).1, ops[1..]);
        (rest.0, [AfterTake(field).0] + rest.1)
  }

  /** Once the field is present (as `new` leaves it) it stays present, and no drain ever returns "none". */
  lemma {:induction false} RunKeepsFieldPresent<R>(field: Option<seq<R>>, ops: seq<Op<R>>)
    requires field.Some?
    ensures Run(field, ops).0.Some?
    ensures forall k :: 0 <= k < |Run(field, ops).1| ==> Run(field, ops).1[k].Some?
    decreases |ops|
  {
    if ops != [] {
      match ops[0]
      case Push(r) => RunKeepsFieldPresent(AfterPush(field, r), ops[1..]);
      case Take => RunKeepsFieldPresent(Some([]), ops[1..]);
    }
  }

  /** Pushes append at the end, in call order, and drain nothing. */
  lemma {:induction false} RunPushes<R>(xs: seq<R>, rs: seq<R>)
    ensures Run(Some(xs), Pushes(rs)) == (Some(xs + rs), [])
    decreases |rs|
  {
    if rs != [] {
      assert Pushes(rs)[0] == Push(rs[0]);
      assert Pushes(rs)[1..] == Pushes(rs[1..]);
      assert Run(Some(xs), Pushes(rs)) == Run(Some(xs + [rs[0]]), Pushes(rs[1..]));
      RunPushes(xs + [rs[0]], rs[1..]);
      assert xs + [rs[0]] + rs[1..] == xs + rs;
    } else {
      assert Pushes(rs) == [];
      assert xs + rs == xs;
    }
  }

  /** Replaying two runs of calls one after the other is replaying their concatenation. */
  lemma {:induction false} RunAppend<R>(field: Option<seq<R>>, ops1: seq<Op<R>>, ops2: seq<Op<R>>)
    ensures Run(field, ops1 + ops2)
         == (Run(Run(field, ops1).0, ops2).0, Run(field, ops1).1 + Run(Run(field, ops1).0, ops2).1)
    decreases |ops1|
  {
    if ops1 == [] {
      assert ops1 + ops2 == ops2;
      assert Run(field, ops1) == (field, []);
      assert [] + Run(field, ops2).1 == Run(field, ops2).1;
    } else {
      assert (ops1 + ops2)[0] == ops1[0];
      assert (ops1 + ops2)[1..] == ops1[1..] + ops2;
      match ops1[0]
      case Push(r) => RunAppend(AfterPush(field, r), ops1[1..], ops2);
      case Take =>
        RunAppend(Some([]), ops1[1..], ops2);
        var mid := Run(Some([]), ops1[1..]);
        assert [field] + (mid.1 + Run(mid.0, ops2).1) == ([field] + mid.1) + Run(mid.0, ops2).1;
    }
  }

  /**
   * A drain returns exactly what the buffer held plus everything pushed since,
   * in push order, and leaves a present, empty field.
   */
  lemma DrainReturnsPushed<R>(xs: seq<R>, rs: seq<R>)
    ensures Run(Some(xs), Pushes(rs) + [Take]) == (Some([]), [Some(xs + rs)])
  {
    RunAppend(Some(xs), Pushes(rs), [Take]);
    RunPushes(xs, rs);
    var take: seq<Op<R>> := [Take];
    assert take[0] == Take && take[1..] == [];
    assert Run(Some([]), take[1..]) == (Some([]), []);
    assert [Some(xs + rs)] + [] == [Some(xs + rs)];
    assert Run(Some(xs + rs), take) == (Some([]), [Some(xs + rs)]);
    assert Run(Some(xs), Pushes(rs)).1 + [Some(xs + rs)] == [Some(xs + rs)];
  }

  /** Whatever happened before, a drain straight after a drain returns a present, empty list. */
  lemma SecondDrainIsEmpty<R>(field: Option<seq<R>>, ops: seq<Op<R>>)
    ensures |Run(field, ops + [Take, Take]).1| >= 2
    ensures Run(field, ops + [Take, Take]).1[|Run(field, ops + [Take, Take]).1| - 1] == Some([])
  {
    RunAppend(field, ops, [Take, Take]);
  }

  // ---------------------------------------------------------------------------
  // What a visitor's `results()` answers, as a value

  /** `NoResults` is the default `results()` (none); `Buffer` is a visitor that exposes its buffer's field. */
  datatype Storage<R> = NoResults | Buffer(field: Option<seq<R>>)

  /** The default `InteractionVisitor::push`. */
  function VisitorPush<R>(s: Storage<R>, r: R): Storage<R>
  {
    match s
    case NoResults => NoResults
    case Buffer(field) => Buffer(AfterPush(field, r))
  }

  /** The default `InteractionVisitor::take_results`: what it returns, and the storage it leaves. */
  function VisitorTake<R>(s: Storage<R>): (Option<seq<R>>, Storage<R>)
  {
    match s
    case NoResults => (None, NoResults)
    case Buffer(field) => (AfterTake(field).0, Buffer(AfterTake(field).1))
  }

  /** Replays `ops` through a visitor's default methods. */
  function RunVisitor<R>(s: Storage<R>, ops: seq<Op<R>>): (Storage<R>, seq<Option<seq<R>>>)
    decreases |ops|
  {
    if ops == [] then (s, [])
    else match ops[0]
      case Push(r) => RunVisitor(VisitorPush(s, r), ops[1..])
      case Take =>
        var rest := RunVisitor(VisitorTake(s).1, ops[1..]);
        (rest.0, [VisitorTake(s).0] + rest.1)
  }

  /** A visitor without a buffer drops every push and answers "none" to every drain, however many pushes came first. */
  lemma {:induction false} NoResultsDrainsNone<R>(ops: seq<Op<R>>)
    ensures RunVisitor(NoResults, ops) == (NoResults, seq(Takes(ops), _ => None))
    decreases |ops|
  {
    var none: Option<seq<R>> := None;
    if ops != [] {
      NoResultsDrainsNone(ops[1..]);
      if ops[0].Take? {
        assert RunVisitor(NoResults, ops).1 == [none] + seq(Takes(ops[1..]), _ => none);
        assert [none] + seq(Takes(ops[1..]), _ => none) == seq(Takes(ops), _ => none);
      } else {
        assert RunVisitor(NoResults, ops) == RunVisitor(NoResults, ops[1..]);
      }
    } else {
      assert seq(Takes(ops), _ => none) == [];
    }
  }

  /** A visitor with a buffer pushes into that buffer and drains it. */
  lemma {:induction false} BufferedVisitorUsesBuffer<R>(field: Option<seq<R>>, ops: seq<Op<R>>)
    ensures RunVisitor(Buffer(field), ops) == (Buffer(Run(field, ops).0), Run(field, ops).1)
    decreases |ops|
  {
    if ops != [] {
      match ops[0]
      case Push(r) => BufferedVisitorUsesBuffer(AfterPush(field, r), ops[1..]);
      case Take => BufferedVisitorUsesBuffer(Some([]), ops[1..]);
    }
  }

  // ---------------------------------------------------------------------------
  // The buffer and the visitors, as objects

  /** `VisitorResults<R>`: the accumulate-then-drain buffer of one visitor. */
  class VisitorResults<R> {
    var results: Option<seq<R>>

    /** The field is never left absent. */
    ghost predicate Valid()
      reads this
    {
      results.Some?
    }

    ghost function Contents(): seq<R>
      reads this
      requires Valid()
    {
      results.value
    }

    constructor ()
      ensures Valid() && Contents() == []
    {
      results := Some([]);
    }

    method Push(r: R)
      modifies this
      ensures results == AfterPush(old(results), r)
      ensures old(Valid()) ==> Valid() && Contents() == old(Contents()) + [r]
    {
      if results.Some? {
        results := Some(results.value + [r]);
      }
    }

    method TakeResults() returns (flushed: Option<seq<R>>)
      modifies this
      ensures (flushed, results) == AfterTake(old(results))
      ensures Valid() && Contents() == []
      ensures old(Valid()) ==> flushed == Some(old(Contents()))
    {
      flushed := results;
      results := Some([]);
    }
  }

  /**
   * A visitor seen through the default methods of `InteractionVisitor`.
   * `results` is what its `results()` answers: null for a visitor that keeps the
   * default (none), the visitor's own buffer otherwise.
   */
  class InteractionVisitor<R> {
    const results: VisitorResults?<R>

    constructor WithoutResults()
      ensures results == null
    {
      results := null;
    }

    constructor WithResults(buffer: VisitorResults<R>)
      ensures results == buffer
    {
      results := buffer;
    }

    ghost function Storage(): Storage<R>
      reads this, results
    {
      if results == null then NoResults else Buffer(results.results)
    }

    method Push(r: R)
      modifies results
      ensures Storage() == VisitorPush(old(Storage()), r)
    {
      if results != null {
        results.Push(r);
      }
    }

    method TakeResults() returns (taken: Option<seq<R>>)
      modifies results
      ensures (taken, Storage()) == VisitorTake(old(Storage()))
    {
      if results != null {
        taken := results.TakeResults();
      } else {
        taken := None;
      }
    }
  }

  /** The identity of the endpoint path an interaction was routed to. */
  type PathComponentId = string

  /** `PathVisitorContext`: the routing context a path visitor receives, absent when no known route matched. */
  datatype PathVisitorContext = PathVisitorContext(path: Option<PathComponentId>)

  /** `InteractionVisitors`: the per-analysis bundle of visitors; at present only a path visitor. */
  class InteractionVisitors<R> {
    const path: InteractionVisitor<R>

    constructor (path: InteractionVisitor<R>)
      ensures this.path == path
    {
      this.path := path;
    }

    /** Forwards to the path visitor's `take_results`. */
    method TakeResults() returns (taken: Option<seq<R>>)
      modifies path.results
      ensures (taken, path.Storage()) == VisitorTake(old(path.Storage()))
    {
      taken := path.TakeResults();
    }
  }
}

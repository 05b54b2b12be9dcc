/**
 * The delimiter logic of the JSON-lines encoder
 * (workspaces/diff-engine/src/streams/mod.rs).
 *
 * `JsonLineEncoder` serialises each item and appends it to an output byte
 * buffer. A `first` flag keeps the delimiter off the first item, so a run of
 * successful encodes appends the serialised items joined by the delimiter.
 */
module Streams {

  newtype byte = x: int | 0 <= x < 256

  type Bytes = seq<byte>

  /** `b"\n"`: the delimiter of `JsonLineEncoder::default()` and of the JSON-lines codec. */
  const LineDelimiter: Bytes := [0x0A]

  /** `b"\n,"`: the delimiter of the JSON-array-items codec. */
  const ArrayItemDelimiter: Bytes := [0x0A, 0x2C]

  datatype Result<+T, +E> = Ok(value: T) | Err(error: E)

  /** A failure reported by the serialiser; its content is not part of this model. */
  datatype JsonError = JsonError(message: string)

  /** A failure of the underlying writer; its content is not part of this model. */
  datatype IoError = IoError(message: string)

  /** `JsonLineEncoderError`. */
  datatype EncoderError = Json(json: JsonError) | Io(io: IoError)

  // ---------------------------------------------------------------------------
  // What encodes append, as values

  /** The bytes one successful `encode` appends: the delimiter first unless this is the first item. */
  function Framed(first: bool, delimiter: Bytes, json: Bytes): Bytes
  {
    if first then json else delimiter + json
  }

  /** The bytes a run of successful encodes appends, starting in state `first`. */
  function Emitted(first: bool, delimiter: Bytes, items: seq<Bytes>): Bytes
    decreases |items|
  {
    if items == [] then []
    else Framed(first, delimiter, items[0]) + Emitted(false, delimiter, items[1..])
  }

  /** `items` with `delimiter` between neighbours, and nowhere else. */
  function Join(delimiter: Bytes, items: seq<Bytes>): Bytes
    decreases |items|
  {
    if items == [] then []
    else if |items| == 1 then items[0]
    else items[0] + delimiter + Join(delimiter, items[1..])
  }

  /** Past the first item, every item is preceded by the delimiter. */
  lemma {:induction false} EmittedAfterFirst(delimiter: Bytes, items: seq<Bytes>)
    ensures Emitted(false, delimiter, items) == if items == [] then [] else delimiter + Join(delimiter, items)
    decreases |items|
  {
    if items != [] {
      var rest := items[1..];
      EmittedAfterFirst(delimiter, rest);
      assert Emitted(false, delimiter, items) == delimiter + items[0] + Emitted(false, delimiter, rest);
      if rest == [] {
        assert Join(delimiter, items) == items[0];
        assert delimiter + items[0] + [] == delimiter + items[0];
      } else {
        assert Join(delimiter, items) == items[0] + delimiter + Join(delimiter, rest);
        assert delimiter + items[0] + (delimiter + Join(delimiter, rest))
            == delimiter + (items[0] + delimiter + Join(delimiter, rest));
      }
    }
  }

  /** A fresh encoder appends exactly the items joined by its delimiter. */
  lemma {:induction false} EmittedFromFreshIsJoin(delimiter: Bytes, items: seq<Bytes>)
    ensures Emitted(true, delimiter, items) == Join(delimiter, items)
  {
    if items != [] {
      EmittedAfterFirst(delimiter, items[1..]);
      if |items| == 1 {
        assert items[1..] == [];
      }
    }
  }

  /**
   * One more successful encode extends the joined output by one item: with the
   * delimiter in front unless nothing was encoded before.
   */
  lemma {:induction false} JoinExtends(delimiter: Bytes, items: seq<Bytes>, json: Bytes)
    ensures Join(delimiter, items) + Framed(items == [], delimiter, json) == Join(delimiter, items + [json])
    decreases |items|
  {
    if |items| == 1 {
      assert items + [json] == [items[0], json];
      assert [items[0], json][1..] == [json];
    } else if |items| > 1 {
      JoinExtends(delimiter, items[1..], json);
      assert (items + [json])[1..] == items[1..] + [json];
    }
  }

  // ---------------------------------------------------------------------------
  // The encoder and its output buffer, as objects

  /** The `BytesMut` buffer an encode appends to. */
  class ByteBuffer {
    var bytes: Bytes

    constructor (initial: Bytes)
      ensures bytes == initial
    {
      bytes := initial;
    }
  }

  /** `JsonLineEncoder`: a two-state machine over `first`. */
  class JsonLineEncoder {
    const delimiter: Bytes
    var first: bool
    /** The serialised items encoded so far. */
    ghost var sent: seq<Bytes>

    /** `first` holds exactly until an item has been encoded. */
    ghost predicate Valid()
      reads this
    {
      first <==> sent == []
    }

    /** `JsonLineEncoder::default()`. */
    constructor Default()
      ensures Valid() && first && sent == [] && delimiter == LineDelimiter
    {
      delimiter := LineDelimiter;
      first := true;
      sent := [];
    }

    /** `JsonLineEncoder::new(delimiter)`. */
    constructor (delimiter: Bytes)
      ensures Valid() && first && sent == [] && this.delimiter == delimiter
    {
      this.delimiter := delimiter;
      first := true;
      sent := [];
    }

    /**
     * `encode`: serialises `item` with `serialize`; on failure returns the error
     * and touches neither `buf` nor `first`; on success appends the item, after
     * the delimiter unless it is the first one.
     */
    method Encode<T>(item: T, serialize: T -> Result<Bytes, JsonError>, buf: ByteBuffer)
      returns (r: Result<(), EncoderError>)
      requires Valid()
      modifies this, buf
      ensures Valid()
      ensures serialize(item).Err? ==>
                r == Err(Json(serialize(item).error)) &&
                buf.bytes == old(buf.bytes) && first == old(first) && sent == old(sent)
      ensures serialize(item).Ok? ==>
                r == Ok(()) && !first && sent == old(sent) + [serialize(item).value] &&
                buf.bytes == old(buf.bytes) + Framed(old(first), delimiter, serialize(item).value)
    {
      var json := serialize(item);
      if json.Err? {
        return Err(Json(json.error));
      }
      if first {
        first := false;
      } else {
        buf.bytes := buf.bytes + delimiter;
      }
      buf.bytes := buf.bytes + json.value;
      sent := sent + [json.value];
      return Ok(());
    }

    /**
     * Encodes `items` in order with a fresh encoder, as the framed writer feeds
     * them, and stops at the first serialisation error. Whatever was encoded is
     * on the buffer as the serialised items joined by the delimiter.
     */
    method EncodeAll<T>(items: seq<T>, serialize: T -> Result<Bytes, JsonError>, buf: ByteBuffer)
      returns (r: Result<(), EncoderError>)
      requires Valid() && first
      modifies this, buf
      ensures Valid()
      ensures buf.bytes == old(buf.bytes) + Join(delimiter, sent)
      ensures |sent| <= |items|
      ensures forall k :: 0 <= k < |sent| ==> serialize(items[k]).Ok? && sent[k] == serialize(items[k]).value
      ensures r.Ok? ==> |sent| == |items|
      ensures r.Err? ==> |sent| < |items| && serialize(items[|sent|]).Err? &&
                         r == Err(Json(serialize(items[|sent|]).error))
    {
      var i := 0;
      while i < |items|
        invariant 0 <= i <= |items|
        invariant Valid()
        invariant |sent| == i
        invariant buf.bytes == old(buf.bytes) + Join(delimiter, sent)
        invariant forall k :: 0 <= k < i ==> serialize(items[k]).Ok? && sent[k] == serialize(items[k]).value
      {
        ghost var before := sent;
        r := Encode(items[i], serialize, buf);
        if r.Err? {
          return;
        }
        JoinExtends(delimiter, before, serialize(items[i]).value);
        assert buf.bytes == old(buf.bytes) + (Join(delimiter, before) + Framed(before == [], delimiter, serialize(items[i]).value));
        i := i + 1;
      }
      r := Ok(());
    }
  }

  /** The codec of `into_json_lines`. */
  method JsonLinesCodec() returns (codec: JsonLineEncoder)
    ensures fresh(codec) && codec.Valid() && codec.first && codec.delimiter == LineDelimiter
  {
    codec := new JsonLineEncoder(LineDelimiter);
  }

  /** The codec of `into_json_array_items`. */
  method JsonArrayItemsCodec() returns (codec: JsonLineEncoder)
    ensures fresh(codec) && codec.Valid() && codec.first && codec.delimiter == ArrayItemDelimiter
  {
    codec := new JsonLineEncoder(ArrayItemDelimiter);
  }
}

/** The primitive bit streams behind `BitStreamCodable` (`WritableBitStream`,
    `ReadableBitStream`). Their bit-level layout is not part of this model: a stream is the
    sequence of primitive items written to it, a 32-bit float or a block of bytes, and a
    reader returns the items in the order they were written. */
module BitStreams {
  import opened Wrappers
  import opened FoundationData

  /** One primitive item: what one `appendFloat` or one `append(_ data:)` writes. */
  datatype Token = FloatBits(bits: Float32) | DataBlock(data: Bytes)

  /** `BitStreamError`. `Underflow` is a read past the end; `KindMismatch` is a read of the
      other kind of item than the one written there; `EncodingError` is text that is not
      UTF-8. */
  datatype BitStreamError = Underflow | KindMismatch | EncodingError

  /** The outcome of reading a value starting at some position: the value or the error, and
      the position of the next unread item. */
  datatype Read<T> = Read(result: Result<T, BitStreamError>, next: nat)

  /** `readFloat()` at position `pos`. A failed read consumes nothing. */
  function ReadFloatAt(tokens: seq<Token>, pos: nat): (r: Read<Float32>)
    ensures r.result.Success? <==> pos < |tokens| && tokens[pos].FloatBits?
    ensures r.result.Success? ==> r.result.value == tokens[pos].bits
    ensures r.result.Failure? ==> r.result.error == if pos < |tokens| then KindMismatch else Underflow
    ensures r.next == if r.result.Success? then pos + 1 else pos
  {
    if pos >= |tokens| then Read(Failure(Underflow), pos)
    else match tokens[pos]
      case FloatBits(f) => Read(Success(f), pos + 1)
      case DataBlock(_) => Read(Failure(KindMismatch), pos)
  }

  /** `readData()` at position `pos`. A failed read consumes nothing. */
  function ReadDataAt(tokens: seq<Token>, pos: nat): (r: Read<Bytes>)
    ensures r.result.Success? <==> pos < |tokens| && tokens[pos].DataBlock?
    ensures r.result.Success? ==> r.result.value == tokens[pos].data
    ensures r.result.Failure? ==> r.result.error == if pos < |tokens| then KindMismatch else Underflow
    ensures r.next == if r.result.Success? then pos + 1 else pos
  {
    if pos >= |tokens| then Read(Failure(Underflow), pos)
    else match tokens[pos]
      case DataBlock(d) => Read(Success(d), pos + 1)
      case FloatBits(_) => Read(Failure(KindMismatch), pos)
  }

  class WritableBitStream {
    /** Everything appended so far, oldest first. */
    var tokens: seq<Token>

    constructor ()
      ensures tokens == []
    {
      tokens := [];
    }

    method AppendFloat(f: Float32)
      modifies this
      ensures tokens == old(tokens) + [FloatBits(f)]
    {
      tokens := tokens + [FloatBits(f)];
    }

    method Append(data: Bytes)
      modifies this
      ensures tokens == old(tokens) + [DataBlock(data)]
    {
      tokens := tokens + [DataBlock(data)];
    }
  }

  class ReadableBitStream {
    /** The packed items the stream was created from. */
    const tokens: seq<Token>
    /** The next item to read. */
    var position: nat

    constructor (packed: seq<Token>)
      ensures tokens == packed && position == 0
    {
      tokens := packed;
      position := 0;
    }

    method ReadFloat() returns (r: Result<Float32, BitStreamError>)
      modifies this
      ensures Read(r, position) == ReadFloatAt(tokens, old(position))
    {
      if position < |tokens| && tokens[position].FloatBits? {
        r := Success(tokens[position].bits);
        position := position + 1;
      } else {
        r := ReadFloatAt(tokens, position).result;
      }
    }

    method ReadData() returns (r: Result<Bytes, BitStreamError>)
      modifies this
      ensures Read(r, position) == ReadDataAt(tokens, old(position))
    {
      if position < |tokens| && tokens[position].DataBlock? {
        r := Success(tokens[position].data);
        position := position + 1;
      } else {
        r := ReadDataAt(tokens, position).result;
      }
    }
  }
}

/** The part of NIO's `ByteBuffer` the frame codecs use, and the vocabulary
    shared by the decoders: what a `decode` call returns and what it passes
    down the pipeline. The buffer holds the bytes written so far (indices
    `0 ..< writerIndex`) and a reader index into them. */
module Buffers {

  import opened Wrappers
  import opened Bytes

  /** NIO's `DecodingState`. */
  datatype DecodingState = Continue | NeedMoreData

  /** `FramingError`. */
  datatype FramingError = InvalidFrameSizeDetected

  /** What a decoder hands to its context: a frame (`fireChannelRead`) or an
      error (`fireErrorCaught`). */
  datatype Event = ChannelRead(frame: seq<Byte>) | ErrorCaught(error: FramingError)

  /** A `decode` call either returns, or stops the process on a failed force
      unwrap or a failed library precondition. */
  datatype Outcome = Returned(state: DecodingState) | Trapped

  /** The effect of one `decode` call: its outcome, the buffer afterwards and
      the events fired, in order. */
  datatype Step = Step(outcome: Outcome, storage: seq<Byte>, readerIndex: nat, fired: seq<Event>)

  /** The `Int32` stored big-endian at `s[at..at + 4]`. */
  function Int32At(s: seq<Byte>, at: nat): (v: int)
    requires at + 4 <= |s|
    ensures INT32_MIN <= v <= INT32_MAX
  {
    AsInt32(BigEndianValue(s[at..at + 4]))
  }

  /** The bytes both frame encoders write for `payload`: its length as a
      big-endian `Int32`, then the payload unchanged. */
  function Frame(payload: seq<Byte>): (f: seq<Byte>)
    requires |payload| <= INT32_MAX
    ensures |f| == 4 + |payload|
    ensures Int32At(f, 0) == |payload| && f[4..] == payload
  {
    var header := Int32Bytes(|payload|);
    assert (header + payload)[0..4] == header;
    header + payload
  }

  class ByteBuffer {
    var storage: seq<Byte>
    var readerIndex: nat

    predicate Valid()
      reads this
    {
      readerIndex <= |storage|
    }

    function ReadableBytes(): nat
      reads this
      requires Valid()
    {
      |storage| - readerIndex
    }

    function Readable(): (r: seq<Byte>)
      reads this
      requires Valid()
      ensures |r| == ReadableBytes()
    {
      storage[readerIndex..]
    }

    constructor (bytes: seq<Byte>)
      ensures Valid() && storage == bytes && readerIndex == 0
    {
      storage := bytes;
      readerIndex := 0;
    }

    /** `getInteger(at:endianness: .big, as: Int32.self)`: a peek at a fixed
        index, whatever the reader index; `nil` unless four written bytes
        start there. */
    method GetInt32(index: nat) returns (v: Option<int>)
      ensures v.Some? <==> index + 4 <= |storage|
      ensures v.Some? ==> v.value == Int32At(storage, index)
    {
      if index + 4 <= |storage| {
        v := Some(Int32At(storage, index));
      } else {
        v := None;
      }
    }

    /** `readInteger(as: Int32.self)`: reads and consumes four bytes when they
        are readable. */
    method ReadInt32() returns (v: Option<int>)
      requires Valid()
      modifies this`readerIndex
      ensures Valid()
      ensures v.Some? <==> old(ReadableBytes()) >= 4
      ensures v.Some? ==> v.value == Int32At(storage, old(readerIndex)) && readerIndex == old(readerIndex) + 4
      ensures v.None? ==> readerIndex == old(readerIndex)
    {
      if |storage| - readerIndex >= 4 {
        v := Some(Int32At(storage, readerIndex));
        readerIndex := readerIndex + 4;
      } else {
        v := None;
      }
    }

    /** `moveReaderIndex(forwardBy:)`, whose precondition keeps the index
        within the written bytes. */
    method MoveReaderIndex(forwardBy: int)
      requires 0 <= readerIndex + forwardBy <= |storage|
      modifies this`readerIndex
      ensures Valid() && readerIndex == old(readerIndex) + forwardBy
    {
      readerIndex := readerIndex + forwardBy;
    }

    /** `readSlice(length:)`: the next `length` readable bytes, consumed; `nil`
        when fewer are readable or the length is negative. */
    method ReadSlice(length: int) returns (s: Option<seq<Byte>>)
      requires Valid()
      modifies this`readerIndex
      ensures Valid()
      ensures s.Some? <==> 0 <= length <= old(ReadableBytes())
      ensures s.Some? ==> s.value == storage[old(readerIndex)..old(readerIndex) + length]
                          && readerIndex == old(readerIndex) + length
      ensures s.None? ==> readerIndex == old(readerIndex)
    {
      if 0 <= length <= |storage| - readerIndex {
        s := Some(storage[readerIndex..readerIndex + length]);
        readerIndex := readerIndex + length;
      } else {
        s := None;
      }
    }

    /** `clear()`: both indices back to zero, so nothing is readable. */
    method Clear()
      modifies this
      ensures Valid() && storage == [] && readerIndex == 0
    {
      storage := [];
      readerIndex := 0;
    }

    /** `writeInteger(Int32(n), endianness: .big)`. */
    method WriteInt32(n: int)
      requires INT32_MIN <= n <= INT32_MAX
      modifies this`storage
      ensures storage == old(storage) + Int32Bytes(n)
    {
      storage := storage + Int32Bytes(n);
    }

    /** `writeBytes(_:)`. */
    method WriteBytes(bytes: seq<Byte>)
      modifies this`storage
      ensures storage == old(storage) + bytes
    {
      storage := storage + bytes;
    }
  }
}

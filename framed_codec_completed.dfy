/** `FramedMessageCodec` of the finished server: frames are a big-endian
    `Int32` length followed by that many payload bytes. `decode` peeks the
    length at buffer index 0, compares it with all readable bytes (header
    included), then skips the header and force-unwraps a slice of the
    declared length. */
module FramedCodecCompleted {

  import opened Bytes
  import opened Buffers

  /** What `decode` does to a buffer holding `storage`, read up to
      `readerIndex`. */
  function DecodeStep(storage: seq<Byte>, readerIndex: nat): (step: Step)
    requires readerIndex <= |storage|
    ensures step.storage == storage && readerIndex <= step.readerIndex
    ensures step.outcome != Trapped ==> step.readerIndex <= |storage|
    ensures |step.fired| <= 1 && (step.fired != [] <==> step.outcome == Returned(Continue))
  {
    if |storage| < 4 then Step(Returned(NeedMoreData), storage, readerIndex, [])
    else
      var frameSize := Int32At(storage, 0);
      var readable := |storage| - readerIndex;
      if readable < frameSize then Step(Returned(NeedMoreData), storage, readerIndex, [])
      // moveReaderIndex(forwardBy: 4) past the written bytes
      else if readable < 4 then Step(Trapped, storage, readerIndex, [])
      // readSlice(length:) returns nil and is force-unwrapped
      else if frameSize < 0 || readable - 4 < frameSize then Step(Trapped, storage, readerIndex + 4, [])
      else
        var start := readerIndex + 4;
        Step(Returned(Continue), storage, start + frameSize, [ChannelRead(storage[start..start + frameSize])])
  }

  /** `decode(ctx:buffer:)`. */
  method Decode(buffer: ByteBuffer) returns (outcome: Outcome, fired: seq<Event>)
    requires buffer.Valid()
    modifies buffer`readerIndex
    ensures buffer.Valid()
    ensures Step(outcome, buffer.storage, buffer.readerIndex, fired) == DecodeStep(old(buffer.storage), old(buffer.readerIndex))
  {
    fired := [];
    var header := buffer.GetInt32(0);
    if header.None? || buffer.ReadableBytes() < header.value {
      return Returned(NeedMoreData), fired;
    }
    var frameSize := header.value;
    if buffer.readerIndex + 4 > |buffer.storage| {
      return Trapped, fired;
    }
    buffer.MoveReaderIndex(4);
    var slice := buffer.ReadSlice(frameSize);
    if slice.None? {
      return Trapped, fired;
    }
    fired := [ChannelRead(slice.value)];
    outcome := Returned(Continue);
  }

  /** `encode(ctx:data:out:)`; `Int32(data.readableBytes)` traps beyond
      `Int32.max`. */
  method Encode(data: ByteBuffer, out: ByteBuffer)
    requires data.Valid() && data.ReadableBytes() <= INT32_MAX
    requires data != out
    modifies out`storage
    ensures out.storage == old(out.storage) + Frame(data.Readable())
  {
    out.WriteInt32(data.ReadableBytes());
    out.WriteBytes(data.Readable());
  }

  /** `needMoreData` exactly when fewer than four bytes are written or fewer
      bytes than the declared size are readable; it consumes nothing and fires
      nothing. */
  lemma NeedMoreDataConsumesNothing(storage: seq<Byte>, readerIndex: nat)
    requires readerIndex <= |storage|
    ensures DecodeStep(storage, readerIndex).outcome == Returned(NeedMoreData) <==>
      |storage| < 4 || |storage| - readerIndex < Int32At(storage, 0)
    ensures DecodeStep(storage, readerIndex).outcome == Returned(NeedMoreData) ==>
      DecodeStep(storage, readerIndex) == Step(Returned(NeedMoreData), storage, readerIndex, [])
  {
  }

  /** The force-unwrapped slice is reached with too few bytes exactly when the
      declared size passes the guard (which counts the header) but the bytes
      after the header fall short of it, or when the size is negative. */
  lemma TrapWindow(storage: seq<Byte>, readerIndex: nat)
    requires readerIndex <= |storage|
    ensures DecodeStep(storage, readerIndex).outcome == Trapped <==>
      && |storage| >= 4
      && Int32At(storage, 0) <= |storage| - readerIndex
      && (Int32At(storage, 0) < 0 || |storage| - readerIndex < Int32At(storage, 0) + 4)
  {
  }

  /** On `.continue` the reader index moves by four plus the declared size and
      exactly the bytes after the header are emitted. */
  lemma ContinueEmitsFrame(storage: seq<Byte>, readerIndex: nat)
    requires readerIndex <= |storage|
    requires DecodeStep(storage, readerIndex).outcome == Returned(Continue)
    ensures var step := DecodeStep(storage, readerIndex);
      && |step.fired| == 1 && step.fired[0].ChannelRead?
      && |step.fired[0].frame| == Int32At(storage, 0)
      && step.readerIndex == readerIndex + 4 + |step.fired[0].frame| <= |storage|
      && step.fired[0].frame == storage[readerIndex + 4..step.readerIndex]
      && step.storage == storage
  {
  }

  /** A buffer holding exactly one encoded frame decodes to its payload and is
      left with nothing readable. */
  lemma RoundTrip(payload: seq<Byte>)
    requires |payload| <= INT32_MAX
    ensures DecodeStep(Frame(payload), 0) == Step(Returned(Continue), Frame(payload), |Frame(payload)|, [ChannelRead(payload)])
  {
    var f := Frame(payload);
    assert f[4..4 + |payload|] == payload;
  }

  /** A header announcing 10 bytes followed by only 8 of them passes the guard
      (12 readable bytes) and the slice traps. */
  lemma PartialFrameTraps()
    ensures DecodeStep(Int32Bytes(10) + seq(8, _ => 0), 0).outcome == Trapped
  {
    var s := Int32Bytes(10) + seq(8, _ => 0);
    assert s[0..4] == Int32Bytes(10);
  }

  /** Two frames arriving in one read: the second `decode` still reads the
      first frame's header at index 0, emits one byte instead of two, and the
      third call traps on the leftover byte. */
  lemma StaleHeaderMisframes()
    ensures var s := Frame([1]) + Frame([2, 3]);
      && DecodeStep(s, 0) == Step(Returned(Continue), s, 5, [ChannelRead([1])])
      && DecodeStep(s, 5) == Step(Returned(Continue), s, 10, [ChannelRead([2])])
      && DecodeStep(s, 10).outcome == Trapped
  {
    var s := Frame([1]) + Frame([2, 3]);
    assert s[0..4] == Frame([1])[0..4];
    assert s[5..9] == Frame([2, 3])[0..4];
    assert s[9..10] == [2];
    assert s[4..5] == [1];
  }

  /** A negative declared size always passes the guard; with four readable
      bytes the slice traps. */
  lemma NegativeSizeTraps(storage: seq<Byte>, readerIndex: nat)
    requires readerIndex + 4 <= |storage|
    requires Int32At(storage, 0) < 0
    ensures DecodeStep(storage, readerIndex).outcome == Trapped
  {
  }
}

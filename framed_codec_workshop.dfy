/** `FramedMessageEncoder` / `FramedMessageDecoder` of the workshop server.
    `decode` consumes the length with `readInteger` before it knows that the
    body is complete, and checks its 2,000,000-byte ceiling against the bytes
    buffered after the header rather than against the declared size. */
module FramedCodecWorkshop {

  import opened Bytes
  import opened Buffers

  const CEILING: int := 2_000_000

  /** What `decode(context:buffer:)` does to a buffer holding `storage`, read
      up to `readerIndex`. */
  function DecodeStep(storage: seq<Byte>, readerIndex: nat): (step: Step)
    requires readerIndex <= |storage|
    ensures step.storage == storage || step == Step(Returned(NeedMoreData), [], 0, [ErrorCaught(InvalidFrameSizeDetected)])
    ensures step.storage == storage ==> readerIndex <= step.readerIndex
    ensures step.outcome != Trapped ==> step.readerIndex <= |step.storage|
    ensures |step.fired| <= 1
  {
    if |storage| - readerIndex < 4 then Step(Returned(NeedMoreData), storage, readerIndex, [])
    else
      var frameSize := Int32At(storage, readerIndex);
      var start := readerIndex + 4;
      var readable := |storage| - start;
      if readable < frameSize then Step(Returned(NeedMoreData), storage, start, [])
      else if readable >= CEILING then Step(Returned(NeedMoreData), [], 0, [ErrorCaught(InvalidFrameSizeDetected)])
      // readSlice(length:) returns nil and is force-unwrapped
      else if frameSize < 0 then Step(Trapped, storage, start, [])
      else Step(Returned(Continue), storage, start + frameSize, [ChannelRead(storage[start..start + frameSize])])
  }

  /** `FramedMessageDecoder.decode(context:buffer:)`. */
  method Decode(buffer: ByteBuffer) returns (outcome: Outcome, fired: seq<Event>)
    requires buffer.Valid()
    modifies buffer
    ensures buffer.Valid()
    ensures Step(outcome, buffer.storage, buffer.readerIndex, fired) == DecodeStep(old(buffer.storage), old(buffer.readerIndex))
  {
    fired := [];
    var header := buffer.ReadInt32();
    if header.None? || buffer.ReadableBytes() < header.value {
      return Returned(NeedMoreData), fired;
    }
    var frameSize := header.value;
    if buffer.ReadableBytes() >= CEILING {
      buffer.Clear();
      fired := [ErrorCaught(InvalidFrameSizeDetected)];
      return Returned(NeedMoreData), fired;
    }
    var slice := buffer.ReadSlice(frameSize);
    if slice.None? {
      return Trapped, fired;
    }
    fired := [ChannelRead(slice.value)];
    outcome := Returned(Continue);
  }

  /** `decodeLast(context:buffer:seenEOF:)`: whatever is left when the input
      ends is neither read nor reported. */
  method DecodeLast(buffer: ByteBuffer, seenEOF: bool) returns (state: DecodingState)
    ensures state == Continue
  {
    state := Continue;
  }

  /** `FramedMessageEncoder.encode(data:out:)`. */
  method Encode(data: ByteBuffer, out: ByteBuffer)
    requires data.Valid() && data.ReadableBytes() <= INT32_MAX
    requires data != out
    modifies out`storage
    ensures out.storage == old(out.storage) + Frame(data.Readable())
  {
    out.WriteInt32(data.ReadableBytes());
    out.WriteBytes(data.Readable());
  }

  /** Fewer than four readable bytes: nothing is consumed or fired. */
  lemma ShortHeaderConsumesNothing(storage: seq<Byte>, readerIndex: nat)
    requires readerIndex <= |storage| < readerIndex + 4
    ensures DecodeStep(storage, readerIndex) == Step(Returned(NeedMoreData), storage, readerIndex, [])
  {
  }

  /** A header followed by fewer bytes than it declares: `needMoreData`, with
      the four header bytes already consumed. */
  lemma IncompleteBodyConsumesHeader(storage: seq<Byte>, readerIndex: nat)
    requires readerIndex + 4 <= |storage|
    requires |storage| - readerIndex - 4 < Int32At(storage, readerIndex)
    ensures DecodeStep(storage, readerIndex) == Step(Returned(NeedMoreData), storage, readerIndex + 4, [])
  {
  }

  /** The buffer is cleared and the error fired exactly when the declared frame
      is fully buffered and at least 2,000,000 bytes follow the header,
      whatever size was declared. */
  lemma CeilingMeasuresBufferedBytes(storage: seq<Byte>, readerIndex: nat)
    requires readerIndex <= |storage|
    ensures DecodeStep(storage, readerIndex).fired == [ErrorCaught(InvalidFrameSizeDetected)] <==>
      && readerIndex + 4 <= |storage|
      && Int32At(storage, readerIndex) <= |storage| - readerIndex - 4
      && |storage| - readerIndex - 4 >= CEILING
    ensures DecodeStep(storage, readerIndex).fired == [ErrorCaught(InvalidFrameSizeDetected)] ==>
      DecodeStep(storage, readerIndex) == Step(Returned(NeedMoreData), [], 0, [ErrorCaught(InvalidFrameSizeDetected)])
  {
  }

  /** On `.continue` exactly the declared number of bytes after the header are
      emitted and consumed; the declared size is below the ceiling. */
  lemma ContinueEmitsFrame(storage: seq<Byte>, readerIndex: nat)
    requires readerIndex <= |storage|
    requires DecodeStep(storage, readerIndex).outcome == Returned(Continue)
    ensures var step := DecodeStep(storage, readerIndex);
      && |step.fired| == 1 && step.fired[0].ChannelRead?
      && |step.fired[0].frame| == Int32At(storage, readerIndex) < CEILING
      && step.readerIndex == readerIndex + 4 + |step.fired[0].frame| <= |storage|
      && step.fired[0].frame == storage[readerIndex + 4..step.readerIndex]
      && step.storage == storage
  {
  }

  /** A buffer holding one encoded frame below the ceiling decodes to its
      payload; one at or above it is dropped with an error. */
  lemma RoundTrip(payload: seq<Byte>)
    requires |payload| <= INT32_MAX
    ensures |payload| < CEILING ==>
      DecodeStep(Frame(payload), 0) == Step(Returned(Continue), Frame(payload), |Frame(payload)|, [ChannelRead(payload)])
    ensures |payload| >= CEILING ==>
      DecodeStep(Frame(payload), 0) == Step(Returned(NeedMoreData), [], 0, [ErrorCaught(InvalidFrameSizeDetected)])
  {
    var f := Frame(payload);
    assert f[4..4 + |payload|] == payload;
  }

  /** The first six bytes of a ten-byte frame, then the rest: the first call
      consumes the header, so the second reads four payload bytes as a header
      and emits an empty frame instead of the payload. */
  lemma SplitFrameLosesHeader()
    ensures var f := Frame(seq(10, _ => 0));
      && DecodeStep(f[..6], 0) == Step(Returned(NeedMoreData), f[..6], 4, [])
      && DecodeStep(f, 4) == Step(Returned(Continue), f, 8, [ChannelRead([])])
  {
    var f := Frame(seq(10, _ => 0));
    assert f[..6][0..4] == f[0..4];
    assert f[4..8] == f[4..][..4] == [0, 0, 0, 0];
    assert Int32At(f, 4) == 0;
    assert f[8..8] == [];
  }

  /** A header announcing 2,000,000,000 bytes followed by ten bytes is not
      rejected: the call waits for more data and fires no error. */
  lemma HugeDeclaredSizeWaits()
    ensures var s := Int32Bytes(2_000_000_000) + seq(10, _ => 0);
      DecodeStep(s, 0) == Step(Returned(NeedMoreData), s, 4, [])
  {
    var s := Int32Bytes(2_000_000_000) + seq(10, _ => 0);
    assert s[0..4] == Int32Bytes(2_000_000_000);
  }

  /** A negative declared size passes both guards; the slice traps. */
  lemma NegativeSizeTraps(storage: seq<Byte>, readerIndex: nat)
    requires readerIndex + 4 <= |storage| < readerIndex + 4 + CEILING
    requires Int32At(storage, readerIndex) < 0
    ensures DecodeStep(storage, readerIndex).outcome == Trapped
  {
  }
}

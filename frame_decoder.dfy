/** A length-prefixed frame decoder with the intended behaviour of both
    server decoders: it peeks the length at the reader index, consumes
    nothing until the whole frame is buffered, and rejects a negative or
    oversized declared length the way the workshop decoder rejects an
    oversized buffer (clear, report `invalidFrameSizeDetected`, wait). */
module FrameDecoder {

  import opened Bytes
  import opened Buffers

  const CEILING: int := 2_000_000

  function DecodeStep(storage: seq<Byte>, readerIndex: nat): (step: Step)
    requires readerIndex <= |storage|
    ensures step.outcome != Trapped
    ensures step.outcome == Returned(Continue) ==>
      && step.storage == storage
      && readerIndex < step.readerIndex <= |storage|
      && |step.fired| == 1 && step.fired[0].ChannelRead?
  {
    var readable := |storage| - readerIndex;
    if readable < 4 then Step(Returned(NeedMoreData), storage, readerIndex, [])
    else
      var frameSize := Int32At(storage, readerIndex);
      if frameSize < 0 || frameSize >= CEILING then
        Step(Returned(NeedMoreData), [], 0, [ErrorCaught(InvalidFrameSizeDetected)])
      else if readable - 4 < frameSize then Step(Returned(NeedMoreData), storage, readerIndex, [])
      else
        var start := readerIndex + 4;
        Step(Returned(Continue), storage, start + frameSize, [ChannelRead(storage[start..start + frameSize])])
  }

  method Decode(buffer: ByteBuffer) returns (outcome: Outcome, fired: seq<Event>)
    requires buffer.Valid()
    modifies buffer
    ensures buffer.Valid()
    ensures Step(outcome, buffer.storage, buffer.readerIndex, fired) == DecodeStep(old(buffer.storage), old(buffer.readerIndex))
  {
    fired := [];
    var header := buffer.GetInt32(buffer.readerIndex);
    if header.None? {
      return Returned(NeedMoreData), fired;
    }
    var frameSize := header.value;
    if frameSize < 0 || frameSize >= CEILING {
      buffer.Clear();
      fired := [ErrorCaught(InvalidFrameSizeDetected)];
      return Returned(NeedMoreData), fired;
    }
    if buffer.ReadableBytes() - 4 < frameSize {
      return Returned(NeedMoreData), fired;
    }
    buffer.MoveReaderIndex(4);
    var slice := buffer.ReadSlice(frameSize);
    fired := [ChannelRead(slice.value)];
    outcome := Returned(Continue);
  }

  /** The frames a decode loop emits from `readerIndex` on, calling `decode`
      while it returns `.continue` and bytes remain readable. */
  function Drain(storage: seq<Byte>, readerIndex: nat): (frames: seq<seq<Byte>>)
    requires readerIndex <= |storage|
    decreases |storage| - readerIndex
  {
    if readerIndex == |storage| then []
    else
      var step := DecodeStep(storage, readerIndex);
      if step.outcome == Returned(Continue) then [step.fired[0].frame] + Drain(storage, step.readerIndex)
      else []
  }

  /** The encodings of `payloads`, back to back. */
  function Frames(payloads: seq<seq<Byte>>): (s: seq<Byte>)
    requires forall i :: 0 <= i < |payloads| ==> |payloads[i]| <= INT32_MAX
  {
    if payloads == [] then [] else Frame(payloads[0]) + Frames(payloads[1..])
  }

  /** A declared length that is negative or at least 2,000,000 is rejected as
      soon as its header is readable, however few bytes follow. */
  lemma OversizeRejected(storage: seq<Byte>, readerIndex: nat)
    requires readerIndex + 4 <= |storage|
    requires Int32At(storage, readerIndex) < 0 || Int32At(storage, readerIndex) >= CEILING
    ensures DecodeStep(storage, readerIndex) == Step(Returned(NeedMoreData), [], 0, [ErrorCaught(InvalidFrameSizeDetected)])
  {
  }

  /** A frame that starts at the reader index decodes to its payload, whatever
      precedes or follows it. */
  lemma FrameAtReaderIndex(before: seq<Byte>, payload: seq<Byte>, after: seq<Byte>)
    requires |payload| < CEILING
    ensures var s := before + Frame(payload) + after;
      DecodeStep(s, |before|) == Step(Returned(Continue), s, |before| + 4 + |payload|, [ChannelRead(payload)])
  {
    var f := Frame(payload);
    var s := before + f + after;
    assert s[|before|..|before| + 4] == f[0..4];
    assert s[|before| + 4..|before| + 4 + |payload|] == f[4..] == payload;
  }

  /** Part of a frame is not enough: nothing is consumed or emitted until the
      rest arrives, so splitting a frame across reads loses nothing. */
  lemma PrefixWaits(before: seq<Byte>, payload: seq<Byte>, k: nat)
    requires |payload| < CEILING
    requires k < |Frame(payload)|
    ensures var s := before + Frame(payload)[..k];
      DecodeStep(s, |before|) == Step(Returned(NeedMoreData), s, |before|, [])
  {
    var f := Frame(payload);
    var s := before + f[..k];
    if k >= 4 {
      assert s[|before|..|before| + 4] == f[0..4];
    }
  }

  /** Frames sent back to back, delivered in one buffer, are emitted one by one
      in order, and nothing else is. */
  lemma {:induction false} DrainFrames(before: seq<Byte>, payloads: seq<seq<Byte>>)
    requires forall i :: 0 <= i < |payloads| ==> |payloads[i]| < CEILING
    ensures Drain(before + Frames(payloads), |before|) == payloads
    decreases |payloads|
  {
    if payloads == [] {
      assert before + Frames(payloads) == before;
    } else {
      var p := payloads[0];
      var rest := Frames(payloads[1..]);
      var next := before + Frame(p);
      var s := next + rest;
      assert Frames(payloads) == Frame(p) + rest;
      assert before + Frames(payloads) == s;
      FrameAtReaderIndex(before, p, rest);
      assert DecodeStep(s, |before|) == Step(Returned(Continue), s, |next|, [ChannelRead(p)]);
      assert Drain(s, |before|) == [p] + Drain(s, |next|);
      DrainFrames(next, payloads[1..]);
      assert payloads == [p] + payloads[1..];
    }
  }
}

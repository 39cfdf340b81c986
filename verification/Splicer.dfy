/** The RTP splicer: one output slot carries a series of publishers, and its sequence
    numbers and timestamps run on across every change. */
module Splicer {
  import opened Words
  import opened RtpHeader

  // ---------------------------------------------------------------- the 16- and 32-bit machine

  datatype Numbers = Numbers(sequence: u16, timestamp: u32)

  /** The fields of an `RtpSlotRewriter`. */
  datatype Timeline = Timeline(
    clockRate: u32,
    timestampStep: u32,
    generation: nat,
    sourceInitialized: bool,
    outputInitialized: bool,
    sourceAnchorSequence: u16,
    latestInput: Numbers,
    latestOutput: Numbers,
    offset: Numbers)

  function FreshTimeline(clockRate: u32, defaultTimestampStep: u32): Timeline
  {
    Timeline(clockRate, defaultTimestampStep, 0, false, false, 0, Numbers(0, 0), Numbers(0, 0), Numbers(0, 0))
  }

  /** Both `begin_source` and `end_source`. */
  function NextGeneration(t: Timeline): Timeline
  {
    t.(generation := t.generation + 1, sourceInitialized := false)
  }

  /** The first packet of a source fixes the anchor and both offsets. */
  function Anchored(t: Timeline, input: Numbers): Timeline
  {
    t.(sourceAnchorSequence := input.sequence,
       offset := if t.outputInitialized
                 then Numbers(Sub16(Add16(t.latestOutput.sequence, 1), input.sequence),
                              Sub32(Add32(t.latestOutput.timestamp, t.timestampStep), input.timestamp))
                 else Numbers(0, 0),
       sourceInitialized := true,
       latestInput := input)
  }

  function Shifted(input: Numbers, offset: Numbers): Numbers
  {
    Numbers(Add16(input.sequence, offset.sequence), Add32(input.timestamp, offset.timestamp))
  }

  function StepAfter(t: Timeline, input: Numbers): u32
  {
    var delta := Sub32(input.timestamp, t.latestInput.timestamp);
    if 0 < delta <= t.clockRate * 10 % 0x1_0000_0000 then delta else t.timestampStep
  }

  function Splice(t: Timeline, generation: nat, input: Numbers): (Timeline, Option<Numbers>)
  {
    if generation != t.generation then (t, None)
    else if t.sourceInitialized && Int16(Sub16(input.sequence, t.sourceAnchorSequence)) < 0 then (t, None)
    else
      var first := !t.sourceInitialized;
      var a := if first then Anchored(t, input) else t;
      var output := Shifted(input, a.offset);
      if first || !a.outputInitialized || Int16(Sub16(input.sequence, a.latestInput.sequence)) > 0
      then (a.(timestampStep := StepAfter(a, input), latestInput := input,
               latestOutput := output, outputInitialized := true), Some(output))
      else (a, Some(output))
  }

  class RtpSlotRewriter {
    const clockRate: u32
    var timestampStep: u32
    var generation: nat
    var sourceInitialized: bool
    var outputInitialized: bool
    var sourceAnchorSequence: u16
    var latestInputSequence: u16
    var latestOutputSequence: u16
    var sequenceOffset: u16
    var latestInputTimestamp: u32
    var latestOutputTimestamp: u32
    var timestampOffset: u32

    ghost function Value(): Timeline
      reads this
    {
      Timeline(clockRate, timestampStep, generation, sourceInitialized, outputInitialized,
               sourceAnchorSequence,
               Numbers(latestInputSequence, latestInputTimestamp),
               Numbers(latestOutputSequence, latestOutputTimestamp),
               Numbers(sequenceOffset, timestampOffset))
    }

    constructor (clockRate: u32, defaultTimestampStep: u32)
      ensures Value() == FreshTimeline(clockRate, defaultTimestampStep)
    {
      this.clockRate := clockRate;
      timestampStep := defaultTimestampStep;
      generation := 0;
      sourceInitialized, outputInitialized := false, false;
      sourceAnchorSequence := 0;
      latestInputSequence, latestOutputSequence, sequenceOffset := 0, 0, 0;
      latestInputTimestamp, latestOutputTimestamp, timestampOffset := 0, 0, 0;
    }

    method BeginSource() returns (g: nat)
      modifies this
      ensures Value() == NextGeneration(old(Value())) && g == Value().generation
    {
      generation := generation + 1;
      sourceInitialized := false;
      return generation;
    }

    method EndSource()
      modifies this
      ensures Value() == NextGeneration(old(Value()))
    {
      generation := generation + 1;
      sourceInitialized := false;
    }

    /** The part of `rewrite` that holds the lock: decides about the packet with these
        numbers and moves the timeline. */
    method SpliceLocked(sourceGeneration: nat, input: Numbers) returns (ok: bool, output: Numbers)
      modifies this
      ensures var (value, spliced) := Splice(old(Value()), sourceGeneration, input);
              && Value() == value
              && ok == spliced.Some?
              && (ok ==> output == spliced.value)
    {
      hide Add16, Sub16, Add32, Sub32, Int16;
      var Numbers(inputSequence, inputTimestamp) := input;
      if sourceGeneration != generation {
        return false, input;
      }
      var firstForSource := false;
      if !sourceInitialized {
        sourceAnchorSequence := inputSequence;
        if outputInitialized {
          var nextSequence := Add16(latestOutputSequence, 1);
          var nextTimestamp := Add32(latestOutputTimestamp, timestampStep);
          sequenceOffset := Sub16(nextSequence, inputSequence);
          timestampOffset := Sub32(nextTimestamp, inputTimestamp);
        } else {
          sequenceOffset := 0;
          timestampOffset := 0;
        }
        sourceInitialized := true;
        firstForSource := true;
        latestInputSequence := inputSequence;
        latestInputTimestamp := inputTimestamp;
      } else if Int16(Sub16(inputSequence, sourceAnchorSequence)) < 0 {
        return false, input;
      }
      var outputSequence := Add16(inputSequence, sequenceOffset);
      var outputTimestamp := Add32(inputTimestamp, timestampOffset);
      if firstForSource || !outputInitialized || Int16(Sub16(inputSequence, latestInputSequence)) > 0 {
        var inputDelta := Sub32(inputTimestamp, latestInputTimestamp);
        if 0 < inputDelta <= clockRate * 10 % 0x1_0000_0000 {
          timestampStep := inputDelta;
        }
        latestInputSequence := inputSequence;
        latestInputTimestamp := inputTimestamp;
        latestOutputSequence := outputSequence;
        latestOutputTimestamp := outputTimestamp;
        outputInitialized := true;
      }
      return true, Numbers(outputSequence, outputTimestamp);
    }

    /** A packet whose header is refused changes nothing here. A packet whose header is
        accepted is spliced, and goes out with exactly its two numbers replaced. */
    method Rewrite(packet: Binary, sourceGeneration: nat, ssrc: u32, mid: Option<u8>) returns (ok: bool)
      modifies this, packet
      ensures !HeaderAccepts(old(packet.bytes), mid) ==> !ok && Value() == old(Value())
      ensures !HeaderAccepts(old(packet.bytes), mid) ==>
                packet.bytes == if OnlyPaddingWrong(old(packet.bytes), mid) then ClearedPacket(old(packet.bytes), mid)
                                else old(packet.bytes)
      ensures HeaderAccepts(old(packet.bytes), mid) ==>
                && Encodable(Decode(old(packet.bytes)).value)
                && var header := ForSlot(Decode(old(packet.bytes)).value, ssrc, mid);
                   var (value, output) := Splice(old(Value()), sourceGeneration, Numbers(header.sequence, header.timestamp));
                   && Value() == value
                   && ok == output.Some?
                   && packet.bytes == Encode(if ok then WithNumbers(header, output.value) else header)
    {
      hide Decode, Encode, ForSlot, Encodable, Splice, ClearExtension;
      var headerOk := RewriteRtpForSlot(packet, ssrc, mid);
      if !headerOk {
        return false;
      }
      ghost var header := ForSlot(Decode(old(packet.bytes)).value, ssrc, mid);
      NumbersOfEncoded(header);
      var input := Numbers(U16At(packet.bytes, 2), U32At(packet.bytes, 4));
      var output;
      ok, output := SpliceLocked(sourceGeneration, input);
      if ok {
        packet.SetU16(2, output.sequence);
        packet.SetU32(4, output.timestamp);
        WithNumbersEncoded(header, output);
      }
    }
  }

  function WithNumbers(r: Rtp, n: Numbers): Rtp
  {
    r.(sequence := n.sequence, timestamp := n.timestamp)
  }

  lemma NumbersOfEncoded(r: Rtp)
    requires Encodable(r)
    ensures U16At(Encode(r), 2) == r.sequence && U32At(Encode(r), 4) == r.timestamp
  {
    var rest := r.csrcs + EncodeExtension(r.extension) + r.payload + r.padding;
    assert Encode(r) == EncodeFixed(r) + rest;
    FixedReadBack(r, rest);
  }

  lemma WithNumbersEncoded(r: Rtp, n: Numbers)
    requires Encodable(r)
    ensures Encodable(WithNumbers(r, n))
    ensures var p := Encode(r);
            var q := p[..2] + U16Bytes(n.sequence) + p[4..];
            q[..4] + U32Bytes(n.timestamp) + q[8..] == Encode(WithNumbers(r, n))
  {
    hide U16Bytes, U32Bytes, EncodeExtension, FirstByte;
    var s := WithNumbers(r, n);
    SameFirstByte(r, n);
    var rest := r.csrcs + EncodeExtension(r.extension) + r.payload + r.padding;
    var head := [FirstByte(r), r.markerAndType];
    assert Encode(r) == head + U16Bytes(r.sequence) + U32Bytes(r.timestamp) + (U32Bytes(r.ssrc) + rest);
    assert Encode(s) == head + U16Bytes(n.sequence) + U32Bytes(n.timestamp) + (U32Bytes(r.ssrc) + rest);
    TwoWrites([FirstByte(r), r.markerAndType], U16Bytes(r.sequence), U32Bytes(r.timestamp), U32Bytes(r.ssrc) + rest,
              U16Bytes(n.sequence), U32Bytes(n.timestamp));
  }

  lemma SameFirstByte(r: Rtp, n: Numbers)
    requires Encodable(r)
    ensures FirstByte(WithNumbers(r, n)) == FirstByte(r)
  {
  }

  lemma TwoWrites(a: seq<u8>, b: seq<u8>, c: seq<u8>, d: seq<u8>, b': seq<u8>, c': seq<u8>)
    requires |a| == 2 && |b| == |b'| == 2 && |c| == |c'| == 4
    ensures var p := a + b + c + d;
            var q := p[..2] + b' + p[4..];
            q[..4] + c' + q[8..] == a + b' + c' + d
  {
    var p := a + b + c + d;
    var q := p[..2] + b' + p[4..];
    assert p[..2] == a && p[4..] == c + d;
    assert q[..4] == a + b' && q[8..] == d;
  }
}

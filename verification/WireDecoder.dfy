/**
 * The incremental decoder, which keeps received chunks as they came and never joins them, and the frame
 * encoder (WirePacketDecoder.ts, encodeWirePacket.ts).
 */
module WireDecoder {
  import opened Basics
  import opened WireFormat

  datatype Limits = Limits(maxFrame: nat, maxPackets: nat)

  predicate ValidLimits(limits: Limits) {
    1 <= limits.maxFrame <= 64 * 1024 * 1024 && 1 <= limits.maxPackets <= 65536
  }

  /** One read may complete at most `budget` packets. */
  function ParseBatch(stream: seq<Byte>, zip: Zip, maxFrame: nat, budget: nat): Parsed
    decreases |stream|
  {
    if |stream| < HEADER_BYTES then Parsed([], stream, None)
    else if budget == 0 then Parsed([], stream, Some(TooManyPackets))
    else
      match ParseOne(stream, zip, maxFrame)
      case Incomplete => Parsed([], stream, None)
      case Malformed(error) => Parsed([], stream, Some(error))
      case Framed(packet, size) =>
        var tail := ParseBatch(stream[size..], zip, maxFrame, budget - 1);
        Parsed([packet] + tail.packets, tail.rest, tail.error)
  }

  /** What one read of `data` yields when `held` is still unfinished from earlier ones. */
  function PushSpec(held: seq<Byte>, data: seq<Byte>, zip: Zip, limits: Limits): Parsed {
    if |held| + |data| > limits.maxFrame + HEADER_BYTES then Parsed([], held, Some(BufferTooLarge))
    else ParseBatch(held + data, zip, limits.maxFrame, limits.maxPackets)
  }

  /** Reads one after the other; an error ends the stream and its read delivers nothing. */
  function PushAll(held: seq<Byte>, pushes: seq<seq<Byte>>, zip: Zip, limits: Limits): Parsed
    decreases |pushes|
  {
    if pushes == [] then Parsed([], held, None)
    else
      var first := PushSpec(held, pushes[0], zip, limits);
      if first.error.Some? then Parsed([], held, first.error)
      else
        var more := PushAll(first.rest, pushes[1..], zip, limits);
        Parsed(first.packets + more.packets, more.rest, more.error)
  }

  // ----- The decoder as an object -----

  class Decoder {
    const zip: Zip
    const limits: Limits
    var chunks: seq<seq<Byte>>
    var bufferedBytes: nat

    ghost function Held(): seq<Byte>
      reads this
    {
      Flatten(chunks)
    }

    /** The count is the sum of the chunk lengths, and no chunk is empty. */
    ghost predicate Valid()
      reads this
    {
      bufferedBytes == |Held()| && forall i :: 0 <= i < |chunks| ==> chunks[i] != []
    }

    constructor (zip: Zip, limits: Limits)
      requires ValidLimits(limits)
      ensures Valid() && Held() == [] && this.zip == zip && this.limits == limits
    {
      this.zip, this.limits := zip, limits;
      chunks, bufferedBytes := [], 0;
    }

    method Push(data: seq<Byte>) returns (result: Result<seq<Packet>, WireError>)
      requires Valid()
      modifies this
      ensures Valid()
      ensures var spec := PushSpec(old(Held()), data, zip, limits);
              if spec.error.Some? then result == Err(spec.error.value)
              else result == Ok(spec.packets) && Held() == spec.rest
    {
      if |data| > 0 {
        FlattenSnoc(chunks, data);
        chunks := chunks + [data];
        bufferedBytes := bufferedBytes + |data|;
      }
      assert Held() == old(Held()) + data;
      if bufferedBytes > limits.maxFrame + HEADER_BYTES {
        return Err(BufferTooLarge);
      }
      result := ReadFrames();
    }

    /** Decode every frame that has arrived in full. */
    method ReadFrames() returns (result: Result<seq<Packet>, WireError>)
      requires Valid()
      modifies this
      ensures Valid()
      ensures var spec := ParseBatch(old(Held()), zip, limits.maxFrame, limits.maxPackets);
              if spec.error.Some? then result == Err(spec.error.value)
              else result == Ok(spec.packets) && Held() == spec.rest
    {
      hide ParseOne;
      hide ParseBatch;
      ghost var spec := ParseBatch(Held(), zip, limits.maxFrame, limits.maxPackets);
      var packets: seq<Packet> := [];
      assert [] + spec.packets == spec.packets;
      while bufferedBytes >= HEADER_BYTES
        invariant Valid() && |packets| <= limits.maxPackets
        invariant Continues(spec, packets, ParseBatch(Held(), zip, limits.maxFrame, limits.maxPackets - |packets|))
        decreases bufferedBytes
      {
        BatchCases(Held(), zip, limits.maxFrame, limits.maxPackets - |packets|, packets);
        if |packets| >= limits.maxPackets {
          return Err(TooManyPackets);
        }
        var frame := ReadFrame();
        if frame.Malformed? {
          return Err(frame.error);
        }
        if frame.Incomplete? {
          assert packets + [] == packets;
          return Ok(packets);
        }
        packets := packets + [frame.packet];
      }
      BatchCases(Held(), zip, limits.maxFrame, limits.maxPackets - |packets|, packets);
      assert packets + [] == packets;
      return Ok(packets);
    }

    /** The body of the read loop: one frame, if a whole one has arrived. */
    method ReadFrame() returns (frame: Parse)
      requires Valid() && bufferedBytes >= HEADER_BYTES
      modifies this
      ensures Valid() && frame == ParseOne(old(Held()), zip, limits.maxFrame)
      ensures frame.Framed? ==> Held() == old(Held())[frame.size..]
      ensures frame.Incomplete? ==> Held() == old(Held())
    {
      hide HeaderError;
      hide FromBytes;
      ghost var stream := Held();
      var header := Peek(HEADER_BYTES);
      PeekedHeader(stream, header, limits.maxFrame);
      var error := HeaderError(header, limits.maxFrame);
      if error.Some? {
        return Malformed(error.value);
      }
      var length := FromBytes(header[16..20]);
      if bufferedBytes < HEADER_BYTES + length {
        return Incomplete;
      }
      Consume(HEADER_BYTES);
      var encoded := Read(length);
      assert encoded == stream[HEADER_BYTES..FrameLength(stream)];
      assert Held() == stream[FrameLength(stream)..];
      var payload := if header[4] == 1 then zip.inflate(encoded, limits.maxFrame) else Some(encoded);
      if payload.None? {
        return Malformed(BadCompression);
      }
      if |payload.value| > limits.maxFrame {
        return Malformed(InflatedTooLarge);
      }
      var sequence := FromBytes(header[8..16]);
      if sequence > MAX_SAFE_INTEGER {
        return Malformed(SequenceTooLarge);
      }
      return Framed(Packet(header[3], sequence, payload.value), HEADER_BYTES + length);
    }

    /** Drop `length` bytes from the front. */
    method Consume(length: nat)
      requires Valid() && length <= bufferedBytes
      modifies this
      ensures Valid() && Held() == old(Held())[length..]
    {
      var remaining := length;
      while remaining > 0
        invariant 0 <= remaining <= length && remaining <= |Held()|
        invariant bufferedBytes == old(bufferedBytes)
        invariant |Held()| == |old(Held())| - (length - remaining)
        invariant Held()[remaining..] == old(Held())[length..]
        invariant forall i :: 0 <= i < |chunks| ==> chunks[i] != []
        decreases remaining
      {
        var first := chunks[0];
        assert Held() == first + Flatten(chunks[1..]);
        if |first| <= remaining {
          assert Held()[remaining..] == Flatten(chunks[1..])[remaining - |first|..];
          chunks := chunks[1..];
          remaining := remaining - |first|;
        } else {
          assert Held()[remaining..] == first[remaining..] + Flatten(chunks[1..]);
          chunks := [first[remaining..]] + chunks[1..];
          remaining := 0;
        }
      }
      bufferedBytes := bufferedBytes - length;
    }

    /** The first `length` bytes, copied together only when the first chunk is too short. */
    method Peek(length: nat) returns (bytes: seq<Byte>)
      requires Valid() && 1 <= length <= bufferedBytes
      ensures bytes == Held()[..length]
    {
      var first := chunks[0];
      if |first| >= length {
        return first[..length];
      }
      var result := new Byte[length](_ => 0);
      var offset := 0;
      var i := 0;
      while offset < length
        invariant 0 <= i <= |chunks| && 0 <= offset <= length
        invariant result[..offset] == Held()[..offset]
        invariant offset < length ==> offset + |Flatten(chunks[i..])| == |Held()|
        invariant offset < length ==> Held()[offset..] == Flatten(chunks[i..])
        decreases length - offset
      {
        assert i < |chunks|;
        var chunk := chunks[i];
        assert chunks[i..][0] == chunk && chunks[i..][1..] == chunks[i + 1..];
        var copied := Min(|chunk|, length - offset);
        forall k | 0 <= k < copied {
          result[offset + k] := chunk[k];
        }
        assert Held()[..offset + copied] == Held()[..offset] + Held()[offset..][..copied];
        assert result[..offset + copied] == result[..offset] + chunk[..copied];
        assert offset + copied < length ==> Held()[offset + copied..] == Held()[offset..][copied..];
        offset := offset + copied;
        i := i + 1;
      }
      return result[..];
    }

    /** Take `length` bytes from the front. */
    method Read(length: nat) returns (bytes: seq<Byte>)
      requires Valid() && length <= bufferedBytes
      modifies this
      ensures Valid() && bytes == old(Held())[..length] && Held() == old(Held())[length..]
    {
      if length == 0 {
        return [];
      }
      var first := chunks[0];
      assert Held() == first + Flatten(chunks[1..]);
      if |first| == length {
        chunks := chunks[1..];
        bufferedBytes := bufferedBytes - length;
        return first;
      }
      if |first| > length {
        chunks := [first[length..]] + chunks[1..];
        bufferedBytes := bufferedBytes - length;
        assert Held() == first[length..] + Flatten(chunks[1..]);
        return first[..length];
      }
      bytes := Peek(length);
      Consume(length);
    }
  }

  lemma {:induction false} PeekedHeader(stream: seq<Byte>, header: seq<Byte>, maxFrame: nat)
    requires |stream| >= HEADER_BYTES && header == stream[..HEADER_BYTES]
    ensures HeaderError(header, maxFrame) == HeaderError(stream, maxFrame)
    ensures FromBytes(header[16..20]) == FromBytes(stream[16..20])
    ensures FromBytes(header[8..16]) == FromBytes(stream[8..16])
    ensures header[3] == stream[3] && header[4] == stream[4]
  {
    assert header[0..2] == stream[0..2] && header[5..8] == stream[5..8];
    assert header[8..16] == stream[8..16] && header[16..20] == stream[16..20];
  }

  /** `spec` is `done` followed by `tail`. */
  predicate Continues(spec: Parsed, done: seq<Packet>, tail: Parsed) {
    spec == Parsed(done + tail.packets, tail.rest, tail.error)
  }

  /** One turn of the batch: what ends it, and what it leaves for the next turn. */
  lemma {:induction false} BatchCases(stream: seq<Byte>, zip: Zip, maxFrame: nat, budget: nat, done: seq<Packet>)
    ensures var one := ParseOne(stream, zip, maxFrame);
            var batch := ParseBatch(stream, zip, maxFrame, budget);
            && (|stream| < HEADER_BYTES ==> batch == Parsed([], stream, None))
            && (|stream| >= HEADER_BYTES ==>
                  if budget == 0 then batch.error == Some(TooManyPackets)
                  else match one
                       case Incomplete => batch == Parsed([], stream, None)
                       case Malformed(error) => batch.error == Some(error)
                       case Framed(packet, size) =>
                         forall spec: Parsed :: Continues(spec, done, batch) ==>
                           Continues(spec, done + [packet], ParseBatch(stream[size..], zip, maxFrame, budget - 1)))
  {
    hide ParseOne;
    if |stream| >= HEADER_BYTES && budget > 0 && ParseOne(stream, zip, maxFrame).Framed? {
      var one := ParseOne(stream, zip, maxFrame);
      var tail := ParseBatch(stream[one.size..], zip, maxFrame, budget - 1);
      assert done + ([one.packet] + tail.packets) == done + [one.packet] + tail.packets;
    }
  }

  // ----- Reading in pieces -----

  /** The batch limit is met exactly when a read completes more packets than it allows, or just as many
      with another header already there; otherwise it plays no part. */
  lemma {:induction false} BatchLimitIff(stream: seq<Byte>, zip: Zip, maxFrame: nat, budget: nat)
    ensures var all := ParseAll(stream, zip, maxFrame);
            var batch := ParseBatch(stream, zip, maxFrame, budget);
            if |all.packets| < budget || (|all.packets| == budget && |all.rest| < HEADER_BYTES) then batch == all
            else batch.error == Some(TooManyPackets) && batch.packets == all.packets[..budget]
    decreases |stream|
  {
    hide ParseOne;
    ShortIsIncomplete(stream, zip, maxFrame);
    match ParseOne(stream, zip, maxFrame)
    case Incomplete =>
    case Malformed(error) => MalformedIsLong(stream, zip, maxFrame);
    case Framed(packet, size) =>
      if budget > 0 {
        BatchLimitIff(stream[size..], zip, maxFrame, budget - 1);
        var tail := ParseAll(stream[size..], zip, maxFrame);
        if |tail.packets| >= budget - 1 {
          assert ([packet] + tail.packets)[..budget] == [packet] + tail.packets[..budget - 1];
        }
      }
  }

  lemma {:induction false} ShortIsIncomplete(stream: seq<Byte>, zip: Zip, maxFrame: nat)
    ensures |stream| < HEADER_BYTES ==> ParseOne(stream, zip, maxFrame) == Incomplete
  {
  }

  lemma {:induction false} MalformedIsLong(stream: seq<Byte>, zip: Zip, maxFrame: nat)
    ensures ParseOne(stream, zip, maxFrame).Malformed? ==>
              |stream| >= HEADER_BYTES && ParseOne(stream, zip, maxFrame).error != TooManyPackets
              && ParseOne(stream, zip, maxFrame).error != BufferTooLarge
  {
  }

  /** A stream whose frames have all been taken out holds no complete frame and no bad header. */
  lemma {:induction false} RestIsUnfinished(stream: seq<Byte>, zip: Zip, maxFrame: nat)
    ensures var all := ParseAll(stream, zip, maxFrame);
            all.error.None? ==> ParseAll(all.rest, zip, maxFrame) == Parsed([], all.rest, None)
    decreases |stream|
  {
    hide ParseOne;
    match ParseOne(stream, zip, maxFrame)
    case Framed(packet, size) => RestIsUnfinished(stream[size..], zip, maxFrame);
    case _ =>
  }

  predicate IsLimit(error: Option<WireError>) {
    error == Some(BufferTooLarge) || error == Some(TooManyPackets)
  }

  lemma {:induction false} ParsesNoLimit(stream: seq<Byte>, zip: Zip, maxFrame: nat)
    ensures !IsLimit(ParseAll(stream, zip, maxFrame).error)
    decreases |stream|
  {
    hide ParseOne;
    MalformedIsLong(stream, zip, maxFrame);
    match ParseOne(stream, zip, maxFrame)
    case Framed(packet, size) => ParsesNoLimit(stream[size..], zip, maxFrame);
    case _ =>
  }

  /** However a stream is cut into reads, as long as no read meets the buffer or batch limit the reads
      together decode what the whole stream decodes to, or fail as it fails. */
  lemma {:induction false} PushesParseWhole(held: seq<Byte>, pushes: seq<seq<Byte>>, zip: Zip, limits: Limits)
    requires ParseAll(held, zip, limits.maxFrame) == Parsed([], held, None)
    ensures var fed := PushAll(held, pushes, zip, limits);
            var whole := ParseAll(held + Flatten(pushes), zip, limits.maxFrame);
            && (fed.error.None? ==> fed == whole)
            && (fed.error.Some? && !IsLimit(fed.error) ==> fed.error == whole.error)
            && fed.packets <= whole.packets
    decreases |pushes|
  {
    hide ParseOne;
    if pushes == [] {
      assert held + Flatten<Byte>([]) == held;
    } else {
      var data, later := pushes[0], Flatten(pushes[1..]);
      assert held + Flatten(pushes) == held + data + later;
      var read := held + data;
      ParseAllConcat(read, later, zip, limits.maxFrame);
      BatchLimitIff(read, zip, limits.maxFrame, limits.maxPackets);
      var first := PushSpec(held, data, zip, limits);
      if first.error.None? {
        RestIsUnfinished(read, zip, limits.maxFrame);
        PushesParseWhole(first.rest, pushes[1..], zip, limits);
      }
    }
  }

  /** Encoded packets, cut into reads in any way within the limits, come out as they went in. */
  lemma {:induction false} EncodedPacketsArrive(packets: seq<Packet>, pushes: seq<seq<Byte>>, zip: Zip, limits: Limits)
    requires Faithful(zip) && ValidLimits(limits)
    requires forall i :: 0 <= i < |packets| ==> Encodable(packets[i]) && |packets[i].payload| <= limits.maxFrame
    requires Flatten(pushes) == Frames(packets, zip)
    ensures var fed := PushAll([], pushes, zip, limits);
            && (fed == Parsed(packets, [], None) <==> AllFit([], pushes, zip, limits))
            && (fed == Parsed(packets, [], None) || (IsLimit(fed.error) && fed.packets <= packets))
  {
    hide ParseOne;
    assert Pow256(4) == 256 * 256 * Pow256(2);
    assert forall i :: 0 <= i < |packets| ==> Fits(packets[i], limits.maxFrame);
    FramesParse(packets, zip, limits.maxFrame);
    ShortIsIncomplete([], zip, limits.maxFrame);
    assert ParseAll([], zip, limits.maxFrame) == Parsed([], [], None);
    PushesParseWhole([], pushes, zip, limits);
    assert [] + Flatten(pushes) == Flatten(pushes);
    ReadsPassIff([], pushes, zip, limits);
  }

  /** A read finds no more bytes waiting than one frame may have, no malformed frame, and no more complete frames
      than one read may deliver; one that delivers as many leaves less than a header behind. */
  predicate ReadFits(held: seq<Byte>, data: seq<Byte>, zip: Zip, limits: Limits) {
    var parsed := ParseAll(held + data, zip, limits.maxFrame);
    && |held| + |data| <= limits.maxFrame + HEADER_BYTES && parsed.error.None?
    && (|parsed.packets| < limits.maxPackets
        || (|parsed.packets| == limits.maxPackets && |parsed.rest| < HEADER_BYTES))
  }

  /** Every read fits, each behind what the ones before left unread. */
  predicate AllFit(held: seq<Byte>, pushes: seq<seq<Byte>>, zip: Zip, limits: Limits)
    decreases |pushes|
  {
    pushes != [] ==>
      ReadFits(held, pushes[0], zip, limits)
      && AllFit(ParseAll(held + pushes[0], zip, limits.maxFrame).rest, pushes[1..], zip, limits)
  }

  lemma {:induction false} PushIff(held: seq<Byte>, data: seq<Byte>, zip: Zip, limits: Limits)
    ensures var r := PushSpec(held, data, zip, limits);
            && (r.error.None? <==> ReadFits(held, data, zip, limits))
            && (r.error.None? ==> r == ParseAll(held + data, zip, limits.maxFrame))
            && (r.error == Some(BufferTooLarge) <== |held| + |data| > limits.maxFrame + HEADER_BYTES)
  {
    hide ParseOne;
    BatchLimitIff(held + data, zip, limits.maxFrame, limits.maxPackets);
    hide ParseAll;
    hide ParseBatch;
  }

  /** The reads of a stream all succeed exactly when every one of them fits, and then they deliver what the stream
      holds. */
  lemma {:induction false} ReadsPassIff(held: seq<Byte>, pushes: seq<seq<Byte>>, zip: Zip, limits: Limits)
    requires ParseAll(held, zip, limits.maxFrame) == Parsed([], held, None)
    ensures PushAll(held, pushes, zip, limits).error.None? <==> AllFit(held, pushes, zip, limits)
    ensures AllFit(held, pushes, zip, limits) ==>
              PushAll(held, pushes, zip, limits) == ParseAll(held + Flatten(pushes), zip, limits.maxFrame)
    decreases |pushes|
  {
    hide ParseOne;
    hide ReadFits;
    hide PushSpec;
    PushesParseWhole(held, pushes, zip, limits);
    if pushes != [] {
      PushIff(held, pushes[0], zip, limits);
      if PushSpec(held, pushes[0], zip, limits).error.None? {
        RestIsUnfinished(held + pushes[0], zip, limits.maxFrame);
        hide ParseAll;
        ReadsPassIff(PushSpec(held, pushes[0], zip, limits).rest, pushes[1..], zip, limits);
      }
    }
  }

  // ----- The encoder -----

  /** `None` is the refusal of a sequence, type or length the header cannot carry. */
  method EncodeWirePacket(packet: Packet, zip: Zip) returns (frame: Option<array<Byte>>)
    ensures frame.Some? <==> Encodable(packet) && |WirePayload(packet.payload, zip)| < Pow256(4)
    ensures frame.Some? ==> fresh(frame.value) && frame.value[..] == Frame(packet, zip)
  {
    assert Pow256(4) == 0x1_0000_0000 by { assert Pow256(2) == 65536; }
    if packet.sequence > MAX_SAFE_INTEGER || packet.kind < 1 || packet.kind > MAX_TYPE {
      return None;
    }
    var source := packet.payload;
    var compressed := if |source| >= COMPRESSION_MINIMUM then zip.deflate(source) else source;
    var useCompression := |compressed| + COMPRESSION_GAIN < |source|;
    var payload := if useCompression then compressed else source;
    assert payload == WirePayload(source, zip) && useCompression == Compresses(source, zip);
    if |payload| > 0xFFFF_FFFF {
      return None;
    }
    var data := new Byte[HEADER_BYTES + |payload|](_ => 0);
    WriteHeader(data, packet.kind, if useCompression then 1 else 0, packet.sequence, |payload|);
    WriteBytes(data, HEADER_BYTES, payload);
    assert data[..] == data[..HEADER_BYTES] + data[HEADER_BYTES..];
    return Some(data);
  }

  method WriteHeader(data: array<Byte>, kind: Byte, flags: Byte, sequence: nat, length: nat)
    requires data.Length >= HEADER_BYTES
    modifies data
    ensures data[..HEADER_BYTES]
         == ToBytes(MAGIC, 2) + [VERSION, kind, flags, 0, 0, 0] + ToBytes(sequence, 8) + ToBytes(length, 4)
    ensures data[HEADER_BYTES..] == old(data[HEADER_BYTES..])
  {
    hide ToBytes;
    ghost var magic, fields := ToBytes(MAGIC, 2), [VERSION, kind, flags, 0, 0, 0];
    WriteBytes(data, 0, ToBytes(MAGIC, 2));
    WriteBytes(data, 2, [VERSION, kind, flags, 0, 0, 0]);
    assert data[0..2] == magic && data[2..8] == fields;
    WriteBytes(data, 8, ToBytes(sequence, 8));
    assert data[0..2] == magic && data[2..8] == fields && data[8..16] == ToBytes(sequence, 8);
    WriteBytes(data, 16, ToBytes(length, 4));
    assert data[..HEADER_BYTES] == data[0..2] + data[2..8] + data[8..16] + data[16..20];
  }

  method WriteBytes(data: array<Byte>, at: nat, bytes: seq<Byte>)
    requires at + |bytes| <= data.Length
    modifies data
    ensures data[at..at + |bytes|] == bytes
    ensures forall k :: 0 <= k < data.Length && !(at <= k < at + |bytes|) ==> data[k] == old(data[k])
  {
    for i := 0 to |bytes|
      invariant data[at..at + i] == bytes[..i]
      invariant forall k :: 0 <= k < data.Length && !(at <= k < at + i) ==> data[k] == old(data[k])
    {
      data[at + i] := bytes[i];
    }
  }
}

/**
 * The frame format of the remote terminal protocol and what a whole byte stream means in it
 * (WirePacket.ts, WirePacketDecoder.ts, encodeWirePacket.ts).
 */
module WireFormat {
  import opened Basics

  const HEADER_BYTES := 20
  const MAGIC := 0x5254
  const VERSION := 1
  const MAX_TYPE := 18
  const MAX_SAFE_INTEGER := 0x1F_FFFF_FFFF_FFFF
  const COMPRESSION_MINIMUM := 512
  const COMPRESSION_GAIN := 16

  datatype Packet = Packet(kind: nat, sequence: nat, payload: seq<Byte>)

  datatype WireError =
    | BadMagic | BadVersion | BadType | BadFlags | BadReserved | FrameTooLarge | BadCompression
    | InflatedTooLarge | SequenceTooLarge | BufferTooLarge | TooManyPackets

  /** A raw deflate library; `inflate` is given the largest output it may produce. */
  datatype Zip = Zip(deflate: seq<Byte> -> seq<Byte>, inflate: (seq<Byte>, nat) -> Option<seq<Byte>>)

  ghost predicate Faithful(zip: Zip) {
    && (forall data, limit :: |data| <= limit ==> zip.inflate(zip.deflate(data), limit) == Some(data))
    && (forall data, limit :: zip.inflate(data, limit).Some? ==> |zip.inflate(data, limit).value| <= limit)
  }

  // ----- Big-endian integers -----

  function Pow256(width: nat): nat {
    if width == 0 then 1 else 256 * Pow256(width - 1)
  }

  function ToBytes(n: nat, width: nat): (s: seq<Byte>)
    ensures |s| == width
  {
    if width == 0 then [] else ToBytes(n / 256, width - 1) + [n % 256]
  }

  function FromBytes(s: seq<Byte>): nat {
    if s == [] then 0 else FromBytes(s[..|s| - 1]) * 256 + s[|s| - 1]
  }

  lemma {:induction false} BytesRoundTrip(n: nat, width: nat)
    requires n < Pow256(width)
    ensures FromBytes(ToBytes(n, width)) == n
  {
    if width > 0 {
      BytesRoundTrip(n / 256, width - 1);
      assert ToBytes(n, width)[..width - 1] == ToBytes(n / 256, width - 1);
    }
  }

  // ----- Encoding -----

  predicate Encodable(p: Packet) {
    p.sequence <= MAX_SAFE_INTEGER && 1 <= p.kind <= MAX_TYPE
  }

  /** Payloads of at least 512 bytes are compressed when that saves more than 16 bytes. */
  predicate Compresses(source: seq<Byte>, zip: Zip) {
    |source| >= COMPRESSION_MINIMUM && |zip.deflate(source)| + COMPRESSION_GAIN < |source|
  }

  function WirePayload(source: seq<Byte>, zip: Zip): seq<Byte> {
    if Compresses(source, zip) then zip.deflate(source) else source
  }

  function Header(p: Packet, zip: Zip): (s: seq<Byte>)
    requires Encodable(p)
    ensures |s| == HEADER_BYTES
  {
    ToBytes(MAGIC, 2) + [VERSION, p.kind, if Compresses(p.payload, zip) then 1 else 0, 0, 0, 0]
    + ToBytes(p.sequence, 8) + ToBytes(|WirePayload(p.payload, zip)|, 4)
  }

  function Frame(p: Packet, zip: Zip): seq<Byte>
    requires Encodable(p)
  {
    Header(p, zip) + WirePayload(p.payload, zip)
  }

  // ----- Parsing a whole stream -----

  /** `Framed(p, n)`: the stream begins with a frame of `n` bytes that holds `p`. */
  datatype Parse = Incomplete | Malformed(error: WireError) | Framed(packet: Packet, size: nat)

  function FrameLength(stream: seq<Byte>): nat
    requires |stream| >= HEADER_BYTES
  {
    HEADER_BYTES + FromBytes(stream[16..20])
  }

  /** The checks of a header, in the order they are made. */
  function HeaderError(stream: seq<Byte>, maxFrame: nat): Option<WireError>
    requires |stream| >= HEADER_BYTES
  {
    if FromBytes(stream[0..2]) != MAGIC then Some(BadMagic)
    else if stream[2] != VERSION then Some(BadVersion)
    else if stream[3] < 1 || stream[3] > MAX_TYPE then Some(BadType)
    else if stream[4] > 1 then Some(BadFlags)
    else if FromBytes(stream[5..8]) != 0 then Some(BadReserved)
    else if FromBytes(stream[16..20]) > maxFrame then Some(FrameTooLarge)
    else None
  }

  function ParseBody(stream: seq<Byte>, zip: Zip, maxFrame: nat): Parse
    requires |stream| >= HEADER_BYTES && |stream| >= FrameLength(stream)
  {
    var encoded := stream[HEADER_BYTES..FrameLength(stream)];
    var payload := if stream[4] == 1 then zip.inflate(encoded, maxFrame) else Some(encoded);
    if payload.None? then Malformed(BadCompression)
    else if |payload.value| > maxFrame then Malformed(InflatedTooLarge)
    else if FromBytes(stream[8..16]) > MAX_SAFE_INTEGER then Malformed(SequenceTooLarge)
    else Framed(Packet(stream[3], FromBytes(stream[8..16]), payload.value), FrameLength(stream))
  }

  function ParseOne(stream: seq<Byte>, zip: Zip, maxFrame: nat): (r: Parse)
    ensures r.Framed? ==> HEADER_BYTES <= r.size <= |stream|
  {
    if |stream| < HEADER_BYTES then Incomplete
    else if HeaderError(stream, maxFrame).Some? then Malformed(HeaderError(stream, maxFrame).value)
    else if |stream| < FrameLength(stream) then Incomplete
    else ParseBody(stream, zip, maxFrame)
  }

  /** All complete frames of a stream, what follows them, and the error that stopped the parse, if any. */
  datatype Parsed = Parsed(packets: seq<Packet>, rest: seq<Byte>, error: Option<WireError>)

  function ParseAll(stream: seq<Byte>, zip: Zip, maxFrame: nat): Parsed
    decreases |stream|
  {
    match ParseOne(stream, zip, maxFrame)
    case Incomplete => Parsed([], stream, None)
    case Malformed(error) => Parsed([], stream, Some(error))
    case Framed(packet, size) =>
      var tail := ParseAll(stream[size..], zip, maxFrame);
      Parsed([packet] + tail.packets, tail.rest, tail.error)
  }

  // ----- Encoding and decoding undo each other -----

  lemma {:induction false} HeaderFields(p: Packet, zip: Zip, stream: seq<Byte>)
    requires Encodable(p) && |WirePayload(p.payload, zip)| < Pow256(4)
    requires Header(p, zip) <= stream
    ensures FromBytes(stream[0..2]) == MAGIC && stream[2] == VERSION && stream[3] == p.kind
    ensures stream[4] == (if Compresses(p.payload, zip) then 1 else 0)
    ensures FromBytes(stream[5..8]) == 0
    ensures FromBytes(stream[8..16]) == p.sequence
    ensures FromBytes(stream[16..20]) == |WirePayload(p.payload, zip)|
  {
    var h := Header(p, zip);
    assert forall i :: 0 <= i < HEADER_BYTES ==> stream[i] == h[i];
    assert stream[0..2] == h[0..2] == ToBytes(MAGIC, 2);
    assert stream[5..8] == h[5..8] == ToBytes(0, 3);
    assert stream[8..16] == h[8..16] == ToBytes(p.sequence, 8);
    assert stream[16..20] == h[16..20] == ToBytes(|WirePayload(p.payload, zip)|, 4);
    assert Pow256(8) == 256 * 256 * 256 * 256 * Pow256(4) && Pow256(4) == 256 * 256 * Pow256(2);
    BytesRoundTrip(MAGIC, 2);
    BytesRoundTrip(0, 3);
    BytesRoundTrip(p.sequence, 8);
    BytesRoundTrip(|WirePayload(p.payload, zip)|, 4);
  }

  predicate Fits(p: Packet, maxFrame: nat) {
    Encodable(p) && |p.payload| <= maxFrame && maxFrame < Pow256(4)
  }

  /** A frame, whatever follows it, parses to the packet it encodes. */
  lemma {:induction false} FrameParses(p: Packet, zip: Zip, maxFrame: nat, more: seq<Byte>)
    requires Faithful(zip) && Fits(p, maxFrame)
    ensures ParseOne(Frame(p, zip) + more, zip, maxFrame) == Framed(p, |Frame(p, zip)|)
  {
    var stream := Frame(p, zip) + more;
    HeaderFields(p, zip, stream);
    assert stream[HEADER_BYTES..FrameLength(stream)] == WirePayload(p.payload, zip);
  }

  function Frames(packets: seq<Packet>, zip: Zip): seq<Byte>
    requires forall i :: 0 <= i < |packets| ==> Encodable(packets[i])
  {
    if packets == [] then [] else Frame(packets[0], zip) + Frames(packets[1..], zip)
  }

  lemma {:induction false} ParseHead(p: Packet, zip: Zip, maxFrame: nat, more: seq<Byte>)
    requires Faithful(zip) && Fits(p, maxFrame)
    ensures var tail := ParseAll(more, zip, maxFrame);
            ParseAll(Frame(p, zip) + more, zip, maxFrame) == Parsed([p] + tail.packets, tail.rest, tail.error)
  {
    FrameParses(p, zip, maxFrame, more);
    hide Frame;
    hide ParseOne;
    assert (Frame(p, zip) + more)[|Frame(p, zip)|..] == more;
  }

  /** A stream of frames parses to exactly the packets encoded, with nothing left over. */
  lemma {:induction false} FramesParse(packets: seq<Packet>, zip: Zip, maxFrame: nat)
    requires forall i :: 0 <= i < |packets| ==> Encodable(packets[i])
    requires Faithful(zip) && forall i :: 0 <= i < |packets| ==> Fits(packets[i], maxFrame)
    ensures ParseAll(Frames(packets, zip), zip, maxFrame) == Parsed(packets, [], None)
    decreases |packets|
  {
    hide Frame;
    hide ParseAll;
    if packets == [] {
      NothingParses(zip, maxFrame);
    } else {
      ParseHead(packets[0], zip, maxFrame, Frames(packets[1..], zip));
      FramesParse(packets[1..], zip, maxFrame);
      assert packets == [packets[0]] + packets[1..];
    }
  }

  lemma {:induction false} NothingParses(zip: Zip, maxFrame: nat)
    ensures ParseAll([], zip, maxFrame) == Parsed([], [], None)
  {
  }

  // ----- Parsing in pieces -----

  /** More bytes never change what a prefix already settled. */
  lemma {:induction false} ParseOneExtends(a: seq<Byte>, b: seq<Byte>, zip: Zip, maxFrame: nat)
    requires ParseOne(a, zip, maxFrame) != Incomplete
    ensures ParseOne(a + b, zip, maxFrame) == ParseOne(a, zip, maxFrame)
  {
    var s := a + b;
    assert s[0..2] == a[0..2] && s[5..8] == a[5..8] && s[8..16] == a[8..16] && s[16..20] == a[16..20];
    if HeaderError(a, maxFrame).None? {
      assert s[HEADER_BYTES..FrameLength(a)] == a[HEADER_BYTES..FrameLength(a)];
    }
  }

  /** Parsing a stream in two pieces, carrying the unfinished part over, gives what parsing it whole gives. */
  lemma {:induction false} ParseAllConcat(a: seq<Byte>, b: seq<Byte>, zip: Zip, maxFrame: nat)
    ensures var first := ParseAll(a, zip, maxFrame);
            var whole := ParseAll(a + b, zip, maxFrame);
            if first.error.Some? then whole.packets == first.packets && whole.error == first.error
            else
              var second := ParseAll(first.rest + b, zip, maxFrame);
              whole == Parsed(first.packets + second.packets, second.rest, second.error)
    decreases |a|
  {
    hide ParseOne;
    match ParseOne(a, zip, maxFrame)
    case Incomplete =>
      assert ParseAll(a, zip, maxFrame) == Parsed([], a, None);
      var whole := ParseAll(a + b, zip, maxFrame);
      assert [] + whole.packets == whole.packets;
    case Malformed(error) =>
      ParseOneExtends(a, b, zip, maxFrame);
    case Framed(packet, size) =>
      ParseOneExtends(a, b, zip, maxFrame);
      assert (a + b)[size..] == a[size..] + b;
      ParseAllConcat(a[size..], b, zip, maxFrame);
      var tail := ParseAll(a[size..], zip, maxFrame);
      assert ParseAll(a, zip, maxFrame) == Parsed([packet] + tail.packets, tail.rest, tail.error);
      var whole := ParseAll(a[size..] + b, zip, maxFrame);
      assert ParseAll(a + b, zip, maxFrame) == Parsed([packet] + whole.packets, whole.rest, whole.error);
      var second := ParseAll(tail.rest + b, zip, maxFrame);
      assert [packet] + (tail.packets + second.packets) == [packet] + tail.packets + second.packets;
  }

  // ----- Only frames parse -----

  /** A header of the protocol in front of a body of `length` bytes. */
  function HeaderOf(kind: Byte, flag: Byte, sequence: nat, length: nat): seq<Byte> {
    ToBytes(MAGIC, 2) + [VERSION, kind, flag, 0, 0, 0] + ToBytes(sequence, 8) + ToBytes(length, 4)
  }

  /** A header that is accepted. */
  ghost predicate Admissible(header: seq<Byte>, maxFrame: nat) {
    exists kind: Byte, flag: Byte, sequence: nat, length: nat ::
      && 1 <= kind <= MAX_TYPE && flag <= 1 && sequence < Pow256(8) && length < Pow256(4) && length <= maxFrame
      && header == HeaderOf(kind, flag, sequence, length)
  }

  lemma {:induction false} ToBytesOf(s: seq<Byte>)
    ensures FromBytes(s) < Pow256(|s|) && ToBytes(FromBytes(s), |s|) == s
  {
    if s != [] {
      var n := |s| - 1;
      ToBytesOf(s[..n]);
      assert FromBytes(s) / 256 == FromBytes(s[..n]) && FromBytes(s) % 256 == s[n];
      assert s == s[..n] + [s[n]];
    }
  }

  lemma {:induction false} HeaderIs(stream: seq<Byte>)
    requires |stream| >= HEADER_BYTES && FromBytes(stream[0..2]) == MAGIC && stream[2] == VERSION
    requires FromBytes(stream[5..8]) == 0
    ensures stream[..HEADER_BYTES]
         == HeaderOf(stream[3], stream[4], FromBytes(stream[8..16]), FromBytes(stream[16..20]))
    ensures FromBytes(stream[8..16]) < Pow256(8) && FromBytes(stream[16..20]) < Pow256(4)
  {
    ToBytesOf(stream[0..2]);
    ToBytesOf(stream[5..8]);
    ToBytesOf(stream[8..16]);
    ToBytesOf(stream[16..20]);
    ZeroBytes();
    assert stream[5..8] == [0, 0, 0];
    var h := HeaderOf(stream[3], stream[4], FromBytes(stream[8..16]), FromBytes(stream[16..20]));
    assert stream[..HEADER_BYTES]
        == stream[0..2] + [stream[2], stream[3], stream[4]] + stream[5..8] + stream[8..16] + stream[16..20];
    assert h == stream[0..2] + [VERSION, stream[3], stream[4], 0, 0, 0] + stream[8..16] + stream[16..20];
  }

  lemma {:induction false} ZeroBytes()
    ensures ToBytes(0, 3) == [0, 0, 0]
  {
    assert ToBytes(0, 1) == ToBytes(0, 0) + [0] == [0];
    assert ToBytes(0, 2) == ToBytes(0, 1) + [0] == [0, 0];
    assert ToBytes(0, 3) == ToBytes(0, 2) + [0];
  }

  lemma {:induction false} HeaderOfFields(stream: seq<Byte>, kind: Byte, flag: Byte, sequence: nat, length: nat)
    requires |stream| >= HEADER_BYTES && sequence < Pow256(8) && length < Pow256(4)
    requires stream[..HEADER_BYTES] == HeaderOf(kind, flag, sequence, length)
    ensures FromBytes(stream[0..2]) == MAGIC && stream[2] == VERSION && stream[3] == kind && stream[4] == flag
    ensures FromBytes(stream[5..8]) == 0 && FromBytes(stream[8..16]) == sequence
    ensures FromBytes(stream[16..20]) == length
  {
    var h := HeaderOf(kind, flag, sequence, length);
    assert forall i :: 0 <= i < HEADER_BYTES ==> stream[i] == stream[..HEADER_BYTES][i] == h[i];
    ZeroBytes();
    assert stream[0..2] == h[0..2] == ToBytes(MAGIC, 2);
    assert stream[5..8] == h[5..8] == ToBytes(0, 3);
    assert stream[8..16] == h[8..16] == ToBytes(sequence, 8);
    assert stream[16..20] == h[16..20] == ToBytes(length, 4);
    assert Pow256(2) == 256 * 256 && Pow256(3) == 256 * Pow256(2) by { assert Pow256(1) == 256 * Pow256(0); }
    BytesRoundTrip(MAGIC, 2);
    BytesRoundTrip(0, 3);
    BytesRoundTrip(sequence, 8);
    BytesRoundTrip(length, 4);
  }

  lemma {:induction false} AdmissibleIff(stream: seq<Byte>, maxFrame: nat)
    requires |stream| >= HEADER_BYTES
    ensures HeaderError(stream, maxFrame).None? <==> Admissible(stream[..HEADER_BYTES], maxFrame)
  {
    hide HeaderOf;
    if HeaderError(stream, maxFrame).None? { HeaderIs(stream); }
    if Admissible(stream[..HEADER_BYTES], maxFrame) {
      var kind: Byte, flag: Byte, sequence: nat, length: nat :|
        && 1 <= kind <= MAX_TYPE && flag <= 1 && sequence < Pow256(8) && length < Pow256(4) && length <= maxFrame
        && stream[..HEADER_BYTES] == HeaderOf(kind, flag, sequence, length);
      HeaderOfFields(stream, kind, flag, sequence, length);
    }
  }

  /** The body of a frame of `size` bytes stands for the payload of the packet. */
  predicate Carries(body: seq<Byte>, flag: Byte, payload: seq<Byte>, zip: Zip, maxFrame: nat) {
    |payload| <= maxFrame
    && if flag == 1 then zip.inflate(body, maxFrame) == Some(payload) else body == payload
  }

  /** The stream starts with a header of the protocol for the packet, followed by a body of the announced length
      that stands for its payload, `size` bytes in all. */
  predicate StartsWith(stream: seq<Byte>, p: Packet, size: nat, flag: Byte, zip: Zip, maxFrame: nat) {
    && flag <= 1 && 1 <= p.kind <= MAX_TYPE && p.sequence <= MAX_SAFE_INTEGER
    && HEADER_BYTES <= size <= |stream| && size - HEADER_BYTES < Pow256(4) && size - HEADER_BYTES <= maxFrame
    && stream[..HEADER_BYTES] == HeaderOf(p.kind, flag, p.sequence, size - HEADER_BYTES)
    && Carries(stream[HEADER_BYTES..size], flag, p.payload, zip, maxFrame)
  }

  lemma {:induction false} StartParses(stream: seq<Byte>, p: Packet, size: nat, flag: Byte, zip: Zip, maxFrame: nat)
    requires StartsWith(stream, p, size, flag, zip, maxFrame)
    ensures ParseOne(stream, zip, maxFrame) == Framed(p, size)
  {
    hide HeaderOf;
    SafeFits();
    HeaderOfFields(stream, p.kind, flag, p.sequence, size - HEADER_BYTES);
    assert FrameLength(stream) == size;
  }

  lemma {:induction false} ParsedStarts(stream: seq<Byte>, p: Packet, size: nat, zip: Zip, maxFrame: nat)
    requires ParseOne(stream, zip, maxFrame) == Framed(p, size)
    ensures StartsWith(stream, p, size, stream[4], zip, maxFrame)
  {
    hide HeaderOf;
    HeaderIs(stream);
  }

  /** A stream is read as a packet exactly when it starts with it. It is waited for exactly while fewer bytes than
      a header, or than an accepted header announces, have come; everything else is refused at once. */
  lemma {:induction false} ParsesIff(stream: seq<Byte>, zip: Zip, maxFrame: nat, p: Packet, size: nat)
    ensures ParseOne(stream, zip, maxFrame) == Framed(p, size)
       <==> exists flag: Byte :: StartsWith(stream, p, size, flag, zip, maxFrame)
    ensures ParseOne(stream, zip, maxFrame).Incomplete?
       <==> |stream| < HEADER_BYTES
            || (Admissible(stream[..HEADER_BYTES], maxFrame) && |stream| < FrameLength(stream))
  {
    hide StartsWith;
    hide Admissible;
    if |stream| >= HEADER_BYTES { AdmissibleIff(stream, maxFrame); }
    if ParseOne(stream, zip, maxFrame) == Framed(p, size) { ParsedStarts(stream, p, size, zip, maxFrame); }
    if flag: Byte :| StartsWith(stream, p, size, flag, zip, maxFrame) {
      StartParses(stream, p, size, flag, zip, maxFrame);
    }
  }

  lemma {:induction false} SafeFits()
    ensures MAX_SAFE_INTEGER < Pow256(8)
  {
    assert Pow256(8) == 256 * 256 * 256 * 256 * Pow256(4) && Pow256(4) == 256 * 256 * 256 * 256 * Pow256(0);
  }
}

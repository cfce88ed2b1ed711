// The binary media packet, as the gateway writes and reads it and as the browser does.
module MediaCodec {
  import opened Protocol
  import opened Bytes

  type U8 = b: nat | b < 0x100
  type U16 = n: nat | n < 0x1_0000
  type U32 = n: nat | n < 0x1_0000_0000
  type U64 = n: nat | n < 0x1_0000_0000_0000_0000

  // A single-precision number by its bit pattern.
  type F32 = U32

  const NAN_BITS: F32 := 0x7fc0_0000

  predicate IsFinite(f: F32) {
    f / 0x80_0000 % 0x100 != 0xff
  }

  const NIL: seq<Byte> := [0, 0, 0, 0, 0, 0, 0, 0, 0, 0, 0, 0, 0, 0, 0, 0]

  // The sixteen bytes of a UUID, in order.
  type Uuid = u: seq<Byte> | |u| == 16 witness NIL

  datatype Kind = InputAudio | OutputAudio

  datatype PcmAudioFrame = PcmAudioFrame(
    pcm: seq<Byte>, sampleRate: U32, channels: U8, frameDurationMs: U16,
    speechProbability: Option<F32>, outputLevel: Option<F32>, echoProbability: Option<F32>)

  datatype MediaPacket = MediaPacket(
    kind: Kind, sequence: U64, mediaTimeUs: U64, generation: Option<Uuid>, audio: PcmAudioFrame)

  datatype PacketError =
    | Truncated | InvalidMagic | UnsupportedVersion(version: Byte) | InvalidKind(code: Byte)
    | MissingPayload | InvalidAudioMetadata

  datatype Result<+T, +E> = Ok(value: T) | Err(error: E)

  // ---------- layout ----------

  const MAGIC: seq<Byte> := [0x4f, 0x4c, 0x49, 0x56]
  const WIRE_VERSION: Byte := 1
  const HEADER_LEN: nat := 60

  function KindCode(kind: Kind): Byte {
    match kind
    case InputAudio => 1
    case OutputAudio => 2
  }

  function OrNan(f: Option<F32>): F32 {
    match f
    case Some(bits) => bits
    case None => NAN_BITS
  }

  function OrNil(g: Option<Uuid>): Uuid {
    match g
    case Some(id) => id
    case None => NIL
  }

  function Head(kind: Kind): seq<Byte> {
    MAGIC + [WIRE_VERSION, KindCode(kind), 0, 0]
  }

  function Stamp(sequence: U64, mediaTimeUs: U64): seq<Byte> {
    Le(sequence, 8) + Le(mediaTimeUs, 8)
  }

  function Format(sampleRate: U32, frameDurationMs: U16, channels: U8): seq<Byte> {
    Le(sampleRate, 4) + Le(frameDurationMs, 2) + [channels, 0]
  }

  function Meters(speech: F32, output: F32, echo: F32): seq<Byte> {
    Le(speech, 4) + Le(output, 4) + Le(echo, 4)
  }

  function Encoded(p: MediaPacket): seq<Byte> {
    var a := p.audio;
    Head(p.kind) + Stamp(p.sequence, p.mediaTimeUs) + OrNil(p.generation) +
    Format(a.sampleRate, a.frameDurationMs, a.channels) +
    Meters(OrNan(a.speechProbability), OrNan(a.outputLevel), OrNan(a.echoProbability)) + a.pcm
  }

  method Encode(p: MediaPacket) returns (encoded: seq<Byte>)
    ensures encoded == Encoded(p)
  {
    hide Le;
    encoded := MAGIC;
    encoded := encoded + [WIRE_VERSION];
    encoded := encoded + [KindCode(p.kind)];
    encoded := encoded + [0, 0];
    assert encoded == Head(p.kind);
    encoded := encoded + Le(p.sequence, 8);
    encoded := encoded + Le(p.mediaTimeUs, 8);
    assert encoded == Head(p.kind) + Stamp(p.sequence, p.mediaTimeUs);
    encoded := encoded + OrNil(p.generation);
    ghost var front := encoded;
    encoded := encoded + Le(p.audio.sampleRate, 4);
    encoded := encoded + Le(p.audio.frameDurationMs, 2);
    encoded := encoded + [p.audio.channels];
    encoded := encoded + [0];
    assert encoded == front + Format(p.audio.sampleRate, p.audio.frameDurationMs, p.audio.channels);
    front := encoded;
    encoded := encoded + Le(OrNan(p.audio.speechProbability), 4);
    encoded := encoded + Le(OrNan(p.audio.outputLevel), 4);
    encoded := encoded + Le(OrNan(p.audio.echoProbability), 4);
    assert encoded == front + Meters(OrNan(p.audio.speechProbability), OrNan(p.audio.outputLevel),
                                     OrNan(p.audio.echoProbability));
    encoded := encoded + p.audio.pcm;
  }

  // ---------- reading ----------

  function Read(b: seq<Byte>, offset: nat, k: nat): nat
    requires offset + k <= |b|
  {
    FromLe(b[offset..offset + k])
  }

  function ReadU64(b: seq<Byte>, offset: nat): U64
    requires offset + 8 <= |b|
  {
    FromLeRoundTrip(b[offset..offset + 8]);
    Widths();
    Read(b, offset, 8)
  }

  function ReadU32(b: seq<Byte>, offset: nat): U32
    requires offset + 4 <= |b|
  {
    FromLeRoundTrip(b[offset..offset + 4]);
    Widths();
    Read(b, offset, 4)
  }

  function ReadU16(b: seq<Byte>, offset: nat): U16
    requires offset + 2 <= |b|
  {
    FromLeRoundTrip(b[offset..offset + 2]);
    Widths();
    Read(b, offset, 2)
  }

  function IfFinite(f: F32): Option<F32> {
    if IsFinite(f) then Some(f) else None
  }

  predicate GoodMetadata(channels: U8, sampleRate: U32, frameDurationMs: U16) {
    channels == 1 && 8_000 <= sampleRate <= 48_000 && 5 <= frameDurationMs <= 100
  }

  function ReadId(b: seq<Byte>): Uuid
    requires |b| >= HEADER_LEN
  {
    b[24..40]
  }

  function Decode(b: seq<Byte>): Result<MediaPacket, PacketError> {
    if |b| < HEADER_LEN then Err(Truncated)
    else if b[..4] != MAGIC then Err(InvalidMagic)
    else if b[4] != WIRE_VERSION then Err(UnsupportedVersion(b[4]))
    else if b[5] != 1 && b[5] != 2 then Err(InvalidKind(b[5]))
    else
      var kind := if b[5] == 1 then InputAudio else OutputAudio;
      var pcm := b[HEADER_LEN..];
      if pcm == [] then Err(MissingPayload)
      else if !GoodMetadata(b[46], ReadU32(b, 40), ReadU16(b, 44)) then Err(InvalidAudioMetadata)
      else
        Ok(MediaPacket(kind, ReadU64(b, 8), ReadU64(b, 16), if ReadId(b) == NIL then None else Some(ReadId(b)),
                       PcmAudioFrame(pcm, ReadU32(b, 40), b[46], ReadU16(b, 44),
                                     IfFinite(ReadU32(b, 48)), IfFinite(ReadU32(b, 52)), IfFinite(ReadU32(b, 56)))))
  }

  // ---------- the parts of an encoded packet ----------

  // A byte string cut at the boundaries of the layout.
  predicate Cut(b: seq<Byte>, head: seq<Byte>, stamp: seq<Byte>, id: seq<Byte>, format: seq<Byte>, meters: seq<Byte>,
                pcm: seq<Byte>) {
    && |head| == 8 && |stamp| == 16 && |id| == 16 && |format| == 8 && |meters| == 12
    && b == head + stamp + id + format + meters + pcm
  }

  lemma CutSlices(b: seq<Byte>, head: seq<Byte>, stamp: seq<Byte>, id: seq<Byte>, format: seq<Byte>,
                  meters: seq<Byte>, pcm: seq<Byte>)
    requires Cut(b, head, stamp, id, format, meters, pcm)
    ensures |b| == HEADER_LEN + |pcm|
    ensures b[0..8] == head && b[8..24] == stamp && b[24..40] == id
    ensures b[40..48] == format && b[48..60] == meters && b[60..] == pcm
  {
    FrontSlices(b, head, stamp, id, format + meters + pcm);
    assert b == head + stamp + id + (format + meters + pcm);
    var front := head + stamp + id;
    MiddleSlice(front, format, meters + pcm);
    assert b == front + format + (meters + pcm);
    MiddleSlice(front + format, meters, pcm);
    assert b == front + format + meters + pcm;
  }

  lemma FrontSlices(b: seq<Byte>, head: seq<Byte>, stamp: seq<Byte>, id: seq<Byte>, rest: seq<Byte>)
    requires |head| == 8 && |stamp| == 16 && |id| == 16 && b == head + stamp + id + rest
    ensures b[0..8] == head && b[8..24] == stamp && b[24..40] == id
  {
    MiddleSlice([], head, stamp + id + rest);
    assert b == [] + head + (stamp + id + rest);
    MiddleSlice(head, stamp, id + rest);
    assert b == head + stamp + (id + rest);
    MiddleSlice(head + stamp, id, rest);
  }

  // The fields a reader finds.
  predicate Fields(b: seq<Byte>, kind: Kind, sequence: U64, mediaTimeUs: U64, id: Uuid, sampleRate: U32,
                   frameDurationMs: U16, channels: U8, speech: F32, output: F32, echo: F32, pcm: seq<Byte>)
  {
    && |b| == HEADER_LEN + |pcm|
    && b[..4] == MAGIC && b[4] == WIRE_VERSION && b[5] == KindCode(kind)
    && ReadU64(b, 8) == sequence && ReadU64(b, 16) == mediaTimeUs && b[24..40] == id
    && ReadU32(b, 40) == sampleRate && ReadU16(b, 44) == frameDurationMs && b[46] == channels
    && ReadU32(b, 48) == speech && ReadU32(b, 52) == output && ReadU32(b, 56) == echo && b[60..] == pcm
  }

  lemma StampRead(b: seq<Byte>, sequence: U64, mediaTimeUs: U64)
    requires |b| >= 60 && b[8..24] == Stamp(sequence, mediaTimeUs)
    ensures ReadU64(b, 8) == sequence && ReadU64(b, 16) == mediaTimeUs
  {
    hide Le, FromLe;
    var x, y := Le(sequence, 8), Le(mediaTimeUs, 8);
    SliceOfSlice(b, 8, 24, 0, 8);
    SliceOfSlice(b, 8, 24, 8, 16);
    assert (x + y)[0..8] == x && (x + y)[8..16] == y;
    Widths();
    LeRoundTrip(sequence, 8);
    LeRoundTrip(mediaTimeUs, 8);
  }

  lemma FormatRead(b: seq<Byte>, sampleRate: U32, frameDurationMs: U16, channels: U8)
    requires |b| >= 60 && b[40..48] == Format(sampleRate, frameDurationMs, channels)
    ensures ReadU32(b, 40) == sampleRate && ReadU16(b, 44) == frameDurationMs && b[46] == channels
  {
    hide Le, FromLe;
    var x, y, z := Le(sampleRate, 4), Le(frameDurationMs, 2), [channels, 0];
    SliceOfSlice(b, 40, 48, 0, 4);
    SliceOfSlice(b, 40, 48, 4, 6);
    assert (x + y + z)[0..4] == x && (x + y + z)[4..6] == y && (x + y + z)[6] == channels;
    assert b[46] == b[40..48][6];
    Widths();
    LeRoundTrip(sampleRate, 4);
    LeRoundTrip(frameDurationMs, 2);
  }

  lemma MetersRead(b: seq<Byte>, speech: F32, output: F32, echo: F32)
    requires |b| >= 60 && b[48..60] == Meters(speech, output, echo)
    ensures ReadU32(b, 48) == speech && ReadU32(b, 52) == output && ReadU32(b, 56) == echo
  {
    hide Le, FromLe;
    var x, y, z := Le(speech, 4), Le(output, 4), Le(echo, 4);
    SliceOfSlice(b, 48, 60, 0, 4);
    SliceOfSlice(b, 48, 60, 4, 8);
    SliceOfSlice(b, 48, 60, 8, 12);
    assert (x + y + z)[0..4] == x && (x + y + z)[4..8] == y && (x + y + z)[8..12] == z;
    Widths();
    LeRoundTrip(speech, 4);
    LeRoundTrip(output, 4);
    LeRoundTrip(echo, 4);
  }

  lemma EncodedFields(p: MediaPacket)
    ensures var a := p.audio;
            Fields(Encoded(p), p.kind, p.sequence, p.mediaTimeUs, OrNil(p.generation), a.sampleRate, a.frameDurationMs,
                   a.channels, OrNan(a.speechProbability), OrNan(a.outputLevel), OrNan(a.echoProbability), a.pcm)
  {
    var a, b := p.audio, Encoded(p);
    hide Le, FromLe;
    var stamp, format := Stamp(p.sequence, p.mediaTimeUs), Format(a.sampleRate, a.frameDurationMs, a.channels);
    var meters := Meters(OrNan(a.speechProbability), OrNan(a.outputLevel), OrNan(a.echoProbability));
    var head := Head(p.kind);
    assert Cut(b, head, stamp, OrNil(p.generation), format, meters, a.pcm);
    CutSlices(b, head, stamp, OrNil(p.generation), format, meters, a.pcm);
    hide Encoded, Cut, Stamp, Format, Meters;
    StampRead(b, p.sequence, p.mediaTimeUs);
    FormatRead(b, a.sampleRate, a.frameDurationMs, a.channels);
    MetersRead(b, OrNan(a.speechProbability), OrNan(a.outputLevel), OrNan(a.echoProbability));
    SliceOfSlice(b, 0, 8, 0, 4);
    assert head[0..4] == MAGIC && head[4] == WIRE_VERSION && head[5] == KindCode(p.kind);
    assert b[4] == b[0..8][4] && b[5] == b[0..8][5];
  }

  // ---------- decoding what was encoded ----------

  function Finite(f: Option<F32>): Option<F32> {
    if f.Some? && IsFinite(f.value) then f else None
  }

  // A packet without what the format cannot carry: the nil generation and non-finite meters.
  function Normal(p: MediaPacket): MediaPacket {
    var a := p.audio;
    p.(generation := if p.generation == Some(NIL) then None else p.generation,
       audio := a.(speechProbability := Finite(a.speechProbability), outputLevel := Finite(a.outputLevel),
                   echoProbability := Finite(a.echoProbability)))
  }

  lemma NanNotFinite()
    ensures !IsFinite(NAN_BITS)
  {
  }

  // Every packet decodes to itself, less what the format cannot carry, or is refused for the reason
  // given.
  lemma DecodeOfEncode(p: MediaPacket)
    ensures Decode(Encoded(p)) ==
            if p.audio.pcm == [] then Err(MissingPayload)
            else if !GoodMetadata(p.audio.channels, p.audio.sampleRate, p.audio.frameDurationMs)
            then Err(InvalidAudioMetadata)
            else Ok(Normal(p))
  {
    EncodedFields(p);
    NanNotFinite();
    hide Encoded, ReadU64, ReadU32, ReadU16, IsFinite, GoodMetadata;
  }

  predicate NoNanBits(f: Option<F32>) {
    f.Some? ==> IsFinite(f.value)
  }

  // Exactly which packets survive the round trip unchanged.
  lemma RoundTripExactly(p: MediaPacket)
    ensures Decode(Encoded(p)) == Ok(p) <==>
            p.audio.pcm != [] && GoodMetadata(p.audio.channels, p.audio.sampleRate, p.audio.frameDurationMs) &&
            p.generation != Some(NIL) &&
            NoNanBits(p.audio.speechProbability) && NoNanBits(p.audio.outputLevel) && NoNanBits(p.audio.echoProbability)
  {
    DecodeOfEncode(p);
    hide Decode, Encoded, IsFinite, GoodMetadata;
  }

  // ---------- encoding what was decoded ----------

  // Four bytes of a meter as they come back: non-finite numbers collapse to one pattern.
  function Meter(b: seq<Byte>, offset: nat): seq<Byte>
    requires offset + 4 <= |b|
  {
    if IsFinite(ReadU32(b, offset)) then b[offset..offset + 4] else Le(NAN_BITS, 4)
  }

  // An accepted byte string with its reserved bytes zeroed and its meters collapsed.
  function Canonical(b: seq<Byte>): seq<Byte>
    requires |b| >= HEADER_LEN
  {
    b[0..6] + [0, 0] + b[8..47] + [0] + Meter(b, 48) + Meter(b, 52) + Meter(b, 56) + b[60..]
  }

  lemma MeterBack(b: seq<Byte>, offset: nat)
    requires offset + 4 <= |b|
    ensures Le(OrNan(IfFinite(ReadU32(b, offset))), 4) == Meter(b, offset)
  {
    FromLeRoundTrip(b[offset..offset + 4]);
    hide Le, FromLe, IsFinite;
  }

  lemma StampBack(b: seq<Byte>)
    requires |b| >= HEADER_LEN
    ensures Stamp(ReadU64(b, 8), ReadU64(b, 16)) == b[8..24]
  {
    FromLeRoundTrip(b[8..16]);
    FromLeRoundTrip(b[16..24]);
    hide Le, FromLe;
    assert b[8..16] + b[16..24] == b[8..24];
  }

  lemma FormatBack(b: seq<Byte>)
    requires |b| >= HEADER_LEN
    ensures Format(ReadU32(b, 40), ReadU16(b, 44), b[46]) == b[40..47] + [0]
  {
    FromLeRoundTrip(b[40..44]);
    FromLeRoundTrip(b[44..46]);
    hide Le, FromLe;
    assert b[40..44] + b[44..46] + [b[46], 0] == b[40..47] + [0];
  }

  // Encoding what was decoded gives the bytes back up to the reserved ones and non-finite meters.
  lemma EncodeOfDecode(b: seq<Byte>)
    requires Decode(b).Ok?
    ensures Encoded(Decode(b).value) == Canonical(b)
  {
    var p := Decode(b).value;
    hide Le, FromLe, IsFinite, ReadU16, ReadU32, ReadU64, GoodMetadata, Meter, Stamp, Format;
    MeterBack(b, 48);
    MeterBack(b, 52);
    MeterBack(b, 56);
    StampBack(b);
    FormatBack(b);
    assert Head(p.kind) == b[0..6] + [0, 0] by {
      assert b[0..6] == b[..4] + [b[4], b[5]];
    }
    assert OrNil(p.generation) == b[24..40];
    var m := Meter(b, 48) + Meter(b, 52) + Meter(b, 56);
    assert Encoded(p) == (b[0..6] + [0, 0]) + b[8..24] + b[24..40] + (b[40..47] + [0]) + m + b[60..];
    hide Encoded, Decode, Head;
    Rejoined(b, m);
  }

  lemma Rejoined(b: seq<Byte>, m: seq<Byte>)
    requires |b| >= HEADER_LEN && m == Meter(b, 48) + Meter(b, 52) + Meter(b, 56)
    ensures (b[0..6] + [0, 0]) + b[8..24] + b[24..40] + (b[40..47] + [0]) + m + b[60..] == Canonical(b)
  {
    hide Meter;
    var head, tail := b[0..6] + [0, 0], b[60..];
    assert b[8..24] + b[24..40] + b[40..47] == b[8..47];
    Regroup(head, b[8..24], b[24..40], b[40..47], [0]);
    assert head + b[8..47] + [0] + m + tail ==
           head + b[8..47] + [0] + Meter(b, 48) + Meter(b, 52) + Meter(b, 56) + tail;
  }

  lemma Regroup(a: seq<Byte>, b: seq<Byte>, c: seq<Byte>, d: seq<Byte>, e: seq<Byte>)
    ensures a + b + c + (d + e) == a + (b + c + d) + e
  {
  }

  predicate PlainMeter(f: F32) {
    IsFinite(f) || f == NAN_BITS
  }

  lemma MeterPlain(b: seq<Byte>, offset: nat)
    requires offset + 4 <= |b|
    ensures |Meter(b, offset)| == 4
    ensures Meter(b, offset) == b[offset..offset + 4] <==> PlainMeter(ReadU32(b, offset))
  {
    FromLeRoundTrip(b[offset..offset + 4]);
    Widths();
    LeRoundTrip(NAN_BITS, 4);
    hide Le, FromLe, IsFinite;
  }

  // Exactly which accepted byte strings come back unchanged.
  lemma BytesSurviveExactly(b: seq<Byte>)
    requires Decode(b).Ok?
    ensures Encoded(Decode(b).value) == b <==>
            b[6] == 0 && b[7] == 0 && b[47] == 0 &&
            PlainMeter(ReadU32(b, 48)) && PlainMeter(ReadU32(b, 52)) && PlainMeter(ReadU32(b, 56))
  {
    EncodeOfDecode(b);
    MeterPlain(b, 48);
    MeterPlain(b, 52);
    MeterPlain(b, 56);
    assert |b| >= HEADER_LEN;
    hide Encoded, Decode, ReadU32, PlainMeter, Meter;
    CanonicalSame(b);
  }

  lemma SplitEqual(a: seq<Byte>, b: seq<Byte>, c: seq<Byte>, d: seq<Byte>)
    requires |a| == |c|
    ensures a + b == c + d <==> a == c && b == d
  {
    if a + b == c + d {
      assert (a + b)[..|a|] == a && (c + d)[..|c|] == c;
      assert (a + b)[|a|..] == b && (c + d)[|c|..] == d;
    }
  }

  lemma CanonicalSame(b: seq<Byte>)
    requires |b| >= HEADER_LEN
    ensures Canonical(b) == b <==>
            b[6] == 0 && b[7] == 0 && b[47] == 0 &&
            Meter(b, 48) == b[48..52] && Meter(b, 52) == b[52..56] && Meter(b, 56) == b[56..60]
  {
    MeterPlain(b, 48);
    MeterPlain(b, 52);
    MeterPlain(b, 56);
    hide Meter;
    WholeFromParts(b);
    var x1, y1 := b[0..6] + [0, 0], b[0..6] + [b[6], b[7]];
    var x2, y2 := x1 + b[8..47], y1 + b[8..47];
    var x3, y3 := x2 + [0], y2 + [b[47]];
    var x4, y4 := x3 + Meter(b, 48), y3 + b[48..52];
    var x5, y5 := x4 + Meter(b, 52), y4 + b[52..56];
    var x6, y6 := x5 + Meter(b, 56), y5 + b[56..60];
    SplitEqual(x6, b[60..], y6, b[60..]);
    SplitEqual(x5, Meter(b, 56), y5, b[56..60]);
    SplitEqual(x4, Meter(b, 52), y4, b[52..56]);
    SplitEqual(x3, Meter(b, 48), y3, b[48..52]);
    SplitEqual(x2, [0], y2, [b[47]]);
    SplitEqual(x1, b[8..47], y1, b[8..47]);
    SplitEqual(b[0..6], [0, 0], b[0..6], [b[6], b[7]]);
    assert [0] == [b[47]] <==> b[47] == 0;
    assert [0, 0] == [b[6], b[7]] <==> b[6] == 0 && b[7] == 0;
  }

  lemma WholeFromParts(b: seq<Byte>)
    requires |b| >= HEADER_LEN
    ensures b == b[0..6] + [b[6], b[7]] + b[8..47] + [b[47]] + b[48..52] + b[52..56] + b[56..60] + b[60..]
  {
  }

  // ---------- the layout, byte by byte ----------

  // Where every byte of a packet comes from; `Part(n, i)` is the byte of weight 256^i.
  function Part(n: nat, i: nat): Byte {
    n / Pow256(i) % 256
  }

  lemma LayoutIs(p: MediaPacket, i: nat)
    ensures var b, a := Encoded(p), p.audio;
            && |b| == 60 + |a.pcm|
            && b[0..4] == [0x4f, 0x4c, 0x49, 0x56] && b[4] == 1 && b[5] == (if p.kind == InputAudio then 1 else 2)
            && b[6] == 0 && b[7] == 0
            && (i < 8 ==> b[8 + i] == Part(p.sequence, i) && b[16 + i] == Part(p.mediaTimeUs, i))
            && (i < 16 ==> b[24 + i] == if p.generation.Some? then p.generation.value[i] else 0)
            && (i < 4 ==> b[40 + i] == Part(a.sampleRate, i))
            && (i < 2 ==> b[44 + i] == Part(a.frameDurationMs, i))
            && b[46] == a.channels && b[47] == 0
            && (i < 4 ==>
                  && b[48 + i] == Part(if a.speechProbability.Some? then a.speechProbability.value else 0x7fc0_0000, i)
                  && b[52 + i] == Part(if a.outputLevel.Some? then a.outputLevel.value else 0x7fc0_0000, i)
                  && b[56 + i] == Part(if a.echoProbability.Some? then a.echoProbability.value else 0x7fc0_0000, i))
            && (i < |a.pcm| ==> b[60 + i] == a.pcm[i])
  {
    var a := p.audio;
    hide Le;
    if i < 8 {
      LeAt(p.sequence, 8, i);
      LeAt(p.mediaTimeUs, 8, i);
    }
    if i < 4 {
      LeAt(a.sampleRate, 4, i);
      LeAt(OrNan(a.speechProbability), 4, i);
      LeAt(OrNan(a.outputLevel), 4, i);
      LeAt(OrNan(a.echoProbability), 4, i);
    }
    if i < 2 {
      LeAt(a.frameDurationMs, 2, i);
    }
  }

  // Exactly which bytes are a packet.
  lemma AcceptedExactly(b: seq<Byte>)
    ensures Decode(b).Ok? <==>
              && |b| > 60 && b[0] == 0x4f && b[1] == 0x4c && b[2] == 0x49 && b[3] == 0x56
              && b[4] == 1 && (b[5] == 1 || b[5] == 2) && b[46] == 1
              && 8_000 <= b[40] as nat + 0x100 * b[41] as nat + 0x1_0000 * b[42] as nat + 0x100_0000 * b[43] as nat
              && b[40] as nat + 0x100 * b[41] as nat + 0x1_0000 * b[42] as nat + 0x100_0000 * b[43] as nat <= 48_000
              && 5 <= b[44] as nat + 0x100 * b[45] as nat <= 100
  {
    if |b| >= 60 {
      assert b[..4] == [b[0], b[1], b[2], b[3]];
      FourBytes(b[40..44]);
      TwoBytes(b[44..46]);
    }
  }

  lemma TwoBytes(s: seq<Byte>)
    requires |s| == 2
    ensures FromLe(s) == s[0] as nat + 0x100 * s[1] as nat
  {
    assert FromLe(s[1..]) == s[1] + 256 * FromLe(s[1..][1..]);
  }

  lemma FourBytes(s: seq<Byte>)
    requires |s| == 4
    ensures FromLe(s) == s[0] as nat + 0x100 * s[1] as nat + 0x1_0000 * s[2] as nat + 0x100_0000 * s[3] as nat
  {
    TwoBytes(s[2..]);
    assert FromLe(s[1..]) == s[1] + 256 * FromLe(s[1..][1..]);
    assert s[1..][1..] == s[2..];
  }
}

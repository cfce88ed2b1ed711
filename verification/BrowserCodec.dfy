// The browser's half of the media packet codec, and its agreement with the gateway's.
module BrowserCodec {
  import opened Arithmetic
  import opened Protocol
  import opened Bytes
  import opened MediaCodec

  // ---------- what the browser sends ----------

  // Numbers as the caller passes them; the buffer's setters wrap them to their field.
  datatype InputAudioFields = InputAudioFields(
    sequence: nat, mediaTimeUs: nat, pcm: seq<Byte>, sampleRate: nat, frameDurationMs: nat,
    speechProbability: F32, outputLevel: F32, echoProbability: F32)

  // The packet the gateway would call this.
  function PacketOf(i: InputAudioFields): MediaPacket {
    MediaPacket(
      InputAudio, i.sequence % 0x1_0000_0000_0000_0000, i.mediaTimeUs % 0x1_0000_0000_0000_0000, None,
      PcmAudioFrame(i.pcm, i.sampleRate % 0x1_0000_0000, 1, i.frameDurationMs % 0x1_0000,
                    Some(i.speechProbability), Some(i.outputLevel), Some(i.echoProbability)))
  }

  lemma NextByte(all: seq<Byte>, i: nat, rest: nat, left: nat)
    requires left > 0 && i + left == |all| && all == all[..i] + Le(rest, left)
    ensures all[..i + 1] == all[..i] + [rest % 256] && all == all[..i + 1] + Le(rest / 256, left - 1)
  {
    var tail := Le(rest, left);
    assert tail == [rest % 256] + Le(rest / 256, left - 1);
    hide Le;
    assert all[i] == tail[0];
  }

  // Writes the low `k` bytes of `n` at `offset`.
  method SetLe(packet: array<Byte>, offset: nat, n: nat, k: nat)
    requires offset + k <= packet.Length
    modifies packet
    ensures packet[..] == old(packet[..offset]) + Le(n, k) + old(packet[offset + k..])
  {
    hide Le;
    ghost var before := packet[..];
    var rest := n;
    for i := 0 to k
      invariant Le(n, k) == Le(n, k)[..i] + Le(rest, k - i)
      invariant packet[..] == before[..offset] + Le(n, k)[..i] + before[offset + i..]
    {
      NextByte(Le(n, k), i, rest, k - i);
      packet[offset + i] := rest % 256;
      rest := rest / 256;
    }
    assert Le(n, k)[..k] == Le(n, k);
  }

  method SetBytes(packet: array<Byte>, offset: nat, source: seq<Byte>)
    requires offset + |source| <= packet.Length
    modifies packet
    ensures packet[..] == old(packet[..offset]) + source + old(packet[offset + |source|..])
  {
    ghost var before := packet[..];
    for i := 0 to |source|
      invariant packet[..] == before[..offset] + source[..i] + before[offset + i..]
    {
      assert source[..i + 1] == source[..i] + [source[i]];
      packet[offset + i] := source[i];
    }
    assert source[..|source|] == source;
  }

  function Zeros(n: nat): (z: seq<Byte>)
    ensures |z| == n
  {
    seq(n, _ => 0)
  }

  // What overwriting the start of the zeros does.
  lemma Overwritten(done: seq<Byte>, part: seq<Byte>, n: nat)
    requires |part| <= n
    ensures var before := done + Zeros(n);
            before[..|done|] + part + before[|done| + |part|..] == done + part + Zeros(n - |part|)
  {
  }

  lemma ZerosSplit(done: seq<Byte>, n: nat, k: nat)
    requires k <= n
    ensures done + Zeros(n) == done + Zeros(k) + Zeros(n - k)
  {
  }

  // The buffer holds `done` and zeros after it.
  ghost predicate Filled(packet: array<Byte>, done: seq<Byte>)
    reads packet
  {
    |done| <= packet.Length && packet[..] == done + Zeros(packet.Length - |done|)
  }

  method PutLe(packet: array<Byte>, offset: nat, n: nat, k: nat, ghost done: seq<Byte>)
    requires Filled(packet, done) && |done| == offset && offset + k <= packet.Length
    modifies packet
    ensures Filled(packet, done + Le(n, k))
  {
    hide Zeros, Le;
    Overwritten(done, Le(n, k), packet.Length - offset);
    assert packet[..offset] == packet[..][..offset] && packet[offset + k..] == packet[..][offset + k..];
    SetLe(packet, offset, n, k);
  }

  method PutBytes(packet: array<Byte>, offset: nat, source: seq<Byte>, ghost done: seq<Byte>)
    requires Filled(packet, done) && |done| == offset && offset + |source| <= packet.Length
    modifies packet
    ensures Filled(packet, done + source)
  {
    hide Zeros;
    Overwritten(done, source, packet.Length - offset);
    assert packet[..offset] == packet[..][..offset] && packet[offset + |source|..] == packet[..][offset + |source|..];
    SetBytes(packet, offset, source);
  }

  // Zeros left in place count as written.
  lemma LeftZero(packet: array<Byte>, done: seq<Byte>, k: nat)
    requires Filled(packet, done) && |done| + k <= packet.Length
    ensures Filled(packet, done + Zeros(k))
  {
    ZerosSplit(done, packet.Length - |done|, k);
  }

  method EncodeInputAudio(i: InputAudioFields) returns (packet: array<Byte>)
    ensures fresh(packet) && packet[..] == Encoded(PacketOf(i))
  {
    var n := HEADER_LEN + |i.pcm|;
    packet := new Byte[n](_ => 0);
    ghost var done: seq<Byte> := [];
    assert packet[..] == done + Zeros(n);
    hide Filled, Le, Zeros, Encoded;
    PutBytes(packet, 0, MAGIC, done);
    done := done + MAGIC;
    PutLe(packet, 4, 1, 1, done);
    done := done + Le(1, 1);
    PutLe(packet, 5, 1, 1, done);
    done := done + Le(1, 1);
    LeftZero(packet, done, 2);
    done := done + Zeros(2);
    PutLe(packet, 8, i.sequence, 8, done);
    done := done + Le(i.sequence, 8);
    PutLe(packet, 16, i.mediaTimeUs, 8, done);
    done := done + Le(i.mediaTimeUs, 8);
    LeftZero(packet, done, 16);
    done := done + Zeros(16);
    PutLe(packet, 40, i.sampleRate, 4, done);
    done := done + Le(i.sampleRate, 4);
    PutLe(packet, 44, i.frameDurationMs, 2, done);
    done := done + Le(i.frameDurationMs, 2);
    PutLe(packet, 46, 1, 1, done);
    done := done + Le(1, 1);
    LeftZero(packet, done, 1);
    done := done + Zeros(1);
    PutLe(packet, 48, i.speechProbability, 4, done);
    done := done + Le(i.speechProbability, 4);
    PutLe(packet, 52, i.outputLevel, 4, done);
    done := done + Le(i.outputLevel, 4);
    PutLe(packet, 56, i.echoProbability, 4, done);
    done := done + Le(i.echoProbability, 4);
    PutBytes(packet, HEADER_LEN, i.pcm, done);
    done := done + i.pcm;
    FilledWhole(packet, done);
    SameLayout(i);
  }

  lemma FilledWhole(packet: array<Byte>, done: seq<Byte>)
    requires Filled(packet, done) && |done| == packet.Length
    ensures packet[..] == done
  {
  }

  lemma SameLayout(i: InputAudioFields)
    ensures [] + MAGIC + Le(1, 1) + Le(1, 1) + Zeros(2) + Le(i.sequence, 8) + Le(i.mediaTimeUs, 8) + Zeros(16) +
            Le(i.sampleRate, 4) + Le(i.frameDurationMs, 2) + Le(1, 1) + Zeros(1) +
            Le(i.speechProbability, 4) + Le(i.outputLevel, 4) + Le(i.echoProbability, 4) + i.pcm == Encoded(PacketOf(i))
  {
    var p := PacketOf(i);
    Widths();
    LeWraps(i.sequence, 8);
    LeWraps(i.mediaTimeUs, 8);
    LeWraps(i.sampleRate, 4);
    LeWraps(i.frameDurationMs, 2);
    assert Le(1, 1) == [1] by {
      assert Le(0, 0) == [];
    }
    assert Zeros(2) == [0, 0] && Zeros(1) == [0] && Zeros(16) == NIL;
    hide Le, Zeros;
    HeadLayout();
    var head := Head(InputAudio);
    var a, b, c, d := Le(p.sequence, 8), Le(p.mediaTimeUs, 8), Le(p.audio.sampleRate, 4),
      Le(p.audio.frameDurationMs, 2);
    var x, y, z := Le(i.speechProbability, 4), Le(i.outputLevel, 4), Le(i.echoProbability, 4);
    Associate(head, a, b, NIL, c, d, x, y, z, i.pcm);
    assert Encoded(p) == head + (a + b) + NIL + (c + d + [1, 0]) + (x + y + z) + i.pcm;
  }

  lemma HeadLayout()
    ensures [] + MAGIC + [1] + [1] + [0, 0] == Head(InputAudio)
  {
  }

  lemma Associate(head: seq<Byte>, a: seq<Byte>, b: seq<Byte>, id: seq<Byte>, c: seq<Byte>, d: seq<Byte>,
                  x: seq<Byte>, y: seq<Byte>, z: seq<Byte>, pcm: seq<Byte>)
    ensures head + a + b + id + c + d + [1] + [0] + x + y + z + pcm ==
            head + (a + b) + id + (c + d + [1, 0]) + (x + y + z) + pcm
  {
    assert head + a + b == head + (a + b);
    var front := head + (a + b) + id;
    assert front + c + d + [1] + [0] == front + (c + d + [1, 0]);
    var middle := front + (c + d + [1, 0]);
    assert middle + x + y + z == middle + (x + y + z);
  }

  // Whatever the browser sends decodes in the gateway to the same fields, with no generation, or is
  // refused: the payload must not be empty, and rate and duration as they fit their fields must be
  // in range.
  lemma GatewayReadsBrowser(i: InputAudioFields)
    ensures var rate, duration := i.sampleRate % 0x1_0000_0000, i.frameDurationMs % 0x1_0000;
            Decode(Encoded(PacketOf(i))) ==
            if i.pcm == [] then Err(MissingPayload)
            else if !(8_000 <= rate <= 48_000 && 5 <= duration <= 100) then Err(InvalidAudioMetadata)
            else Ok(MediaPacket(
                      InputAudio, i.sequence % 0x1_0000_0000_0000_0000, i.mediaTimeUs % 0x1_0000_0000_0000_0000, None,
                      PcmAudioFrame(i.pcm, rate, 1, duration,
                                    IfFinite(i.speechProbability), IfFinite(i.outputLevel),
                                      IfFinite(i.echoProbability))))
  {
    DecodeOfEncode(PacketOf(i));
    hide Decode, Encoded, IsFinite;
  }

  // ---------- numbers ----------

  const EXACT: nat := 0x20_0000_0000_0000   // 2^53

  // A natural number with at most 53 significant bits.
  ghost predicate IsDouble(m: nat) {
    exists q: nat, k: nat :: IsScaled(m, q, k)
  }

  predicate IsScaled(m: nat, q: nat, k: nat) {
    q < EXACT && m == q * Pow2(k)
  }

  // The exponent of the spacing of double-precision numbers around `n`.
  function Exponent(n: nat): nat {
    if n < EXACT then 0 else 1 + Exponent(n / 2)
  }

  // The conversion of a 64-bit integer to a number: to a neighbouring multiple of the spacing.
  function ToNumber(n: nat): nat {
    var s := Pow2(Exponent(n));
    var q, r := n / s, n % s;
    if 2 * r < s || (2 * r == s && q % 2 == 0) then s * q else s * (q + 1)
  }

  lemma {:induction false} ExponentBounds(n: nat)
    ensures n < EXACT * Pow2(Exponent(n))
    ensures Exponent(n) > 0 ==> EXACT * Pow2(Exponent(n) - 1) <= n
  {
    if n >= EXACT {
      ExponentBounds(n / 2);
    }
  }

  lemma Pow2Zero()
    ensures Pow2(0) == 1
  {
  }

  lemma SmallScaled(q: nat, k: nat, e: nat)
    requires q < EXACT && k < e
    ensures q * Pow2(k) < EXACT * Pow2(e - 1)
  {
    var p := Pow2(e - 1);
    Pow2Mono(k, e - 1);
    ProductGrows(Pow2(k), p, q);
    ProductGrows(q + 1, EXACT, p);
    assert (q + 1) * p == q * p + p;
  }

  // From half the top of the binade on, doubles are multiples of its spacing.
  lemma LargeDouble(m: nat, e: nat) returns (c: nat)
    requires IsDouble(m) && (e > 0 ==> EXACT * Pow2(e - 1) <= m)
    ensures m == c * Pow2(e)
  {
    Pow2Zero();
    hide Pow2;
    var q: nat, k: nat :| IsScaled(m, q, k);
    if e == 0 {
      c := m;
    } else {
      if k < e {
        SmallScaled(q, k, e);
      }
      Pow2Product(k - e, e);
      c := q * Pow2(k - e);
      assert q * (Pow2(k - e) * Pow2(e)) == c * Pow2(e);
    }
  }

  lemma ProductGrows(a: nat, b: nat, c: nat)
    requires a <= b
    ensures a * c <= b * c && c * a <= c * b
  {
  }

  // `n` lies between two neighbouring doubles, one spacing apart.
  lemma Neighbours(n: nat, s: nat, q: nat)
    requires s == Pow2(Exponent(n)) && q == n / s
    ensures IsDouble(s * q) && IsDouble(s * (q + 1))
    ensures forall m: nat :: IsDouble(m) ==> m <= s * q || s * (q + 1) <= m
  {
    hide Pow2, Exponent;
    var e := Exponent(n);
    assert n == s * q + n % s && s * (q + 1) == s * q + s;
    ExponentBounds(n);
    if q >= EXACT {
      ProductGrows(EXACT, q, s);
    }
    assert IsScaled(s * q, q, e);
    if q + 1 < EXACT {
      assert IsScaled(s * (q + 1), q + 1, e);
    } else {
      Pow2Of53(e);
      assert IsScaled(s * (q + 1), 1, e + 53);
    }
    forall m: nat | IsDouble(m) ensures m <= s * q || s * (q + 1) <= m {
      if s * q < m < s * (q + 1) {
        NoneBetween(n, s, q, m);
      }
    }
  }

  lemma Pow2Of53(e: nat)
    ensures EXACT * Pow2(e) == Pow2(e + 53)
  {
    hide Pow2;
    PowersUpTo8();
    Pow2Product(8, 8);
    Pow2Product(16, 16);
    Pow2Product(32, 16);
    Pow2Product(48, 5);
    Pow2Product(53, e);
  }

  lemma PowersUpTo8()
    ensures Pow2(5) == 32 && Pow2(8) == 256
  {
    assert Pow2(3) == 8;
    assert Pow2(5) == 32;
    assert Pow2(7) == 128;
  }

  lemma QuotientLarge(s: nat, q: nat, r: nat, low: nat)
    requires r < s && low * s <= s * q + r
    ensures low <= q
  {
    assert s * (q + 1) == s * q + s;
    if q < low {
      ProductGrows(q + 1, low, s);
    }
  }

  lemma NoneBetween(n: nat, s: nat, q: nat, m: nat)
    requires s == Pow2(Exponent(n)) && q == n / s && IsDouble(m)
    ensures !(s * q < m < s * (q + 1))
  {
    var e := Exponent(n);
    ExponentBounds(n);
    assert n == s * q + n % s;
    if s * q < m < s * (q + 1) {
      if e > 0 {
        assert EXACT * Pow2(e - 1) == (EXACT / 2) * s;
        QuotientLarge(s, q, n % s, EXACT / 2);
        ProductGrows(EXACT / 2, q, s);
      }
      var c := LargeDouble(m, e);
      if c <= q {
        ProductGrows(c, q, s);
      } else {
        ProductGrows(q + 1, c, s);
      }
    }
  }

  function Distance(a: nat, b: nat): nat {
    if a < b then b - a else a - b
  }

  // What `ToNumber` picks, in terms of the neighbours.
  lemma Picks(n: nat, s: nat, q: nat)
    requires s == Pow2(Exponent(n)) && q == n / s
    ensures var lo, t := s * q, ToNumber(n);
            && s * (q + 1) == lo + s && lo <= n < lo + s
            && (t == lo ==> 2 * (n - lo) <= s && (2 * (n - lo) == s ==> t / s % 2 == 0))
            && (t != lo ==> t == lo + s && 2 * (n - lo) >= s && (2 * (n - lo) == s ==> t / s % 2 == 0))
  {
    hide Exponent, Pow2;
    assert n == s * q + n % s && s * (q + 1) == s * q + s;
    DivUnique(s, q, 0);
    DivUnique(s, q + 1, 0);
  }

  // The conversion rounds to the nearest double, and of two equally near ones takes the one whose
  // last bit, in units of the spacing, is even.
  lemma RoundsToNearest(n: nat)
    ensures IsDouble(ToNumber(n))
    ensures forall m: nat :: IsDouble(m) ==> Distance(ToNumber(n), n) <= Distance(m, n)
    ensures forall m: nat :: IsDouble(m) && m != ToNumber(n) && Distance(m, n) == Distance(ToNumber(n), n) ==>
              ToNumber(n) / Pow2(Exponent(n)) % 2 == 0
  {
    hide IsDouble, ToNumber, Exponent, Pow2;
    var s := Pow2(Exponent(n));
    var q := n / s;
    Neighbours(n, s, q);
    Picks(n, s, q);
  }

  // A 64-bit field arrives exactly when it has at most 53 significant bits, so always up to 2^53.
  lemma ArrivesExactly(n: nat)
    ensures ToNumber(n) == n <==> IsDouble(n)
    ensures n <= EXACT ==> IsDouble(n)
  {
    RoundsToNearest(n);
    hide ToNumber, Exponent;
    if IsDouble(n) {
      assert Distance(ToNumber(n), n) <= Distance(n, n);
    }
    if n < EXACT {
      assert Pow2(0) == 1 && IsScaled(n, n, 0);
    } else if n == EXACT {
      Pow2Of53(0);
      assert IsScaled(n, 1, 53);
    }
  }

  // ---------- what the browser receives ----------

  datatype OutputError = InvalidPacket | UnsupportedPacket | OddPayload

  datatype OutputAudioFields = OutputAudioFields(
    sequence: nat, mediaTimeUs: nat, generationId: string, sampleRate: nat, pcm: seq<int>)

  function Hex(nibble: nat): char
    requires nibble < 16
  {
    "0123456789abcdef"[nibble]
  }

  // Two lower-case digits a byte.
  function HexOf(bytes: seq<Byte>): (text: string)
    ensures |text| == 2 * |bytes|
  {
    if bytes == [] then ""
    else HexOf(bytes[..|bytes| - 1]) + [Hex(bytes[|bytes| - 1] / 16), Hex(bytes[|bytes| - 1] % 16)]
  }

  function UuidFromBytes(bytes: Uuid): string {
    var hex := HexOf(bytes);
    hex[0..8] + "-" + hex[8..12] + "-" + hex[12..16] + "-" + hex[16..20] + "-" + hex[20..]
  }

  // Signed 16-bit samples, least significant byte first; an odd byte at the end is ignored.
  function Samples(bytes: seq<Byte>): seq<int> {
    seq(|bytes| / 2, i requires 0 <= i < |bytes| / 2 =>
      var u: int := bytes[2 * i] as int + 256 * (bytes[2 * i + 1] as int);
      if u < 0x8000 then u else u - 0x1_0000)
  }

  function DecodeOutputAudio(b: seq<Byte>): Result<OutputAudioFields, OutputError> {
    if |b| < HEADER_LEN || b[..4] != MAGIC then Err(InvalidPacket)
    else if b[4] != 1 || b[5] != 2 then Err(UnsupportedPacket)
    else if (|b| - HEADER_LEN) % 2 != 0 then Err(OddPayload)
    else
      Ok(OutputAudioFields(ToNumber(ReadU64(b, 8)), ToNumber(ReadU64(b, 16)), UuidFromBytes(ReadId(b)), ReadU32(b, 40),
                           Samples(b[HEADER_LEN..])))
  }

  // Whatever the gateway sends arrives in the browser with the same fields, numbers rounded to
  // doubles; it must be output audio and hold whole samples.
  lemma BrowserReadsGateway(p: MediaPacket)
    ensures DecodeOutputAudio(Encoded(p)) ==
            if p.kind == InputAudio then Err(UnsupportedPacket)
            else if |p.audio.pcm| % 2 != 0 then Err(OddPayload)
            else Ok(OutputAudioFields(ToNumber(p.sequence), ToNumber(p.mediaTimeUs), UuidFromBytes(OrNil(p.generation)),
                                      p.audio.sampleRate, Samples(p.audio.pcm)))
  {
    EncodedFields(p);
    hide Encoded, ReadU64, ReadU32, ReadU16, UuidFromBytes, Samples, ToNumber;
  }

  // ---------- nothing is lost in the text or the samples ----------

  lemma {:induction false} HexInjective(a: seq<Byte>, b: seq<Byte>)
    requires |a| == |b| && HexOf(a) == HexOf(b)
    ensures a == b
  {
    hide Hex;
    if a != [] {
      var n := |a| - 1;
      assert HexOf(a)[..2 * n] == HexOf(a[..n]) && HexOf(b)[..2 * n] == HexOf(b[..n]);
      HexInjective(a[..n], b[..n]);
      assert HexOf(a)[2 * n] == HexOf(b)[2 * n] && HexOf(a)[2 * n + 1] == HexOf(b)[2 * n + 1];
      HexDigits(a[n] / 16, b[n] / 16);
      HexDigits(a[n] % 16, b[n] % 16);
      assert a == a[..n] + [a[n]] && b == b[..n] + [b[n]];
    }
  }

  lemma HexDigits(i: nat, j: nat)
    requires i < 16 && j < 16 && Hex(i) == Hex(j)
    ensures i == j
  {
    var digits := "0123456789abcdef";
    assert digits[0] == '0' && digits[1] == '1' && digits[2] == '2' && digits[3] == '3';
    assert digits[4] == '4' && digits[5] == '5' && digits[6] == '6' && digits[7] == '7';
    assert digits[8] == '8' && digits[9] == '9' && digits[10] == 'a' && digits[11] == 'b';
    assert digits[12] == 'c' && digits[13] == 'd' && digits[14] == 'e' && digits[15] == 'f';
  }

  // The text form of RFC 9562, section 4: groups of 4, 2, 2, 2 and 6 bytes.
  function RfcText(u: Uuid): string {
    HexOf(u[0..4]) + "-" + HexOf(u[4..6]) + "-" + HexOf(u[6..8]) + "-" + HexOf(u[8..10]) + "-" + HexOf(u[10..16])
  }

  lemma {:induction false} HexConcat(a: seq<Byte>, b: seq<Byte>)
    ensures HexOf(a + b) == HexOf(a) + HexOf(b)
  {
    hide Hex;
    if b == [] {
      assert a + b == a;
    } else {
      var n := |b| - 1;
      HexConcat(a, b[..n]);
      assert (a + b)[..|a + b| - 1] == a + b[..n];
    }
  }

  lemma HexSlice(u: Uuid, from: nat, to: nat)
    requires from <= to <= 16
    ensures HexOf(u)[2 * from..2 * to] == HexOf(u[from..to])
  {
    var a, b, c := u[..from], u[from..to], u[to..];
    assert u == a + (b + c);
    HexConcat(a, b + c);
    HexConcat(b, c);
    var x, y, z := HexOf(a), HexOf(b), HexOf(c);
    assert HexOf(u) == x + (y + z);
    assert (x + (y + z))[|x|..|x| + |y|] == y;
  }

  lemma UuidTextIsRfc(u: Uuid)
    ensures UuidFromBytes(u) == RfcText(u)
  {
    HexSlice(u, 0, 4);
    HexSlice(u, 4, 6);
    HexSlice(u, 6, 8);
    HexSlice(u, 8, 10);
    HexSlice(u, 10, 16);
    hide HexOf;
  }

  lemma UuidTextInjective(u: Uuid, v: Uuid)
    requires UuidFromBytes(u) == UuidFromBytes(v)
    ensures u == v
  {
    var x, y := HexOf(u), HexOf(v);
    HexParts(u);
    HexParts(v);
    HexInjective(u, v);
  }

  lemma HexParts(u: Uuid)
    ensures var t := UuidFromBytes(u);
            |t| == 36 && HexOf(u) == t[0..8] + t[9..13] + t[14..18] + t[19..23] + t[24..]
  {
    var hex, t := HexOf(u), UuidFromBytes(u);
    hide HexOf;
    assert t[0..8] == hex[0..8] && t[9..13] == hex[8..12] && t[14..18] == hex[12..16];
    assert t[19..23] == hex[16..20] && t[24..] == hex[20..];
  }

  lemma SamplesInjective(a: seq<Byte>, b: seq<Byte>)
    requires |a| == |b| && |a| % 2 == 0 && Samples(a) == Samples(b)
    ensures a == b
  {
    forall k | 0 <= k < |a| ensures a[k] == b[k] {
      var i := k / 2;
      assert Samples(a)[i] == Samples(b)[i];
    }
  }

  // Each pair of bytes is one sample in two's complement, its low byte first, and the only one with
  // those bytes.
  lemma SamplesAreTwosComplement(bytes: seq<Byte>, i: nat, x: int)
    requires 2 * i + 1 < |bytes|
    ensures |Samples(bytes)| == |bytes| / 2
    ensures x == Samples(bytes)[i] <==>
              -0x8000 <= x <= 0x7fff && bytes[2 * i] == x % 0x100 && bytes[2 * i + 1] == x % 0x1_0000 / 0x100
  {
    var low: int, high: int := bytes[2 * i], bytes[2 * i + 1];
    var u := low + 256 * high;
    assert Samples(bytes)[i] == if u < 0x8000 then u else u - 0x1_0000;
    LowByte(low, high);
    if x == Samples(bytes)[i] {
      assert x % 0x1_0000 == u;
    }
  }
}

/**
 * The WAV container codec of `AudioProcessor`: `samplesToBuffer` writes the
 * canonical 44-byte RIFF/WAVE header (one "fmt " chunk with format tag
 * WAVE_FORMAT_PCM = 1, mono, 44100 Hz, 16 bits) followed by little-endian
 * int16 samples; `bufferToSamples` skips 44 bytes and reads int16 values back.
 */
module Wav {
  import opened Wrappers
  import opened Bytes

  const HeaderSize: nat := 44
  const SampleRate: nat := 44100
  const MaxUInt32: nat := 0xFFFF_FFFF

  /** The only error the codec raises: Node's ERR_OUT_OF_RANGE (a RangeError). */
  datatype WavError = RangeError

  /** `Math.max(-1, Math.min(1, x))`. */
  function Clamp(x: real): (r: real)
    ensures -1.0 <= r <= 1.0
    ensures -1.0 <= x <= 1.0 ==> r == x
    ensures x < -1.0 ==> r == -1.0
    ensures 1.0 < x ==> r == 1.0
  {
    if x < -1.0 then -1.0 else if x > 1.0 then 1.0 else x
  }

  /** JavaScript's `Math.round`: nearest integer, halves rounded towards +infinity. */
  function Round(y: real): (r: int)
    ensures y - 0.5 < r as real <= y + 0.5
  {
    (y + 0.5).Floor
  }

  /** The int16 value `samplesToBuffer` stores for one sample: `round(clamp(x) * 32767)`. */
  function Quantize(x: real): (q: int)
    ensures -32767 <= q <= 32767
    ensures Clamp(x) * 32767.0 - 0.5 < q as real <= Clamp(x) * 32767.0 + 0.5
  {
    Round(Clamp(x) * 32767.0)
  }

  /** True when the two size fields of the header fit in a uint32, so no write throws. */
  predicate Encodable(n: nat) {
    36 + 2 * n <= MaxUInt32
  }

  /** The 44 header bytes for `n` samples, field by field in the order they are written. */
  function Header(n: nat): (h: seq<byte>)
    requires Encodable(n)
    ensures |h| == HeaderSize
  {
    Ascii("RIFF") + UInt32LE(36 + 2 * n) + Ascii("WAVE")
    + Ascii("fmt ") + UInt32LE(16) + UInt16LE(1) + UInt16LE(1)
    + UInt32LE(SampleRate) + UInt32LE(SampleRate * 2) + UInt16LE(2) + UInt16LE(16)
    + Ascii("data") + UInt32LE(2 * n)
  }

  /** The payload: every sample quantized and stored as little-endian int16, in order. */
  function Payload(s: seq<real>): (p: seq<byte>)
    ensures |p| == 2 * |s|
  {
    if s == [] then [] else Payload(s[..|s| - 1]) + Int16LE(Quantize(s[|s| - 1]))
  }

  /** What `samplesToBuffer` returns or throws. */
  function Encode(s: seq<real>): (r: Result<seq<byte>, WavError>)
    ensures r.Ok? <==> Encodable(|s|)
    ensures r.Ok? ==> |r.value| == HeaderSize + 2 * |s|
  {
    if Encodable(|s|) then Ok(Header(|s|) + Payload(s)) else Err(RangeError)
  }

  /** The `k`-th sample of a buffer: the int16 at byte `44 + 2k`, divided by 32768. */
  function SampleAt(b: seq<byte>, k: nat): real
    requires HeaderSize + 2 * k + 2 <= |b|
  {
    ReadInt16LE(b, HeaderSize + 2 * k) as real / 32768.0
  }

  /** What `bufferToSamples` returns or throws. */
  function Decode(b: seq<byte>): (r: Result<seq<real>, WavError>)
    ensures r.Err? <==> |b| > HeaderSize && (|b| - HeaderSize) % 2 == 1
    ensures r.Ok? ==> 2 * |r.value| == if |b| <= HeaderSize then 0 else |b| - HeaderSize
    ensures r.Ok? ==> forall x :: x in r.value ==> -1.0 <= x <= 32767.0 / 32768.0
  {
    if |b| <= HeaderSize then Ok([])
    else if (|b| - HeaderSize) % 2 == 1 then Err(RangeError)
    else Ok(seq((|b| - HeaderSize) / 2, k requires 0 <= k < (|b| - HeaderSize) / 2 => SampleAt(b, k)))
  }

  /** What decoding an encoded sequence yields: `round(clamp(x) * 32767) / 32768` per sample. */
  function Requantized(s: seq<real>): (r: seq<real>)
    ensures |r| == |s|
  {
    seq(|s|, i requires 0 <= i < |s| => Quantize(s[i]) as real / 32768.0)
  }

  lemma {:induction false} PayloadAt(s: seq<real>, i: nat)
    requires i < |s|
    ensures Payload(s)[2 * i .. 2 * i + 2] == Int16LE(Quantize(s[i]))
  {
    var init := s[..|s| - 1];
    assert Payload(s) == Payload(init) + Int16LE(Quantize(s[|s| - 1]));
    if i < |s| - 1 {
      PayloadAt(init, i);
      assert init[i] == s[i];
    }
  }

  /** Every field of the header reads back as the value `samplesToBuffer` writes. */
  lemma HeaderLayout(n: nat)
    requires Encodable(n)
    ensures var h := Header(n);
      && h[0..4] == Ascii("RIFF")
      && ReadUInt32LE(h, 4) == 36 + 2 * n
      && h[8..12] == Ascii("WAVE")
      && h[12..16] == Ascii("fmt ")
      && ReadUInt32LE(h, 16) == 16
      && ReadUInt16LE(h, 20) == 1
      && ReadUInt16LE(h, 22) == 1
      && ReadUInt32LE(h, 24) == 44100
      && ReadUInt32LE(h, 28) == 88200
      && ReadUInt16LE(h, 32) == 2
      && ReadUInt16LE(h, 34) == 16
      && h[36..40] == Ascii("data")
      && ReadUInt32LE(h, 40) == 2 * n
  {
    var h := Header(n);
    var size, dataSize := UInt32LE(36 + 2 * n), UInt32LE(2 * n);
    var sub, fmt, ch := UInt32LE(16), UInt16LE(1), UInt16LE(1);
    var rate, byteRate, align, bits := UInt32LE(44100), UInt32LE(88200), UInt16LE(2), UInt16LE(16);
    assert h[4..8] == size;
    assert h[16..20] == sub;
    assert h[20..22] == fmt;
    assert h[22..24] == ch;
    assert h[24..28] == rate;
    assert h[28..32] == byteRate;
    assert h[32..34] == align;
    assert h[34..36] == bits;
    assert h[40..44] == dataSize;
  }

  /**
   * The whole file `samplesToBuffer` produces: 44 + 2N bytes, the header above,
   * and sample i stored as the int16 `round(clamp(s[i]) * 32767)` at byte 44 + 2i.
   */
  lemma EncodeLayout(s: seq<real>)
    requires Encodable(|s|)
    ensures var b := Encode(s).value;
      && |b| == HeaderSize + 2 * |s|
      && b[..HeaderSize] == Header(|s|)
      && forall i :: 0 <= i < |s| ==> ReadInt16LE(b, HeaderSize + 2 * i) == Quantize(s[i])
  {
    var b := Encode(s).value;
    assert b[..HeaderSize] == Header(|s|);
    forall i | 0 <= i < |s|
      ensures ReadInt16LE(b, HeaderSize + 2 * i) == Quantize(s[i])
    {
      PayloadAt(s, i);
      assert b[HeaderSize + 2 * i .. HeaderSize + 2 * i + 2] == Payload(s)[2 * i .. 2 * i + 2];
      assert ReadInt16LE(b, HeaderSize + 2 * i) == ReadInt16LE(Int16LE(Quantize(s[i])), 0);
    }
  }

  /** Decoding an encoded sequence gives back exactly |s| samples, sample i being `Quantize(s[i]) / 32768`. */
  lemma RoundTrip(s: seq<real>)
    requires Encodable(|s|)
    ensures Decode(Encode(s).value) == Ok(Requantized(s))
  {
    var b := Encode(s).value;
    EncodeLayout(s);
    if s != [] {
      var d := seq(|s|, k requires 0 <= k < |s| => SampleAt(b, k));
      assert Decode(b) == Ok(d);
      forall i | 0 <= i < |s| ensures d[i] == Requantized(s)[i] {
        assert ReadInt16LE(b, HeaderSize + 2 * i) == Quantize(s[i]);
      }
      assert d == Requantized(s);
    }
  }

  /** Each sample of a round trip lies within 3/65536 of the clamped input. */
  lemma RoundTripError(s: seq<real>, i: nat)
    requires i < |s|
    ensures -3.0 / 65536.0 <= Requantized(s)[i] - Clamp(s[i]) <= 3.0 / 65536.0
  {
    var c, q := Clamp(s[i]), Quantize(s[i]);
    assert Requantized(s)[i] - c == (q as real - 32767.0 * c) / 32768.0 - c / 32768.0;
  }

  /** The round-trip error can exceed one quantization step of 1/32767. */
  lemma RoundTripErrorExceedsOneStep()
    ensures Quantize(0.99998) == 32766
    ensures Requantized([0.99998])[0] - 0.99998 < -1.0 / 32767.0
  {
    assert 32766.0 <= 0.99998 * 32767.0 + 0.5 < 32767.0;
  }

  /** Copies `bytes` into `buffer` at `off`, leaving every other byte as it was. */
  method Write(buffer: array<byte>, off: nat, bytes: seq<byte>)
    requires off + |bytes| <= buffer.Length
    modifies buffer
    ensures buffer[..] == old(buffer[..off]) + bytes + old(buffer[off + |bytes|..])
  {
    forall k | 0 <= k < |bytes| {
      buffer[off + k] := bytes[k];
    }
  }

  lemma PayloadSnoc(s: seq<real>, i: nat)
    requires i < |s|
    ensures Payload(s[..i + 1]) == Payload(s[..i]) + Int16LE(Quantize(s[i]))
  {
    assert s[..i + 1][..i] == s[..i];
  }

  /** The sample loop of `samplesToBuffer`: sample i written as int16 at byte 44 + 2i. */
  method WritePayload(buffer: array<byte>, samples: seq<real>)
    requires buffer.Length == HeaderSize + 2 * |samples|
    modifies buffer
    ensures buffer[..] == old(buffer[..HeaderSize]) + Payload(samples)
  {
    ghost var header := buffer[..HeaderSize];
    var i := 0;
    while i < |samples|
      invariant 0 <= i <= |samples|
      invariant buffer[..HeaderSize + 2 * i] == header + Payload(samples[..i])
    {
      var off := HeaderSize + 2 * i;
      var bytes := Int16LE(Quantize(samples[i]));
      ghost var before := buffer[..];
      Write(buffer, off, bytes);
      assert buffer[..off + 2] == before[..off] + bytes;
      PayloadSnoc(samples, i);
      i := i + 1;
    }
    assert samples[..i] == samples;
    assert buffer[..] == buffer[..HeaderSize + 2 * i];
  }

  /** `samplesToBuffer`: allocates 44 + 2N bytes, writes the header, then each quantized sample. */
  method SamplesToBuffer(samples: seq<real>) returns (r: Result<seq<byte>, WavError>)
    ensures r == Encode(samples)
  {
    var n := |samples|;
    if !Encodable(n) {
      // writeUInt32LE(36 + n * 2, 4) throws when the size does not fit in a uint32
      return Err(RangeError);
    }
    var buffer := new byte[HeaderSize + 2 * n];
    Write(buffer, 0, Header(n));
    assert buffer[..HeaderSize] == Header(n);
    WritePayload(buffer, samples);
    return Ok(buffer[..]);
  }

  /** `bufferToSamples`: skips the header and pushes one int16 / 32768 per byte pair. */
  method BufferToSamples(buffer: seq<byte>) returns (r: Result<seq<real>, WavError>)
    ensures r == Decode(buffer)
  {
    var samples: seq<real> := [];
    var i := HeaderSize;
    while i < |buffer|
      invariant i == HeaderSize + 2 * |samples|
      invariant samples == [] || i <= |buffer|
      invariant forall k :: 0 <= k < |samples| ==> samples[k] == SampleAt(buffer, k)
    {
      if |buffer| < i + 2 {
        // readInt16LE(i) needs the bytes at i and i + 1
        return Err(RangeError);
      }
      samples := samples + [ReadInt16LE(buffer, i) as real / 32768.0];
      i := i + 2;
    }
    if HeaderSize < |buffer| {
      assert samples == Decode(buffer).value;
    }
    return Ok(samples);
  }
}

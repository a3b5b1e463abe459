/**
 * `bufferToWav`: a rendered buffer as a 16-bit PCM RIFF/WAVE file, a 44-byte
 * header followed by the interleaved little-endian samples.
 */
module Wav {
  import opened JsMath

  type Byte = b: int | 0 <= b < 256

  /** A rendered buffer: sample rate, frames per channel, and one sequence of samples per channel. */
  datatype AudioBuffer = AudioBuffer(sampleRate: nat, length: nat, channels: seq<seq<real>>)

  predicate WellFormed(b: AudioBuffer)
  {
    forall c :: 0 <= c < |b.channels| ==> |b.channels[c]| == b.length
  }

  const Riff: int := 0x46464952
  const Wave: int := 0x45564157
  const Fmt: int := 0x20746d66
  const Data: int := 0x61746164

  /** The low `n` bytes of `w`, least significant first. */
  function LeBytes(w: nat, n: nat): (r: seq<Byte>)
    ensures |r| == n
  {
    if n == 0 then [] else [w % 256] + LeBytes(w / 256, n - 1)
  }

  /** The number little-endian bytes denote. */
  function ReadLe(bytes: seq<Byte>): nat
  {
    if bytes == [] then 0 else bytes[0] + 256 * ReadLe(bytes[1..])
  }

  function Pow256(n: nat): (p: nat)
    ensures p >= 1
  {
    if n == 0 then 1 else 256 * Pow256(n - 1)
  }

  /** Writing the low `n` bytes and reading them back gives `w` modulo 256^n. */
  lemma {:induction false} LeRoundTrip(w: nat, n: nat)
    ensures ReadLe(LeBytes(w, n)) == w % Pow256(n)
  {
    if n > 0 {
      LeRoundTrip(w / 256, n - 1);
      DivModNested(w, Pow256(n - 1));
    }
  }

  /** `w % (256 * p) == w % 256 + 256 * ((w / 256) % p)` and `w / (256 * p) == (w / 256) / p`. */
  lemma DivModNested(w: nat, p: nat)
    requires p >= 1
    ensures w % (256 * p) == w % 256 + 256 * ((w / 256) % p)
    ensures w / (256 * p) == (w / 256) / p
  {
    var q := w / 256;
    var r := w % 256;
    assert w == 256 * q + r;
    var q2 := q / p;
    var r2 := q % p;
    assert q == p * q2 + r2;
    assert w == (256 * p) * q2 + (256 * r2 + r);
    assert 0 <= 256 * r2 + r < 256 * p;
    ModUnique(w, 256 * p, q2, 256 * r2 + r);
  }

  lemma ModUnique(w: nat, m: nat, q: nat, r: nat)
    requires m >= 1 && w == m * q + r && r < m
    ensures w % m == r && w / m == q
  {
    var q0 := w / m;
    var r0 := w % m;
    assert m * q0 + r0 == m * q + r;
    if q0 < q {
      MulNatMono(q0 + 1, q, m);
    } else if q0 > q {
      MulNatMono(q + 1, q0, m);
    }
  }

  lemma MulNatMono(a: nat, b: nat, m: nat)
    requires a <= b
    ensures a * m <= b * m
  {
  }

  /** Byte `k` of `w`, counting from the least significant. */
  function Digit(w: nat, k: nat): Byte
  {
    (w / Pow256(k)) % 256
  }

  /** Byte `k` of the little-endian encoding is digit `k` in base 256. */
  lemma {:induction false} LeBytesAt(w: nat, n: nat, k: nat)
    requires k < n
    ensures LeBytes(w, n)[k] == Digit(w, k)
  {
    if k > 0 {
      LeBytesAt(w / 256, n - 1, k - 1);
      DivModNested(w, Pow256(k - 1));
    }
  }

  /** `setUint16(pos, v, true)`: the value modulo 2^16, low byte first. */
  function U16(v: int): (r: seq<Byte>)
    ensures |r| == 2
  {
    seq(2, k requires 0 <= k < 2 => Digit(v % 0x1_0000, k))
  }

  /** `setUint32(pos, v, true)`: the value modulo 2^32, low byte first. */
  function U32(v: int): (r: seq<Byte>)
    ensures |r| == 4
  {
    seq(4, k requires 0 <= k < 4 => Digit(v % 0x1_0000_0000, k))
  }

  lemma U16IsLe(v: int)
    ensures U16(v) == LeBytes(v % 0x1_0000, 2)
  {
    forall k | 0 <= k < 2
      ensures U16(v)[k] == LeBytes(v % 0x1_0000, 2)[k]
    {
      LeBytesAt(v % 0x1_0000, 2, k);
    }
  }

  lemma U32IsLe(v: int)
    ensures U32(v) == LeBytes(v % 0x1_0000_0000, 4)
  {
    forall k | 0 <= k < 4
      ensures U32(v)[k] == LeBytes(v % 0x1_0000_0000, 4)[k]
    {
      LeBytesAt(v % 0x1_0000_0000, 4, k);
    }
  }

  /** `getInt16(pos, true)`: two's complement. */
  function ReadI16(b: seq<Byte>): int
    requires |b| == 2
  {
    var u := ReadLe(b);
    if u >= 0x8000 then u - 0x1_0000 else u
  }

  /** Reading back a 16-bit field gives the value modulo 2^16. */
  lemma U16RoundTrip(v: int)
    ensures ReadLe(U16(v)) == v % 0x1_0000
  {
    U16IsLe(v);
    LeRoundTrip(v % 0x1_0000, 2);
    assert Pow256(2) == 0x1_0000;
  }

  /** Reading back a 32-bit field gives the value modulo 2^32. */
  lemma U32RoundTrip(v: int)
    ensures ReadLe(U32(v)) == v % 0x1_0000_0000
  {
    U32IsLe(v);
    LeRoundTrip(v % 0x1_0000_0000, 4);
    assert Pow256(4) == 0x1_0000_0000;
  }

  /** A 16-bit sample written with `setInt16` reads back as itself with `getInt16`. */
  lemma I16RoundTrip(v: int)
    requires -0x8000 <= v < 0x8000
    ensures ReadI16(U16(v)) == v
  {
    U16RoundTrip(v);
  }

  /** `Math.max(-1, Math.min(1, x))`. */
  function Clip(x: real): (c: real)
    ensures -1.0 <= c <= 1.0
    ensures -1.0 <= x <= 1.0 ==> c == x
  {
    var m := if 1.0 <= x then 1.0 else x;
    if -1.0 >= m then -1.0 else m
  }

  /**
   * `(0.5 + s < 0 ? s * 32768 : s * 32767) | 0` on the clipped sample: the
   * scale is 32768 only below -0.5; the product is truncated toward zero.
   */
  function Quantize(x: real): (q: int)
    ensures -0x8000 <= q < 0x8000
  {
    var s := Clip(x);
    Trunc(if 0.5 + s < 0.0 then s * 32768.0 else s * 32767.0)
  }

  /** Full scale maps to the extremes of the 16-bit range, silence to 0, and clipping saturates. */
  lemma QuantizeEnds(x: real)
    ensures x >= 1.0 ==> Quantize(x) == 0x7FFF
    ensures x <= -1.0 ==> Quantize(x) == -0x8000
    ensures Quantize(0.0) == 0
  {
  }

  /** Louder input never gives a smaller code. */
  lemma QuantizeMonotone(x: real, y: real)
    requires x <= y
    ensures Quantize(x) <= Quantize(y)
  {
    var sx, sy := Clip(x), Clip(y);
    var px := if 0.5 + sx < 0.0 then sx * 32768.0 else sx * 32767.0;
    var py := if 0.5 + sy < 0.0 then sy * 32768.0 else sy * 32767.0;
    assert sx <= sy;
    if 0.5 + sy < 0.0 {
      MulLeftMono(32768.0, sx, sy);
    } else if 0.5 + sx < 0.0 {
      assert px < -16384.0 && py >= -16383.5;
    } else {
      MulLeftMono(32767.0, sx, sy);
    }
    assert px <= py;
    TruncMono(px, py);
  }

  lemma TruncMono(x: real, y: real)
    requires x <= y
    ensures Trunc(x) <= Trunc(y)
  {
    if x >= 0.0 {
    } else if y < 0.0 {
      assert -y <= -x;
    }
  }

  /** Bytes taken by `frames` frames of `ch` 16-bit samples, counted frame by frame. */
  function DataSize(frames: nat, ch: nat): nat
  {
    if frames == 0 then 0 else DataSize(frames - 1, ch) + 2 * ch
  }

  lemma {:induction false} DataSizeProduct(frames: nat, ch: nat)
    ensures DataSize(frames, ch) == frames * ch * 2
  {
    if frames > 0 {
      DataSizeProduct(frames - 1, ch);
      assert (frames - 1) * ch * 2 + 2 * ch == frames * ch * 2;
    }
  }

  lemma {:induction false} DataSizeMono(a: nat, b: nat, ch: nat)
    requires a <= b
    ensures DataSize(a, ch) <= DataSize(b, ch)
    decreases b
  {
    if a < b {
      DataSizeMono(a, b - 1, ch);
    }
  }

  /** `length` of `bufferToWav`: 44 header bytes and two bytes per sample. */
  function WavLength(b: AudioBuffer): nat
  {
    DataSize(b.length, |b.channels|) + 44
  }

  /** "RIFF", the size of the rest of the file, "WAVE". */
  function RiffDescriptor(b: AudioBuffer): (r: seq<Byte>)
    ensures |r| == 12
  {
    U32(Riff) + U32(WavLength(b) - 8) + U32(Wave)
  }

  /** "fmt ", 16, PCM, channels, sample rate, byte rate, block align, bits per sample. */
  function FmtChunk(b: AudioBuffer): (r: seq<Byte>)
    ensures |r| == 24
  {
    var numOfChan := |b.channels|;
    FmtBytes(numOfChan, b.sampleRate, b.sampleRate * 2 * numOfChan, numOfChan * 2)
  }

  /** The format chunk for given field values. */
  function FmtBytes(channels: nat, sampleRate: nat, byteRate: nat, blockAlign: nat): (r: seq<Byte>)
    ensures |r| == 24
  {
    FmtHead(channels) + FmtRates(sampleRate, byteRate, blockAlign)
  }

  /** "fmt ", the chunk size 16, format 1 (PCM), the channel count. */
  function FmtHead(channels: nat): (r: seq<Byte>)
    ensures |r| == 12
  {
    U32(Fmt) + U32(16) + U16(1) + U16(channels)
  }

  /** Sample rate, byte rate, block align, 16 bits per sample. */
  function FmtRates(sampleRate: nat, byteRate: nat, blockAlign: nat): (r: seq<Byte>)
    ensures |r| == 12
  {
    U32(sampleRate) + U32(byteRate) + U16(blockAlign) + U16(16)
  }

  /** "data" and the size of the samples that follow. */
  function DataChunkHeader(b: AudioBuffer): (r: seq<Byte>)
    ensures |r| == 8
  {
    U32(Data) + U32(WavLength(b) - 44)
  }

  /** The 44-byte header, in the order its fields are written. */
  function Header(b: AudioBuffer): (r: seq<Byte>)
    ensures |r| == 44
  {
    RiffDescriptor(b) + FmtChunk(b) + DataChunkHeader(b)
  }

  /** The samples of frame `f` from the first `c` channels. */
  function ChannelBytes(b: AudioBuffer, f: nat, c: nat): (r: seq<Byte>)
    requires WellFormed(b) && f < b.length && c <= |b.channels|
    ensures |r| == 2 * c
  {
    if c == 0 then [] else ChannelBytes(b, f, c - 1) + U16(Quantize(b.channels[c - 1][f]))
  }

  /** The first `n` frames, interleaved. */
  function Frames(b: AudioBuffer, n: nat): (r: seq<Byte>)
    requires WellFormed(b) && n <= b.length
    ensures |r| == DataSize(n, |b.channels|)
  {
    if n == 0 then [] else Frames(b, n - 1) + ChannelBytes(b, n - 1, |b.channels|)
  }

  /** The whole file. */
  function WavBytes(b: AudioBuffer): seq<Byte>
    requires WellFormed(b)
  {
    Header(b) + Frames(b, b.length)
  }

  /** The file is exactly `length * channels * 2 + 44` bytes. */
  lemma WavBytesLength(b: AudioBuffer)
    requires WellFormed(b)
    ensures |WavBytes(b)| == WavLength(b) == b.length * |b.channels| * 2 + 44
  {
    DataSizeProduct(b.length, |b.channels|);
  }

  lemma RiffFields(b: AudioBuffer)
    ensures var h := RiffDescriptor(b);
      && h[0..4] == U32(Riff)
      && ReadLe(h[4..8]) == (WavLength(b) - 8) % 0x1_0000_0000
      && h[8..12] == U32(Wave)
  {
    Fields3(U32(Riff), U32(WavLength(b) - 8), U32(Wave));
    U32RoundTrip(WavLength(b) - 8);
  }

  lemma FmtFields(b: AudioBuffer)
    ensures var h := FmtChunk(b);
      && h[0..4] == U32(Fmt)
      && ReadLe(h[4..8]) == 16
      && ReadLe(h[8..10]) == 1
      && ReadLe(h[10..12]) == |b.channels| % 0x1_0000
      && ReadLe(h[12..16]) == b.sampleRate % 0x1_0000_0000
      && ReadLe(h[16..20]) == (b.sampleRate * 2 * |b.channels|) % 0x1_0000_0000
      && ReadLe(h[20..22]) == (|b.channels| * 2) % 0x1_0000
      && ReadLe(h[22..24]) == 16
  {
    var ch := |b.channels|;
    FmtBytesFields(ch, b.sampleRate, b.sampleRate * 2 * ch, ch * 2);
  }

  lemma FmtBytesFields(channels: nat, sampleRate: nat, byteRate: nat, blockAlign: nat)
    ensures var h := FmtBytes(channels, sampleRate, byteRate, blockAlign);
      && h[0..4] == U32(Fmt)
      && ReadLe(h[4..8]) == 16
      && ReadLe(h[8..10]) == 1
      && ReadLe(h[10..12]) == channels % 0x1_0000
      && ReadLe(h[12..16]) == sampleRate % 0x1_0000_0000
      && ReadLe(h[16..20]) == byteRate % 0x1_0000_0000
      && ReadLe(h[20..22]) == blockAlign % 0x1_0000
      && ReadLe(h[22..24]) == 16
  {
    var a, b := FmtHead(channels), FmtRates(sampleRate, byteRate, blockAlign);
    FmtHeadFields(channels);
    FmtRatesFields(sampleRate, byteRate, blockAlign);
    Halves(a, b);
  }

  lemma FmtHeadFields(channels: nat)
    ensures var h := FmtHead(channels);
      && h[0..4] == U32(Fmt)
      && ReadLe(h[4..8]) == 16
      && ReadLe(h[8..10]) == 1
      && ReadLe(h[10..12]) == channels % 0x1_0000
  {
    var h := FmtHead(channels);
    Fields4(U32(Fmt), U32(16), U16(1), U16(channels));
    assert ReadLe(h[4..8]) == 16 by { U32RoundTrip(16); }
    assert ReadLe(h[8..10]) == 1 by { U16RoundTrip(1); }
    assert ReadLe(h[10..12]) == channels % 0x1_0000 by { U16RoundTrip(channels); }
  }

  lemma FmtRatesFields(sampleRate: nat, byteRate: nat, blockAlign: nat)
    ensures var h := FmtRates(sampleRate, byteRate, blockAlign);
      && ReadLe(h[0..4]) == sampleRate % 0x1_0000_0000
      && ReadLe(h[4..8]) == byteRate % 0x1_0000_0000
      && ReadLe(h[8..10]) == blockAlign % 0x1_0000
      && ReadLe(h[10..12]) == 16
  {
    Fields4(U32(sampleRate), U32(byteRate), U16(blockAlign), U16(16));
    U32RoundTrip(sampleRate);
    U32RoundTrip(byteRate);
    U16RoundTrip(blockAlign);
    U16RoundTrip(16);
  }

  lemma DataFields(b: AudioBuffer)
    ensures var h := DataChunkHeader(b);
      && h[0..4] == U32(Data)
      && ReadLe(h[4..8]) == (WavLength(b) - 44) % 0x1_0000_0000
  {
    var h := DataChunkHeader(b);
    assert h[0..4] == U32(Data) && h[4..8] == U32(WavLength(b) - 44);
    U32RoundTrip(WavLength(b) - 44);
  }

  /**
   * The header declares what follows: "RIFF" and the file length minus 8,
   * "WAVE", a 16-byte "fmt " chunk for PCM with the buffer's channel count,
   * sample rate, byte rate, block align and 16 bits per sample, then "data"
   * and the file length minus 44 (each modulo the field's width).
   */
  lemma HeaderFields(b: AudioBuffer)
    ensures var h := Header(b);
      && h[0..12] == RiffDescriptor(b) && h[12..36] == FmtChunk(b) && h[36..44] == DataChunkHeader(b)
      && ReadLe(h[4..8]) == (WavLength(b) - 8) % 0x1_0000_0000
      && ReadLe(h[22..24]) == |b.channels| % 0x1_0000
      && ReadLe(h[24..28]) == b.sampleRate % 0x1_0000_0000
      && ReadLe(h[40..44]) == (WavLength(b) - 44) % 0x1_0000_0000
  {
    var r, f, d := RiffDescriptor(b), FmtChunk(b), DataChunkHeader(b);
    RiffFields(b);
    FmtFields(b);
    DataFields(b);
    HeaderParts(r, f, d);
  }

  /** The chunk tags are the ASCII bytes of "RIFF", "WAVE", "fmt " and "data". */
  lemma RiffTag()
    ensures U32(Riff) == [0x52, 0x49, 0x46, 0x46]
  {
    U32Digits(Riff);
  }

  lemma WaveTag()
    ensures U32(Wave) == [0x57, 0x41, 0x56, 0x45]
  {
    U32Digits(Wave);
  }

  lemma FmtTag()
    ensures U32(Fmt) == [0x66, 0x6d, 0x74, 0x20]
  {
    U32Digits(Fmt);
  }

  lemma DataTag()
    ensures U32(Data) == [0x64, 0x61, 0x74, 0x61]
  {
    U32Digits(Data);
  }

  /** The four bytes of a 32-bit value, spelled out. */
  lemma U32Digits(v: nat)
    requires v < 0x1_0000_0000
    ensures U32(v) == [v % 0x100, v / 0x100 % 0x100, v / 0x1_0000 % 0x100, v / 0x100_0000 % 0x100]
  {
    assert Pow256(1) == 0x100 && Pow256(2) == 0x1_0000 && Pow256(3) == 0x100_0000;
  }

  lemma Fields3(a: seq<Byte>, b: seq<Byte>, c: seq<Byte>)
    requires |a| == 4 && |b| == 4 && |c| == 4
    ensures var h := a + b + c; h[0..4] == a && h[4..8] == b && h[8..12] == c
  {
  }

  lemma Fields4(a: seq<Byte>, b: seq<Byte>, c: seq<Byte>, d: seq<Byte>)
    requires |a| == 4 && |b| == 4 && |c| == 2 && |d| == 2
    ensures var h := a + b + c + d; h[0..4] == a && h[4..8] == b && h[8..10] == c && h[10..12] == d
  {
  }

  lemma Halves(a: seq<Byte>, b: seq<Byte>)
    requires |a| == 12 && |b| == 12
    ensures var h := a + b;
      && h[0..4] == a[0..4] && h[4..8] == a[4..8] && h[8..10] == a[8..10] && h[10..12] == a[10..12]
      && h[12..16] == b[0..4] && h[16..20] == b[4..8] && h[20..22] == b[8..10] && h[22..24] == b[10..12]
  {
  }

  lemma HeaderParts(r: seq<Byte>, f: seq<Byte>, d: seq<Byte>)
    requires |r| == 12 && |f| == 24 && |d| == 8
    ensures var h := r + f + d;
      && h[0..12] == r && h[12..36] == f && h[36..44] == d
      && h[4..8] == r[4..8] && h[22..24] == f[10..12] && h[24..28] == f[12..16] && h[40..44] == d[4..8]
  {
  }

  lemma {:induction false} ChannelBytesAt(b: AudioBuffer, f: nat, c: nat, k: nat)
    requires WellFormed(b) && f < b.length && k < c <= |b.channels|
    ensures ChannelBytes(b, f, c)[2 * k..2 * k + 2] == U16(Quantize(b.channels[k][f]))
  {
    if k < c - 1 {
      ChannelBytesAt(b, f, c - 1, k);
      assert ChannelBytes(b, f, c)[..2 * (c - 1)] == ChannelBytes(b, f, c - 1);
    }
  }

  /** Sample `f` of channel `c` sits, interleaved, after the `f` earlier frames and the `c` earlier channels. */
  lemma {:induction false} FramesAt(b: AudioBuffer, n: nat, f: nat, c: nat)
    requires WellFormed(b) && f < n <= b.length && c < |b.channels|
    ensures var p := DataSize(f, |b.channels|) + 2 * c;
      p + 2 <= |Frames(b, n)| && Frames(b, n)[p..p + 2] == U16(Quantize(b.channels[c][f]))
  {
    var ch := |b.channels|;
    var p := DataSize(f, ch) + 2 * c;
    var prev := Frames(b, n - 1);
    if f == n - 1 {
      ChannelBytesAt(b, f, ch, c);
    } else {
      FramesAt(b, n - 1, f, c);
      assert Frames(b, n)[..|prev|] == prev;
    }
  }

  /**
   * Every sample of the buffer, clipped and quantized, reads back from its
   * interleaved place in the file: after the header, the `f` earlier frames
   * (`DataSize(f, ch) == f * ch * 2` bytes, `DataSizeProduct`) and the `c`
   * earlier channels.
   */
  lemma SampleReadBack(b: AudioBuffer, f: nat, c: nat)
    requires WellFormed(b) && f < b.length && c < |b.channels|
    ensures var p := 44 + DataSize(f, |b.channels|) + 2 * c;
      p + 2 <= |WavBytes(b)| && ReadI16(WavBytes(b)[p..p + 2]) == Quantize(b.channels[c][f])
  {
    var q := Quantize(b.channels[c][f]);
    var p := DataSize(f, |b.channels|) + 2 * c;
    assert 44 + p + 2 <= |WavBytes(b)| && WavBytes(b)[44 + p..44 + p + 2] == U16(q) by {
      FramesAt(b, b.length, f, c);
      FrameSlice(b, p);
    }
    I16RoundTrip(q);
  }

  lemma FrameSlice(b: AudioBuffer, p: nat)
    requires WellFormed(b) && p + 2 <= |Frames(b, b.length)|
    ensures WavBytes(b)[44 + p..44 + p + 2] == Frames(b, b.length)[p..p + 2]
  {
  }

  /** `view.setUint8`-level writer shared by the three setters: copies `bytes` at `pos`. */
  method Put(view: array<Byte>, pos: nat, bytes: seq<Byte>) returns (next: nat)
    requires pos + |bytes| <= view.Length
    modifies view
    ensures next == pos + |bytes|
    ensures view[..next] == old(view[..pos]) + bytes
  {
    var k := 0;
    while k < |bytes|
      invariant 0 <= k <= |bytes|
      invariant view[..pos + k] == old(view[..pos]) + bytes[..k]
    {
      view[pos + k] := bytes[k];
      assert bytes[..k + 1] == bytes[..k] + [bytes[k]];
      k := k + 1;
    }
    next := pos + k;
  }

  /** The `setUint16` closure: writes at the cursor and advances it by 2. */
  method SetUint16(view: array<Byte>, pos: nat, data: int) returns (next: nat)
    requires pos + 2 <= view.Length
    modifies view
    ensures next == pos + 2 && view[..next] == old(view[..pos]) + U16(data)
  {
    next := Put(view, pos, U16(data));
  }

  /** The `setUint32` closure: writes at the cursor and advances it by 4. */
  method SetUint32(view: array<Byte>, pos: nat, data: int) returns (next: nat)
    requires pos + 4 <= view.Length
    modifies view
    ensures next == pos + 4 && view[..next] == old(view[..pos]) + U32(data)
  {
    next := Put(view, pos, U32(data));
  }

  lemma FrameFits(frames: nat, offset: nat, ch: nat)
    requires offset <= frames
    requires DataSize(offset, ch) < DataSize(frames, ch)
    ensures offset < frames && ch > 0
    ensures DataSize(offset + 1, ch) <= DataSize(frames, ch)
  {
    DataSizeMono(offset + 1, frames, ch);
    DataSizeProduct(offset, ch);
    DataSizeProduct(frames, ch);
  }

  /** The first three header writes of `bufferToWav`. */
  method WriteRiffDescriptor(view: array<Byte>, buffer: AudioBuffer) returns (pos: nat)
    requires view.Length == WavLength(buffer)
    modifies view
    ensures pos == 12 && view[..pos] == RiffDescriptor(buffer)
  {
    var length := view.Length;
    pos := 0;
    pos := SetUint32(view, pos, Riff);
    pos := SetUint32(view, pos, length - 8);
    pos := SetUint32(view, pos, Wave);
  }

  /** The next eight header writes: the format chunk. */
  method WriteFmtChunk(view: array<Byte>, buffer: AudioBuffer, start: nat) returns (pos: nat)
    requires start + 24 <= view.Length
    modifies view
    ensures pos == start + 24 && view[..pos] == old(view[..start]) + FmtChunk(buffer)
  {
    var numOfChan := |buffer.channels|;
    pos := WriteFmtFields(view, start, numOfChan, buffer.sampleRate, buffer.sampleRate * 2 * numOfChan, numOfChan * 2);
  }

  method WriteFmtFields(view: array<Byte>, start: nat, channels: nat, sampleRate: nat, byteRate: nat, blockAlign: nat)
    returns (pos: nat)
    requires start + 24 <= view.Length
    modifies view
    ensures pos == start + 24
    ensures view[..pos] == old(view[..start]) + FmtBytes(channels, sampleRate, byteRate, blockAlign)
  {
    ghost var before := view[..start];
    pos := WriteFmtHead(view, start, channels);
    ghost var afterHead := view[..pos];
    pos := WriteFmtRates(view, pos, sampleRate, byteRate, blockAlign);
    AppendAssoc(before, FmtHead(channels), FmtRates(sampleRate, byteRate, blockAlign));
  }

  method WriteFmtHead(view: array<Byte>, start: nat, channels: nat) returns (pos: nat)
    requires start + 12 <= view.Length
    modifies view
    ensures pos == start + 12 && view[..pos] == old(view[..start]) + FmtHead(channels)
  {
    pos := SetUint32(view, start, Fmt);
    pos := SetUint32(view, pos, 16);
    pos := SetUint16(view, pos, 1);
    pos := SetUint16(view, pos, channels);
  }

  method WriteFmtRates(view: array<Byte>, start: nat, sampleRate: nat, byteRate: nat, blockAlign: nat) returns (pos: nat)
    requires start + 12 <= view.Length
    modifies view
    ensures pos == start + 12 && view[..pos] == old(view[..start]) + FmtRates(sampleRate, byteRate, blockAlign)
  {
    pos := SetUint32(view, start, sampleRate);
    pos := SetUint32(view, pos, byteRate);
    pos := SetUint16(view, pos, blockAlign);
    pos := SetUint16(view, pos, 16);
  }

  lemma AppendAssoc(a: seq<Byte>, b: seq<Byte>, c: seq<Byte>)
    ensures (a + b) + c == a + (b + c)
  {
  }

  /** The header writes of `bufferToWav`, through the cursor. */
  method WriteHeader(view: array<Byte>, buffer: AudioBuffer) returns (pos: nat)
    requires view.Length == WavLength(buffer)
    modifies view
    ensures pos == 44 && view[..pos] == Header(buffer)
  {
    var length := view.Length;
    pos := WriteRiffDescriptor(view, buffer);
    pos := WriteFmtChunk(view, buffer, pos);
    pos := SetUint32(view, pos, Data);
    pos := SetUint32(view, pos, length - pos - 4);
  }

  /** One pass of the inner loop of `bufferToWav`: the samples of frame `offset`, channel by channel. */
  method WriteFrame(view: array<Byte>, buffer: AudioBuffer, offset: nat, start: nat) returns (pos: nat)
    requires WellFormed(buffer) && offset < buffer.length
    requires start + 2 * |buffer.channels| <= view.Length
    modifies view
    ensures pos == start + 2 * |buffer.channels|
    ensures view[..pos] == old(view[..start]) + ChannelBytes(buffer, offset, |buffer.channels|)
  {
    var numOfChan := |buffer.channels|;
    pos := start;
    var i := 0;
    while i < numOfChan
      invariant 0 <= i <= numOfChan
      invariant pos == start + 2 * i
      invariant view[..pos] == old(view[..start]) + ChannelBytes(buffer, offset, i)
    {
      var sample := Quantize(buffer.channels[i][offset]);
      pos := SetUint16(view, pos, sample);
      i := i + 1;
    }
  }

  /** Leaving the frame loop: the cursor reached the end, so every frame has been written. */
  lemma FramesDone(b: AudioBuffer, offset: nat)
    requires WellFormed(b) && offset <= b.length
    requires DataSize(offset, |b.channels|) >= DataSize(b.length, |b.channels|)
    ensures Frames(b, offset) == Frames(b, b.length)
  {
    var ch := |b.channels|;
    if offset < b.length {
      DataSizeMono(offset + 1, b.length, ch);
      DataSizeProduct(b.length, ch);
      DataSizeProduct(offset, ch);
      assert ch == 0;
      assert |Frames(b, offset)| == 0 && |Frames(b, b.length)| == 0;
    }
  }

  /** The frame loop of `bufferToWav`, after the header `prefix`. */
  method WriteFrames(view: array<Byte>, buffer: AudioBuffer, ghost prefix: seq<Byte>, start: nat) returns (pos: nat)
    requires WellFormed(buffer)
    requires view.Length == start + DataSize(buffer.length, |buffer.channels|)
    requires |prefix| == start && view[..start] == prefix
    modifies view
    ensures pos == view.Length
    ensures view[..] == prefix + Frames(buffer, buffer.length)
  {
    var numOfChan := |buffer.channels|;
    var length := view.Length;
    pos := start;
    var offset := 0;
    while pos < length
      invariant offset <= buffer.length
      invariant pos == start + DataSize(offset, numOfChan) <= length
      invariant view[..pos] == prefix + Frames(buffer, offset)
      decreases length - pos
    {
      FrameFits(buffer.length, offset, numOfChan);
      pos := WriteFrame(view, buffer, offset, pos);
      offset := offset + 1;
    }
    FramesDone(buffer, offset);
    assert view[..] == view[..pos];
  }

  /** `bufferToWav`: writes the header fields, then the frames, interleaving the channels. */
  method BufferToWav(buffer: AudioBuffer) returns (view: array<Byte>)
    requires WellFormed(buffer)
    ensures fresh(view)
    ensures view[..] == WavBytes(buffer)
  {
    var numOfChan := |buffer.channels|;
    var length := buffer.length * numOfChan * 2 + 44;
    DataSizeProduct(buffer.length, numOfChan);
    view := new Byte[length](_ => 0);
    var pos := WriteHeader(view, buffer);
    pos := WriteFrames(view, buffer, Header(buffer), pos);
  }
}

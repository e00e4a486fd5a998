/** `audioBufferToWav` (src/utils/audio.ts): a mono, 16-bit, 16 kHz PCM
    RIFF/WAVE file built by `DataView` writes into a zero-filled
    `ArrayBuffer`. The header follows the WAVE form of the Microsoft/IBM
    Multimedia Programming Interface and Data Specifications 1.0 (RIFF chunk,
    `fmt ` chunk with WAVE_FORMAT_PCM = 1, `data` chunk).

    The sample loop is modelled as written: it reuses `pos`, which is 44 once
    the header is written, as the sample index, so sample i (44 <= i < n) goes
    to byte 44 + 2 * (i - 44) and samples 0..43 are never written.
    `AudioBufferToWavFixed` is the encoder that was evidently intended. */
module Wav {
  import opened Media

  type byte = b: int | 0 <= b < 256

  // ---------------------------------------------------------------------
  // Little-endian fields, as `DataView.setUint16/32(pos, v, true)` and
  // `setInt16(pos, v, true)` store them (the value is taken modulo 2^16 or
  // 2^32 first, which also gives the two's complement bytes of an Int16).

  function Le16(v: int): (s: seq<byte>)
    ensures |s| == 2
  {
    var u := v % 0x1_0000;
    [u % 256, u / 256]
  }

  function Le32(v: int): (s: seq<byte>)
    ensures |s| == 4
  {
    var u := v % 0x1_0000_0000;
    [u % 256, (u / 256) % 256, (u / 0x1_0000) % 256, u / 0x100_0000]
  }

  /** Readers a consumer of the file would use, to state the layout. */
  function ReadUint16(s: seq<byte>, at: nat): nat
    requires at + 2 <= |s|
  {
    s[at] as int + 256 * s[at + 1] as int
  }

  function ReadUint32(s: seq<byte>, at: nat): nat
    requires at + 4 <= |s|
  {
    s[at] as int + 256 * s[at + 1] as int + 0x1_0000 * s[at + 2] as int + 0x100_0000 * s[at + 3] as int
  }

  function ReadInt16(s: seq<byte>, at: nat): int
    requires at + 2 <= |s|
  {
    var u := ReadUint16(s, at);
    if u >= 0x8000 then u - 0x1_0000 else u
  }

  /** Four bytes read as ASCII, to compare with a chunk tag. */
  function Tag(s: seq<byte>, at: nat): string
    requires at + 4 <= |s|
  {
    [s[at] as char, s[at + 1] as char, s[at + 2] as char, s[at + 3] as char]
  }

  /** A 16-bit sample survives its two little-endian bytes. */
  lemma Le16RoundTrip(v: int)
    requires -0x8000 <= v < 0x8000
    ensures ReadInt16(Le16(v), 0) == v
  {
  }

  /** A 16-bit header field survives its two little-endian bytes. */
  lemma Le16Unsigned(v: int)
    requires 0 <= v < 0x1_0000
    ensures ReadUint16(Le16(v), 0) == v
  {
    assert v % 0x1_0000 == v;
  }

  /** A 32-bit field survives its four little-endian bytes; a larger value
      is stored modulo 2^32. */
  lemma Le32RoundTrip(v: int)
    ensures ReadUint32(Le32(v), 0) == v % 0x1_0000_0000
  {
    var u := v % 0x1_0000_0000;
    var s := Le32(v);
    assert s[0] as int + 256 * s[1] as int == u % 0x1_0000;
    assert s[0] as int + 256 * s[1] as int + 0x1_0000 * s[2] as int == u % 0x100_0000;
  }

  // ---------------------------------------------------------------------
  // Quantiser (src/utils/audio.ts:53-54)

  /** `x | 0` on a value in the 32-bit range: truncation toward zero. */
  function TruncToInt(x: real): (r: int)
    ensures x >= 0.0 ==> r as real <= x < r as real + 1.0
    ensures x < 0.0 ==> r as real - 1.0 < x <= r as real
  {
    if x >= 0.0 then x.Floor else -((-x).Floor)
  }

  /** `Math.max(-1, Math.min(1, s))`. */
  function Clamp(s: real): (c: real)
    ensures -1.0 <= c <= 1.0
    ensures -1.0 <= s <= 1.0 ==> c == s
  {
    var hi := if s < 1.0 then s else 1.0;
    if -1.0 > hi then -1.0 else hi
  }

  /** The 16-bit value written for a float sample: clamp, scale by 32768
      below -0.5 and by 32767 otherwise, truncate. */
  function Quantise(s: real): (q: int)
    ensures -0x8000 <= q <= 0x7FFF
  {
    var c := Clamp(s);
    TruncToInt(if 0.5 + c < 0.0 then c * 32768.0 else c * 32767.0)
  }

  /** The end points and the centre of the range, and saturation outside it. */
  lemma QuantiseExtremes(s: real)
    ensures Quantise(1.0) == 0x7FFF && Quantise(-1.0) == -0x8000 && Quantise(0.0) == 0
    ensures s >= 1.0 ==> Quantise(s) == 0x7FFF
    ensures s <= -1.0 ==> Quantise(s) == -0x8000
  {
  }

  /** The scaled value is truncated toward zero, not rounded: the result is
      never farther from zero than the scaled sample and less than one away
      from it. For example 0.5 becomes 16383, where rounding gives 16384. */
  lemma QuantiseTruncates(s: real)
    ensures var c := Clamp(s);
            var scaled := if 0.5 + c < 0.0 then c * 32768.0 else c * 32767.0;
            (scaled >= 0.0 ==> 0.0 <= scaled - Quantise(s) as real < 1.0) &&
            (scaled < 0.0 ==> 0.0 <= Quantise(s) as real - scaled < 1.0)
    ensures Quantise(0.5) == 16383
  {
  }

  // ---------------------------------------------------------------------
  // Down-mix (src/utils/audio.ts:21-32)

  /** The mono samples the encoder reads: channel 0 when the buffer has one
      channel, otherwise the mean of channels 0 and 1 (further channels are
      ignored). */
  function Mono(b: AudioBuffer): (m: seq<real>)
    ensures |m| == FrameCount(b)
    ensures |b.channels| == 1 ==> m == b.channels[0]
    ensures |b.channels| >= 2 ==> forall j :: 0 <= j < |m| ==>
      var l, r := b.channels[0][j], b.channels[1][j];
      (l <= m[j] <= r) || (r <= m[j] <= l)
  {
    if |b.channels| == 1 then b.channels[0]
    else
      var left, right := b.channels[0], b.channels[1];
      seq(|left|, j requires 0 <= j < |left| => (left[j] + right[j]) / 2.0)
  }

  /** The mix has one sample per frame, and only the first two channels
      matter to it. */
  lemma MonoShape(b: AudioBuffer, b': AudioBuffer)
    requires |b.channels| >= 2 && |b'.channels| >= 2
    requires b.channels[..2] == b'.channels[..2]
    ensures |Mono(b)| == FrameCount(b)
    ensures Mono(b) == Mono(b')
  {
    assert b.channels[0] == b'.channels[0] && b.channels[1] == b'.channels[1] by {
      assert b.channels[..2][0] == b.channels[0] && b.channels[..2][1] == b.channels[1];
    }
  }

  /** Lines 23-32: `monoData` is channel 0 itself for one channel, otherwise a
      new array filled by a `for` loop. */
  method MixDownToMono(buffer: AudioBuffer) returns (monoData: array<real>)
    ensures monoData[..] == Mono(buffer)
    ensures monoData.Length == FrameCount(buffer)
  {
    var left := buffer.channels[0];
    if |buffer.channels| == 1 {
      monoData := new real[|left|](j requires 0 <= j < |left| => left[j]);
      assert monoData[..] == left;
    } else {
      var right := buffer.channels[1];
      monoData := new real[|left|];
      for j := 0 to |left|
        invariant forall k :: 0 <= k < j ==> monoData[k] == (left[k] + right[k]) / 2.0
      {
        monoData[j] := (left[j] + right[j]) / 2.0;
      }
    }
  }

  // ---------------------------------------------------------------------
  // The file layout

  /** One header write: `setUint16(value)` or `setUint32(value)`. */
  datatype Field = U16(value: int) | U32(value: int)

  function Size(f: Field): nat {
    if f.U16? then 2 else 4
  }

  function FieldBytes(f: Field): (s: seq<byte>)
    ensures |s| == Size(f)
  {
    match f
    case U16(v) => Le16(v)
    case U32(v) => Le32(v)
  }

  /** The bytes a run of header writes leaves behind, one field after another. */
  function Encode(fs: seq<Field>): (s: seq<byte>)
    ensures |s| == TotalSize(fs)
    decreases |fs|
  {
    if fs == [] then [] else Encode(fs[..|fs| - 1]) + FieldBytes(fs[|fs| - 1])
  }

  function TotalSize(fs: seq<Field>): nat
    decreases |fs|
  {
    if fs == [] then 0 else TotalSize(fs[..|fs| - 1]) + Size(fs[|fs| - 1])
  }

  /** The byte offset at which field k starts. */
  function Offset(fs: seq<Field>, k: nat): nat
    requires k <= |fs|
  {
    TotalSize(fs[..k])
  }

  /** Field k's bytes are found at its offset, whatever follows. */
  lemma {:induction false} EncodeAt(fs: seq<Field>, k: nat, rest: seq<byte>)
    requires k < |fs|
    ensures Offset(fs, k) + Size(fs[k]) <= TotalSize(fs)
    ensures (Encode(fs) + rest)[Offset(fs, k)..Offset(fs, k) + Size(fs[k])] == FieldBytes(fs[k])
    decreases |fs|
  {
    var init := fs[..|fs| - 1];
    assert fs[..|fs|] == fs;
    if k == |fs| - 1 {
      assert fs[..k] == init;
    } else {
      assert init[..k] == fs[..k];
      assert init[k] == fs[k];
      EncodeAt(init, k, FieldBytes(fs[|fs| - 1]) + rest);
      assert Encode(fs) + rest == Encode(init) + (FieldBytes(fs[|fs| - 1]) + rest);
    }
  }

  lemma OffsetStep(fs: seq<Field>, k: nat)
    requires k < |fs|
    ensures Offset(fs, k + 1) == Offset(fs, k) + Size(fs[k])
  {
    assert fs[..k + 1][..k] == fs[..k];
  }

  /** Lines 35-49: the thirteen writes, for a file of `2n + 44` bytes. The
      data size is written as `length - pos - 4` with `pos` at 40. */
  function HeaderFields(n: nat): (fs: seq<Field>)
    ensures |fs| == 13
    ensures fs[12].value == 2 * n && fs[1].value == fs[12].value + 36
    ensures fs[8].value == fs[7].value * fs[9].value
    ensures fs[9].value * 8 == fs[6].value * fs[10].value
  {
    var length := 2 * n + 44;
    [ U32(0x46464952), U32(length - 8), U32(0x45564157),
      U32(0x20746d66), U32(16), U16(1), U16(1),
      U32(16000), U32(16000 * 2), U16(2), U16(16),
      U32(0x61746164), U32(length - 40 - 4) ]
  }

  /** Where each header field starts; the header is 44 bytes long. */
  lemma HeaderOffsets(n: nat)
    ensures var h := HeaderFields(n);
      && Offset(h, 1) == 4 && Offset(h, 2) == 8 && Offset(h, 3) == 12 && Offset(h, 4) == 16
      && Offset(h, 5) == 20 && Offset(h, 6) == 22 && Offset(h, 7) == 24 && Offset(h, 8) == 28
      && Offset(h, 9) == 32 && Offset(h, 10) == 34 && Offset(h, 11) == 36 && Offset(h, 12) == 40
      && TotalSize(h) == 44
  {
    var h := HeaderFields(n);
    assert h[..0] == [];
    OffsetStep(h, 0); OffsetStep(h, 1); OffsetStep(h, 2); OffsetStep(h, 3);
    OffsetStep(h, 4); OffsetStep(h, 5); OffsetStep(h, 6); OffsetStep(h, 7);
    OffsetStep(h, 8); OffsetStep(h, 9); OffsetStep(h, 10); OffsetStep(h, 11);
    OffsetStep(h, 12);
    assert h[..13] == h;
  }

  function Header(n: nat): (h: seq<byte>)
    ensures |h| == 44
  {
    HeaderOffsets(n);
    Encode(HeaderFields(n))
  }

  /** The data bytes as the loop leaves them: byte k holds half of sample
      `k / 2 + 44` while that index exists, and is still zero after that. */
  function DataAsWritten(m: seq<real>): (d: seq<byte>)
    ensures |d| == 2 * |m|
  {
    seq(2 * |m|, k requires 0 <= k < 2 * |m| =>
      if k / 2 + 44 < |m| then Le16(Quantise(m[k / 2 + 44]))[k % 2] else 0)
  }

  function WavAsWritten(m: seq<real>): seq<byte> {
    Header(|m|) + DataAsWritten(m)
  }

  /** The data bytes that were evidently intended: sample i at 2 * i. */
  function DataIntended(m: seq<real>): (d: seq<byte>)
    ensures |d| == 2 * |m|
  {
    seq(2 * |m|, k requires 0 <= k < 2 * |m| => Le16(Quantise(m[k / 2]))[k % 2])
  }

  function WavIntended(m: seq<real>): seq<byte> {
    Header(|m|) + DataIntended(m)
  }

  /** A 32-bit header field reads back modulo 2^32 at its offset. */
  lemma ReadField32(n: nat, k: nat, at: nat, data: seq<byte>)
    requires k < 13 && HeaderFields(n)[k].U32? && at == Offset(HeaderFields(n), k)
    ensures at + 4 <= |Header(n) + data|
    ensures ReadUint32(Header(n) + data, at) == HeaderFields(n)[k].value % 0x1_0000_0000
  {
    var fs := HeaderFields(n);
    EncodeAt(fs, k, data);
    var w := Header(n) + data;
    assert w[at..at + 4] == Le32(fs[k].value);
    Le32RoundTrip(fs[k].value);
    assert ReadUint32(w, at) == ReadUint32(w[at..at + 4], 0);
  }

  /** A 16-bit header field reads back modulo 2^16 at its offset. */
  lemma ReadField16(n: nat, k: nat, at: nat, data: seq<byte>)
    requires k < 13 && HeaderFields(n)[k].U16? && at == Offset(HeaderFields(n), k)
    requires 0 <= HeaderFields(n)[k].value < 0x1_0000
    ensures at + 2 <= |Header(n) + data|
    ensures ReadUint16(Header(n) + data, at) == HeaderFields(n)[k].value
  {
    var fs := HeaderFields(n);
    EncodeAt(fs, k, data);
    var w := Header(n) + data;
    assert w[at..at + 2] == Le16(fs[k].value);
    Le16Unsigned(fs[k].value);
    assert ReadUint16(w, at) == ReadUint16(w[at..at + 2], 0);
  }

  /** The tag written by a 32-bit field. */
  lemma TagField(n: nat, k: nat, at: nat, data: seq<byte>)
    requires k < 13 && HeaderFields(n)[k].U32? && at == Offset(HeaderFields(n), k)
    ensures at + 4 <= |Header(n) + data|
    ensures (Header(n) + data)[at..at + 4] == Le32(HeaderFields(n)[k].value)
  {
    EncodeAt(HeaderFields(n), k, data);
  }

  /** The little-endian bytes of the four tag constants. */
  lemma TagBytes()
    ensures Le32(0x46464952) == [0x52, 0x49, 0x46, 0x46]
    ensures Le32(0x45564157) == [0x57, 0x41, 0x56, 0x45]
    ensures Le32(0x20746d66) == [0x66, 0x6d, 0x74, 0x20]
    ensures Le32(0x61746164) == [0x64, 0x61, 0x74, 0x61]
  {
    TagValue(0x46464952, 0x52, 0x49, 0x46, 0x46);
    TagValue(0x45564157, 0x57, 0x41, 0x56, 0x45);
    TagValue(0x20746d66, 0x66, 0x6d, 0x74, 0x20);
    TagValue(0x61746164, 0x64, 0x61, 0x74, 0x61);
  }

  /** Four bytes read back from the 32-bit value they make up. */
  lemma TagValue(v: int, b0: byte, b1: byte, b2: byte, b3: byte)
    requires v == b0 as int + 0x100 * b1 as int + 0x1_0000 * b2 as int + 0x100_0000 * b3 as int
    ensures Le32(v) == [b0, b1, b2, b3]
  {
    var u := v % 0x1_0000_0000;
    assert u == v;
    assert u % 256 == b0 as int;
    assert u / 256 == b1 as int + 0x100 * b2 as int + 0x1_0000 * b3 as int;
    assert u / 0x1_0000 == b2 as int + 0x100 * b3 as int;
    assert u / 0x100_0000 == b3 as int;
  }

  /** The four chunk tags, whichever data bytes follow. */
  lemma HeaderTags(n: nat, data: seq<byte>)
    ensures var w := Header(n) + data;
      && |w| == 44 + |data|
      && Tag(w, 0) == "RIFF" && Tag(w, 8) == "WAVE" && Tag(w, 12) == "fmt " && Tag(w, 36) == "data"
  {
    HeaderOffsets(n);
    var w := Header(n) + data;
    assert HeaderFields(n)[..0] == [];
    TagField(n, 0, 0, data);
    TagField(n, 2, 8, data);
    TagField(n, 3, 12, data);
    TagField(n, 11, 36, data);
    TagBytes();
    TagOfBytes(w, 0, [0x52, 0x49, 0x46, 0x46]);
    TagOfBytes(w, 8, [0x57, 0x41, 0x56, 0x45]);
    TagOfBytes(w, 12, [0x66, 0x6d, 0x74, 0x20]);
    TagOfBytes(w, 36, [0x64, 0x61, 0x74, 0x61]);
    TagNames();
  }

  /** A tag is read from the four bytes at its position alone. */
  lemma TagOfBytes(w: seq<byte>, at: nat, t: seq<byte>)
    requires at + 4 <= |w| && w[at..at + 4] == t
    ensures Tag(w, at) == Tag(t, 0)
  {
    assert w[at] == t[0] && w[at + 1] == t[1] && w[at + 2] == t[2] && w[at + 3] == t[3];
  }

  /** The ASCII spelling of the four tags. */
  lemma TagNames()
    ensures Tag([0x52, 0x49, 0x46, 0x46], 0) == "RIFF"
    ensures Tag([0x57, 0x41, 0x56, 0x45], 0) == "WAVE"
    ensures Tag([0x66, 0x6d, 0x74, 0x20], 0) == "fmt "
    ensures Tag([0x64, 0x61, 0x74, 0x61], 0) == "data"
  {
  }

  /** The `fmt ` chunk: 16 bytes of PCM format (1), one channel, 16000
      samples per second, 32000 bytes per second, 2-byte frames of 16 bits. */
  lemma HeaderFormat(n: nat, data: seq<byte>)
    ensures var w := Header(n) + data;
      && |w| == 44 + |data|
      && ReadUint32(w, 16) == 16
      && ReadUint16(w, 20) == 1
      && ReadUint16(w, 22) == 1
      && ReadUint32(w, 24) == 16000
      && ReadUint32(w, 28) == 32000
      && ReadUint16(w, 32) == 2
      && ReadUint16(w, 34) == 16
  {
    HeaderOffsets(n);
    ReadField32(n, 4, 16, data);
    ReadField16(n, 5, 20, data);
    ReadField16(n, 6, 22, data);
    ReadField32(n, 7, 24, data);
    ReadField32(n, 8, 28, data);
    ReadField16(n, 9, 32, data);
    ReadField16(n, 10, 34, data);
  }

  /** The two size fields: the RIFF size is the file length less 8 and the
      data size the file length less 44, both stored modulo 2^32. */
  lemma HeaderSizes(n: nat, data: seq<byte>)
    ensures var w := Header(n) + data;
      && |w| == 44 + |data|
      && ReadUint32(w, 4) == (2 * n + 36) % 0x1_0000_0000
      && ReadUint32(w, 40) == (2 * n) % 0x1_0000_0000
  {
    HeaderOffsets(n);
    ReadField32(n, 1, 4, data);
    ReadField32(n, 12, 40, data);
  }

  /** Both size fields are exact while the file fits the 32-bit RIFF sizes. */
  lemma SizeFields(m: seq<real>)
    requires 2 * |m| + 44 <= 0x1_0000_0000
    ensures |WavAsWritten(m)| == 2 * |m| + 44
    ensures ReadUint32(WavAsWritten(m), 4) == |WavAsWritten(m)| - 8
    ensures ReadUint32(WavAsWritten(m), 40) == |WavAsWritten(m)| - 44
  {
    var n := |m|;
    assert WavAsWritten(m) == Header(n) + DataAsWritten(m);
    HeaderSizes(n, DataAsWritten(m));
    SmallMod(2 * n + 36);
    SmallMod(2 * n);
  }

  lemma SmallMod(x: int)
    requires 0 <= x < 0x1_0000_0000
    ensures x % 0x1_0000_0000 == x
  {
  }

  /** As written, sample i (44 <= i < n) is found 44 slots early. */
  lemma AsWrittenSampleAt(m: seq<real>, i: nat)
    requires 44 <= i < |m|
    ensures 44 + 2 * (i - 44) + 2 <= |WavAsWritten(m)|
    ensures ReadInt16(WavAsWritten(m), 44 + 2 * (i - 44)) == Quantise(m[i])
  {
    var w := WavAsWritten(m);
    var at := 44 + 2 * (i - 44);
    assert w[at] == Le16(Quantise(m[i]))[0];
    assert w[at + 1] == Le16(Quantise(m[i]))[1];
    Le16RoundTrip(Quantise(m[i]));
  }

  /** As written, the last 88 data bytes (all of them when n <= 44) stay 0. */
  lemma AsWrittenTailZero(m: seq<real>, k: nat)
    requires 44 <= k < |WavAsWritten(m)|
    requires k >= 2 * |m| - 44
    ensures WavAsWritten(m)[k] == 0
  {
    assert WavAsWritten(m)[k] == DataAsWritten(m)[k - 44];
  }

  /** As intended, sample i of every i < n is read back at byte 44 + 2i. */
  lemma IntendedSampleAt(m: seq<real>, i: nat)
    requires i < |m|
    ensures 44 + 2 * i + 2 <= |WavIntended(m)|
    ensures ReadInt16(WavIntended(m), 44 + 2 * i) == Quantise(m[i])
  {
    var w := WavIntended(m);
    assert w[44 + 2 * i] == Le16(Quantise(m[i]))[0];
    assert w[44 + 2 * i + 1] == Le16(Quantise(m[i]))[1];
    Le16RoundTrip(Quantise(m[i]));
  }

  /** A silent frame encodes to silence of the same length, either way. */
  lemma SilenceRoundTrip(m: seq<real>)
    requires forall i :: 0 <= i < |m| ==> m[i] == 0.0
    ensures |WavAsWritten(m)| == |WavIntended(m)| == 2 * |m| + 44
    ensures forall k :: 44 <= k < 2 * |m| + 44 ==> WavAsWritten(m)[k] == 0 && WavIntended(m)[k] == 0
  {
    QuantiseExtremes(0.0);
    assert Le16(0) == [0, 0];
    forall k | 0 <= k < 2 * |m|
      ensures DataAsWritten(m)[k] == 0 && DataIntended(m)[k] == 0
    {
    }
    forall k | 44 <= k < 2 * |m| + 44
      ensures WavAsWritten(m)[k] == 0 && WavIntended(m)[k] == 0
    {
      assert WavAsWritten(m)[k] == DataAsWritten(m)[k - 44];
      assert WavIntended(m)[k] == DataIntended(m)[k - 44];
    }
  }

  /** The input that shows the misplaced loop: a one-sample buffer holding
      1.0 is written as silence, where 32767 was meant. */
  lemma FirstSampleLost()
    ensures ReadInt16(WavAsWritten([1.0]), 44) == 0
    ensures ReadInt16(WavIntended([1.0]), 44) == 0x7FFF
  {
    IntendedSampleAt([1.0], 0);
    QuantiseExtremes(1.0);
    AsWrittenTailZero([1.0], 44);
    AsWrittenTailZero([1.0], 45);
  }

  // ---------------------------------------------------------------------
  // The writer

  ghost function Zeros(k: nat): (z: seq<byte>)
    ensures |z| == k
  {
    seq(k, _ => 0)
  }

  /** `setUint16`: store 2 bytes at `pos` and advance it by 2. The ghost
      `written` lists the header writes made so far; the rest of the buffer
      is still zero. */
  method SetUint16(view: array<byte>, pos: nat, data: int, ghost written: seq<Field>) returns (next: nat)
    requires pos == TotalSize(written) && pos + 2 <= view.Length
    requires view[..] == Encode(written) + Zeros(view.Length - pos)
    modifies view
    ensures next == pos + 2 && next == TotalSize(written + [U16(data)])
    ensures view[..] == Encode(written + [U16(data)]) + Zeros(view.Length - next)
  {
    AppendField(written, U16(data));
    var b := Le16(data);
    ghost var before := view[..];
    Store2(view, pos, b);
    StoreBytes(before, view[..], Encode(written), b);
    next := pos + 2;
  }

  /** `setUint32`: store 4 bytes at `pos` and advance it by 4. */
  method SetUint32(view: array<byte>, pos: nat, data: int, ghost written: seq<Field>) returns (next: nat)
    requires pos == TotalSize(written) && pos + 4 <= view.Length
    requires view[..] == Encode(written) + Zeros(view.Length - pos)
    modifies view
    ensures next == pos + 4 && next == TotalSize(written + [U32(data)])
    ensures view[..] == Encode(written + [U32(data)]) + Zeros(view.Length - next)
  {
    AppendField(written, U32(data));
    var b := Le32(data);
    ghost var before := view[..];
    Store4(view, pos, b);
    StoreBytes(before, view[..], Encode(written), b);
    next := pos + 4;
  }

  /** The two byte stores of a 16-bit setter. */
  method Store2(view: array<byte>, pos: nat, b: seq<byte>)
    requires |b| == 2 && pos + 2 <= view.Length
    modifies view
    ensures view[..] == old(view[..])[..pos] + b + old(view[..])[pos + 2..]
  {
    view[pos] := b[0];
    view[pos + 1] := b[1];
  }

  /** The four byte stores of a 32-bit setter. */
  method Store4(view: array<byte>, pos: nat, b: seq<byte>)
    requires |b| == 4 && pos + 4 <= view.Length
    modifies view
    ensures view[..] == old(view[..])[..pos] + b + old(view[..])[pos + 4..]
  {
    view[pos] := b[0];
    view[pos + 1] := b[1];
    view[pos + 2] := b[2];
    view[pos + 3] := b[3];
  }

  /** Bytes stored right after the written prefix of a zeroed buffer extend
      that prefix. */
  lemma StoreBytes(before: seq<byte>, after: seq<byte>, prefix: seq<byte>, b: seq<byte>)
    requires |prefix| + |b| <= |before| && before == prefix + Zeros(|before| - |prefix|)
    requires after == before[..|prefix|] + b + before[|prefix| + |b|..]
    ensures after == prefix + b + Zeros(|after| - |prefix| - |b|)
  {
    assert before[..|prefix|] == prefix;
    assert before[|prefix| + |b|..] == Zeros(|before| - |prefix| - |b|);
  }

  lemma AppendField(fs: seq<Field>, f: Field)
    ensures Encode(fs + [f]) == Encode(fs) + FieldBytes(f)
    ensures TotalSize(fs + [f]) == TotalSize(fs) + Size(f)
  {
    assert (fs + [f])[..|fs|] == fs;
  }

  /** `view.setInt16(at, sample, true)`: the same two bytes as `Le16`. */
  method SetInt16(view: array<byte>, at: nat, sample: int)
    requires at + 2 <= view.Length
    modifies view
    ensures view[..] == old(view[..])[..at] + Le16(sample) + old(view[..])[at + 2..]
  {
    var b := Le16(sample);
    view[at] := b[0];
    view[at + 1] := b[1];
  }

  /** Lines 35-37: the RIFF chunk descriptor, from `pos` 0 to 12. */
  method WriteRiffDescriptor(view: array<byte>, length: int) returns (pos: nat, ghost h: seq<Field>)
    requires view.Length >= 44 && view[..] == Zeros(view.Length)
    modifies view
    ensures pos == 12 == TotalSize(h)
    ensures h == [] + [U32(0x46464952)] + [U32(length - 8)] + [U32(0x45564157)]
    ensures view[..] == Encode(h) + Zeros(view.Length - pos)
  {
    h := [];
    assert view[..] == Encode(h) + Zeros(view.Length - 0);
    pos := 0;
    pos := SetUint32(view, pos, 0x46464952, h);  h := h + [U32(0x46464952)];
    pos := SetUint32(view, pos, length - 8, h);  h := h + [U32(length - 8)];
    pos := SetUint32(view, pos, 0x45564157, h);  h := h + [U32(0x45564157)];
  }

  /** Lines 39-42: the `fmt ` sub-chunk's tag, size, format and channels. */
  method WriteFmtHead(view: array<byte>, pos0: nat, ghost h0: seq<Field>) returns (pos: nat, ghost h: seq<Field>)
    requires pos0 == TotalSize(h0) && pos0 + 12 <= view.Length
    requires view[..] == Encode(h0) + Zeros(view.Length - pos0)
    modifies view
    ensures pos == pos0 + 12 == TotalSize(h)
    ensures h == h0 + [U32(0x20746d66)] + [U32(16)] + [U16(1)] + [U16(1)]
    ensures view[..] == Encode(h) + Zeros(view.Length - pos)
  {
    pos, h := pos0, h0;
    pos := SetUint32(view, pos, 0x20746d66, h);  h := h + [U32(0x20746d66)];
    pos := SetUint32(view, pos, 16, h);          h := h + [U32(16)];
    pos := SetUint16(view, pos, 1, h);           h := h + [U16(1)];
    pos := SetUint16(view, pos, 1, h);           h := h + [U16(1)];
  }

  /** Lines 43-46: sample rate, byte rate, block align, bits per sample. */
  method WriteFmtRates(view: array<byte>, pos0: nat, ghost h0: seq<Field>) returns (pos: nat, ghost h: seq<Field>)
    requires pos0 == TotalSize(h0) && pos0 + 12 <= view.Length
    requires view[..] == Encode(h0) + Zeros(view.Length - pos0)
    modifies view
    ensures pos == pos0 + 12 == TotalSize(h)
    ensures h == h0 + [U32(16000)] + [U32(16000 * 2)] + [U16(2)] + [U16(16)]
    ensures view[..] == Encode(h) + Zeros(view.Length - pos)
  {
    pos, h := pos0, h0;
    pos := SetUint32(view, pos, 16000, h);       h := h + [U32(16000)];
    pos := SetUint32(view, pos, 16000 * 2, h);   h := h + [U32(16000 * 2)];
    pos := SetUint16(view, pos, 2, h);           h := h + [U16(2)];
    pos := SetUint16(view, pos, 16, h);          h := h + [U16(16)];
  }

  /** Lines 35-49: the thirteen header writes, leaving `pos` at 44. The
      data size is written as `length - pos - 4` while `pos` is 40. */
  method WriteHeader(view: array<byte>, n: nat) returns (pos: nat)
    requires view[..] == Zeros(2 * n + 44)
    modifies view
    ensures pos == 44
    ensures view[..] == Header(n) + Zeros(2 * n)
  {
    var length := 2 * n + 44;
    ghost var h: seq<Field>;
    pos, h := WriteRiffDescriptor(view, length);
    pos, h := WriteFmtHead(view, pos, h);
    pos, h := WriteFmtRates(view, pos, h);
    pos := SetUint32(view, pos, 0x61746164, h);  h := h + [U32(0x61746164)];
    assert pos == 40;
    pos := SetUint32(view, pos, length - pos - 4, h);  h := h + [U32(length - 40 - 4)];
    HeaderFieldsParts(n);
    assert Encode(h) == Header(n);
  }

  /** The thirteen header fields, grouped as the writers above produce them. */
  lemma HeaderFieldsParts(n: nat)
    ensures var length := 2 * n + 44;
      HeaderFields(n)
      == [] + [U32(0x46464952)] + [U32(length - 8)] + [U32(0x45564157)]
         + [U32(0x20746d66)] + [U32(16)] + [U16(1)] + [U16(1)]
         + [U32(16000)] + [U32(16000 * 2)] + [U16(2)] + [U16(16)]
         + [U32(0x61746164)] + [U32(length - 40 - 4)]
  {
  }

  /** The state of the output while the data loop runs: the header `h` is
      in place, the first `count` data bytes are those of `data`, and the
      rest are still zero. */
  ghost predicate Filled(s: seq<byte>, h: seq<byte>, data: seq<byte>, count: nat) {
    && |h| == 44 && |s| == 44 + |data| && count <= |data|
    && s[..44] == h
    && forall k :: 44 <= k < |s| ==> s[k] == if k - 44 < count then data[k - 44] else 0
  }

  lemma FillStart(n: nat, data: seq<byte>)
    requires |data| == 2 * n
    ensures Filled(Header(n) + Zeros(2 * n), Header(n), data, 0)
  {
    var s := Header(n) + Zeros(2 * n);
    assert s[..44] == Header(n);
    forall k | 44 <= k < |s| ensures s[k] == 0 {
      assert s[k] == Zeros(2 * n)[k - 44];
    }
  }

  /** One `setInt16` at data byte `count` extends the filled part by two. */
  lemma FillStep(s: seq<byte>, s': seq<byte>, h: seq<byte>, data: seq<byte>, count: nat, q: int)
    requires Filled(s, h, data, count) && count + 2 <= |data|
    requires data[count] == Le16(q)[0] && data[count + 1] == Le16(q)[1]
    requires s' == s[..44 + count] + Le16(q) + s[44 + count + 2..]
    ensures Filled(s', h, data, count + 2)
  {
    assert s'[..44] == s[..44];
    forall k | 44 <= k < |s'|
      ensures s'[k] == if k - 44 < count + 2 then data[k - 44] else 0
    {
      if k < 44 + count {
        assert s'[k] == s[k];
      } else if k < 44 + count + 2 {
        assert s'[k] == Le16(q)[k - 44 - count];
      } else {
        assert s'[k] == s[k];
      }
    }
  }

  /** Bytes that are zero in `data` need no write. */
  lemma FillZeroTail(s: seq<byte>, h: seq<byte>, data: seq<byte>, count: nat)
    requires Filled(s, h, data, count)
    requires forall k :: count <= k < |data| ==> data[k] == 0
    ensures Filled(s, h, data, |data|) && s == h + data
  {
    assert s == s[..44] + s[44..];
    assert s[44..] == data;
  }

  /** As written, data bytes `2i` and `2i + 1` hold sample `i + 44`. */
  lemma AsWrittenPair(m: seq<real>, pos: nat, count: nat)
    requires 44 <= pos < |m| && count == 2 * (pos - 44)
    ensures DataAsWritten(m)[count] == Le16(Quantise(m[pos]))[0]
    ensures DataAsWritten(m)[count + 1] == Le16(Quantise(m[pos]))[1]
  {
    assert count / 2 + 44 == pos && (count + 1) / 2 + 44 == pos;
    assert count % 2 == 0 && (count + 1) % 2 == 1;
  }

  /** As intended, data bytes `2i` and `2i + 1` hold sample `i`. */
  lemma IntendedPair(m: seq<real>, i: nat)
    requires i < |m|
    ensures DataIntended(m)[2 * i] == Le16(Quantise(m[i]))[0]
    ensures DataIntended(m)[2 * i + 1] == Le16(Quantise(m[i]))[1]
  {
    assert (2 * i) / 2 == i && (2 * i + 1) / 2 == i && (2 * i) % 2 == 0 && (2 * i + 1) % 2 == 1;
  }

  /** One turn of the data loop (lines 53-56): clamp, scale and truncate
      the sample, then `setInt16` it at data byte `count`, which extends the
      filled part by two. */
  method WriteSample(view: array<byte>, at: nat, s: real,
                     ghost h: seq<byte>, ghost data: seq<byte>, ghost count: nat)
    requires Filled(view[..], h, data, count) && at == 44 + count && count + 2 <= |data|
    requires data[count] == Le16(Quantise(s))[0] && data[count + 1] == Le16(Quantise(s))[1]
    modifies view
    ensures Filled(view[..], h, data, count + 2)
  {
    var sample := Clamp(s);
    var scaled := if 0.5 + sample < 0.0 then sample * 32768.0 else sample * 32767.0;
    var q := TruncToInt(scaled);
    assert q == Quantise(s);
    ghost var before := view[..];
    SetInt16(view, at, q);
    FillStep(before, view[..], h, data, count, q);
  }

  /** `audioBufferToWav` as written (lines 9-60). Every sample write lies
      inside the buffer (the array indexing is checked). */
  method AudioBufferToWav(buffer: AudioBuffer) returns (wav: array<byte>)
    ensures wav[..] == WavAsWritten(Mono(buffer))
  {
    var numOfChan := 1;
    var n := FrameCount(buffer);
    var length := n * numOfChan * 2 + 44;
    var view := new byte[length](_ => 0);
    var offset := 0;
    var monoData := MixDownToMono(buffer);
    ghost var m := monoData[..];
    ghost var data := DataAsWritten(m);
    assert view[..] == Zeros(2 * n + 44);
    var pos := WriteHeader(view, n);
    ghost var h := Header(n);
    FillStart(n, data);
    while pos < n
      invariant 44 <= pos && (n > 44 ==> pos <= n)
      invariant offset == 2 * (pos - 44)
      invariant monoData[..] == m && |m| == n
      invariant Filled(view[..], h, data, offset)
    {
      var sample := monoData[pos];
      assert sample == m[pos];
      AsWrittenPair(m, pos, offset);
      WriteSample(view, 44 + offset, sample, h, data, offset);
      offset := offset + 2;
      pos := pos + 1;
    }
    forall k | offset <= k < |data| ensures data[k] == 0 {
      assert k / 2 + 44 >= n;
    }
    FillZeroTail(view[..], h, data, offset);
    wav := view;
  }

  /** The encoder that was evidently intended: sample i at byte 44 + 2i. */
  method AudioBufferToWavFixed(buffer: AudioBuffer) returns (wav: array<byte>)
    ensures wav[..] == WavIntended(Mono(buffer))
  {
    var n := FrameCount(buffer);
    var length := n * 2 + 44;
    var view := new byte[length](_ => 0);
    var monoData := MixDownToMono(buffer);
    ghost var m := monoData[..];
    ghost var data := DataIntended(m);
    assert view[..] == Zeros(2 * n + 44);
    var pos := WriteHeader(view, n);
    ghost var h := Header(n);
    FillStart(n, data);
    var i := 0;
    while i < n
      invariant 0 <= i <= n
      invariant monoData[..] == m && |m| == n
      invariant Filled(view[..], h, data, 2 * i)
    {
      var sample := monoData[i];
      assert sample == m[i];
      IntendedPair(m, i);
      WriteSample(view, pos + 2 * i, sample, h, data, 2 * i);
      i := i + 1;
    }
    FillZeroTail(view[..], h, data, 2 * i);
    wav := view;
  }
}

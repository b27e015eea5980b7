/**
 * `encodeWAV`: a buffer of 44 + 2n bytes is allocated and filled through a
 * little-endian `DataView`: the canonical PCM header of the RIFF WAVE format
 * (mono, 16 bits, a `fmt ` chunk of size 16, then a `data` chunk) followed by
 * every sample as a signed 16-bit value.
 */
module WavEncoder {
  import opened Pcm

  // ---------------------------------------------------------------------
  // What the DataView setters store
  // ---------------------------------------------------------------------

  /** `setUint16(_, v, true)` and `setInt16(_, v, true)`: v modulo 2^16, low byte first. */
  function Uint16Bytes(v: int): (b: seq<Byte>)
    ensures |b| == 2
  {
    var m := v % 0x1_0000;
    [m % 0x100, m / 0x100]
  }

  /** `setUint32(_, v, true)`: v modulo 2^32, least significant byte first. */
  function Uint32Bytes(v: int): (b: seq<Byte>)
    ensures |b| == 4
  {
    var m0 := v % 0x1_0000_0000;
    var m1 := m0 / 0x100;
    var m2 := m1 / 0x100;
    var m3 := m2 / 0x100;
    [m0 % 0x100, m1 % 0x100, m2 % 0x100, m3]
  }

  /** `writeString`: the character codes, each stored by `setUint8` (modulo 2^8). */
  function CharCodes(s: string): (b: seq<Byte>)
    ensures |b| == |s|
  {
    seq(|s|, i requires 0 <= i < |s| => (s[i] as int) % 0x100)
  }

  // ---------------------------------------------------------------------
  // What a little-endian reader gets back
  // ---------------------------------------------------------------------

  function GetUint16(b: seq<Byte>, offset: nat): int
    requires offset + 2 <= |b|
  {
    Uint16LE(b[offset], b[offset + 1])
  }

  /** The signed reading is exactly the decoder's: sign extension of the little-endian pair. */
  function GetInt16(b: seq<Byte>, offset: nat): Int16
    requires offset + 2 <= |b|
  {
    SignExtend16(GetUint16(b, offset))
  }

  function GetUint32(b: seq<Byte>, offset: nat): int
    requires offset + 4 <= |b|
  {
    (b[offset] as int) + 0x100 * (b[offset + 1] as int) + 0x1_0000 * (b[offset + 2] as int) + 0x100_0000 * (b[offset + 3] as int)
  }

  lemma Uint16BytesRead(v: int)
    ensures GetUint16(Uint16Bytes(v), 0) == v % 0x1_0000
  {
  }

  /** A stored sample reads back unchanged. */
  lemma Int16BytesRead(s: Int16)
    ensures GetInt16(Uint16Bytes(s), 0) == s
  {
    Uint16BytesRead(s);
  }

  /** A stored 32-bit field reads back as the value modulo 2^32. */
  lemma Uint32BytesRead(v: int)
    ensures GetUint32(Uint32Bytes(v), 0) == v % 0x1_0000_0000
  {
    var m0 := v % 0x1_0000_0000;
    var m1 := m0 / 0x100;
    var m2 := m1 / 0x100;
    var m3 := m2 / 0x100;
    assert m0 == m0 % 0x100 + 0x100 * m1;
    assert m1 == m1 % 0x100 + 0x100 * m2;
    assert m2 == m2 % 0x100 + 0x100 * m3;
  }

  // ---------------------------------------------------------------------
  // The file the encoder produces
  // ---------------------------------------------------------------------

  /** Bytes 0..11: "RIFF", the size of the rest of the file (36 + 2n), "WAVE". */
  function RiffHeader(numSamples: nat): (b: seq<Byte>)
    ensures |b| == 12
  {
    CharCodes("RIFF") + Uint32Bytes(36 + numSamples * 2) + CharCodes("WAVE")
  }

  /**
   * Bytes 12..35, the `fmt ` chunk: its size 16, PCM format 1, one channel,
   * the sample rate, the byte rate 2·rate, block align 2, 16 bits per sample.
   */
  function FmtChunk(sampleRate: int): (b: seq<Byte>)
    ensures |b| == 24
  {
    CharCodes("fmt ") + Uint32Bytes(16) + Uint16Bytes(1) + Uint16Bytes(1)
    + Uint32Bytes(sampleRate) + Uint32Bytes(sampleRate * 2) + Uint16Bytes(2) + Uint16Bytes(16)
  }

  /** Bytes 36..43: "data" and the payload size 2n. */
  function DataHeader(numSamples: nat): (b: seq<Byte>)
    ensures |b| == 8
  {
    CharCodes("data") + Uint32Bytes(numSamples * 2)
  }

  /** The 44 header bytes for `numSamples` samples at `sampleRate`. */
  function WavHeader(numSamples: nat, sampleRate: int): (header: seq<Byte>)
    ensures |header| == 44
  {
    RiffHeader(numSamples) + FmtChunk(sampleRate) + DataHeader(numSamples)
  }

  /** The samples as consecutive little-endian 16-bit values. */
  function PcmBytes(samples: seq<Int16>): (payload: seq<Byte>)
    ensures |payload| == 2 * |samples|
  {
    if samples == [] then []
    else PcmBytes(samples[..|samples| - 1]) + Uint16Bytes(samples[|samples| - 1])
  }

  function WavFile(samples: seq<Int16>, sampleRate: int): (wav: seq<Byte>)
    ensures |wav| == 44 + 2 * |samples|
  {
    WavHeader(|samples|, sampleRate) + PcmBytes(samples)
  }

  /** One stored sample decodes, by the chunk decoder, to itself. */
  lemma SampleRoundTrip(s: Int16)
    ensures DecodeSamples(Uint16Bytes(s)) == [s]
  {
    Int16BytesRead(s);
    assert DecodeSamples(Uint16Bytes(s))[0] == GetInt16(Uint16Bytes(s), 0);
  }

  /** Decoding the payload with the chunk decoder gives back the samples. */
  lemma {:induction false} PcmBytesDecode(samples: seq<Int16>)
    ensures DecodeSamples(PcmBytes(samples)) == samples
  {
    if samples != [] {
      var init, last := samples[..|samples| - 1], samples[|samples| - 1];
      PcmBytesDecode(init);
      DecodeSplits(PcmBytes(init), Uint16Bytes(last));
      SampleRoundTrip(last);
      assert samples == init + [last];
    }
  }

  // ---------------------------------------------------------------------
  // Reading the fields back
  // ---------------------------------------------------------------------

  /** A prefix written as `prefix + field` holds `field` right after `prefix`. */
  lemma FieldAt(b: seq<Byte>, prefix: seq<Byte>, field: seq<Byte>)
    requires |prefix| + |field| <= |b| && b[..|prefix| + |field|] == prefix + field
    ensures b[..|prefix|] == prefix
    ensures b[|prefix|..|prefix| + |field|] == field
  {
    assert b[..|prefix|] == b[..|prefix| + |field|][..|prefix|];
    assert b[|prefix|..|prefix| + |field|] == b[..|prefix| + |field|][|prefix|..];
  }

  lemma Uint32At(b: seq<Byte>, offset: nat, v: int)
    requires offset + 4 <= |b| && b[offset..offset + 4] == Uint32Bytes(v)
    ensures GetUint32(b, offset) == v % 0x1_0000_0000
  {
    Uint32BytesRead(v);
    assert b[offset + 3] == Uint32Bytes(v)[3];
  }

  /** A field read inside a slice is the field read at the shifted offset of the whole. */
  lemma ReadInSlice(b: seq<Byte>, start: nat, end: nat, offset: nat)
    requires start <= end <= |b| && offset + 2 <= end - start
    ensures offset + 4 <= end - start ==> GetUint32(b[start..end], offset) == GetUint32(b, start + offset)
    ensures GetUint16(b[start..end], offset) == GetUint16(b, start + offset)
  {
  }

  /** The RIFF header: the two tags and the remaining size 36 + 2n modulo 2^32. */
  lemma RiffHeaderFields(numSamples: nat)
    ensures var h := RiffHeader(numSamples);
      h[0..4] == CharCodes("RIFF") &&
      GetUint32(h, 4) == (36 + 2 * numSamples) % 0x1_0000_0000 &&
      h[8..12] == CharCodes("WAVE")
  {
    var h := RiffHeader(numSamples);
    var l1 := CharCodes("RIFF");
    var l2 := l1 + Uint32Bytes(36 + numSamples * 2);
    FieldAt(h, l2, CharCodes("WAVE"));
    FieldAt(h, l1, Uint32Bytes(36 + numSamples * 2));
    Uint32At(h, 4, 36 + numSamples * 2);
  }

  /**
   * The `fmt ` chunk read back: size 16, format 1, one channel, the rate and
   * 2·rate modulo 2^32 (DataView wraps silently), block align 2, 16 bits.
   */
  lemma FmtChunkFields(sampleRate: int)
    ensures var f := FmtChunk(sampleRate);
      f[0..4] == CharCodes("fmt ") &&
      GetUint32(f, 4) == 16 &&
      GetUint16(f, 8) == 1 &&
      GetUint16(f, 10) == 1 &&
      GetUint32(f, 12) == sampleRate % 0x1_0000_0000 &&
      GetUint32(f, 16) == (2 * sampleRate) % 0x1_0000_0000 &&
      GetUint16(f, 20) == 2 &&
      GetUint16(f, 22) == 16
  {
    var f := FmtChunk(sampleRate);
    var l1 := CharCodes("fmt ");
    var l2 := l1 + Uint32Bytes(16);
    var l3 := l2 + Uint16Bytes(1);
    var l4 := l3 + Uint16Bytes(1);
    var l5 := l4 + Uint32Bytes(sampleRate);
    var l6 := l5 + Uint32Bytes(sampleRate * 2);
    var l7 := l6 + Uint16Bytes(2);
    FieldAt(f, l7, Uint16Bytes(16));
    FieldAt(f, l6, Uint16Bytes(2));
    FieldAt(f, l5, Uint32Bytes(sampleRate * 2));
    FieldAt(f, l4, Uint32Bytes(sampleRate));
    FieldAt(f, l3, Uint16Bytes(1));
    FieldAt(f, l2, Uint16Bytes(1));
    FieldAt(f, l1, Uint32Bytes(16));
    Uint32At(f, 4, 16);
    Uint32At(f, 12, sampleRate);
    Uint32At(f, 16, sampleRate * 2);
    assert f[8] == 1 && f[9] == 0 && f[10] == 1 && f[11] == 0 by {
      assert Uint16Bytes(1) == [1, 0];
    }
    assert f[20] == 2 && f[21] == 0 && f[22] == 16 && f[23] == 0 by {
      assert Uint16Bytes(2) == [2, 0] && Uint16Bytes(16) == [16, 0];
    }
  }

  /** The data chunk header: its tag and the payload size 2n modulo 2^32. */
  lemma DataHeaderFields(numSamples: nat)
    ensures var d := DataHeader(numSamples);
      d[0..4] == CharCodes("data") && GetUint32(d, 4) == (2 * numSamples) % 0x1_0000_0000
  {
    var d := DataHeader(numSamples);
    FieldAt(d, CharCodes("data"), Uint32Bytes(numSamples * 2));
    Uint32At(d, 4, numSamples * 2);
  }

  /** The file is the RIFF header, the `fmt ` chunk, the data header and the payload, in this order. */
  lemma WavFileChunks(samples: seq<Int16>, sampleRate: int)
    ensures var wav, n := WavFile(samples, sampleRate), |samples|;
      wav[0..12] == RiffHeader(n) &&
      wav[12..36] == FmtChunk(sampleRate) &&
      wav[36..44] == DataHeader(n) &&
      wav[44..] == PcmBytes(samples)
  {
    var wav, n := WavFile(samples, sampleRate), |samples|;
    assert wav[..44] == RiffHeader(n) + FmtChunk(sampleRate) + DataHeader(n);
    FieldAt(wav, RiffHeader(n) + FmtChunk(sampleRate), DataHeader(n));
    FieldAt(wav, RiffHeader(n), FmtChunk(sampleRate));
  }

  /** Offset 4 of the file: the RIFF size 36 + 2n, modulo 2^32. */
  lemma WavRiffSize(samples: seq<Int16>, sampleRate: int)
    ensures GetUint32(WavFile(samples, sampleRate), 4) == (36 + 2 * |samples|) % 0x1_0000_0000
  {
    WavFileChunks(samples, sampleRate);
    RiffHeaderFields(|samples|);
    ReadInSlice(WavFile(samples, sampleRate), 0, 12, 4);
  }

  /** Offset 40 of the file: the data size 2n, modulo 2^32. */
  lemma WavDataSize(samples: seq<Int16>, sampleRate: int)
    ensures GetUint32(WavFile(samples, sampleRate), 40) == (2 * |samples|) % 0x1_0000_0000
  {
    WavFileChunks(samples, sampleRate);
    DataHeaderFields(|samples|);
    ReadInSlice(WavFile(samples, sampleRate), 36, 44, 4);
  }

  /**
   * Offsets 12..35 of the file: the `fmt ` tag, chunk size 16, format 1, one
   * channel, the rate and 2·rate modulo 2^32, block align 2, 16 bits.
   */
  lemma WavFormatFields(samples: seq<Int16>, sampleRate: int)
    ensures var wav := WavFile(samples, sampleRate);
      wav[12..16] == CharCodes("fmt ") &&
      GetUint32(wav, 16) == 16 && GetUint16(wav, 20) == 1 && GetUint16(wav, 22) == 1 &&
      GetUint32(wav, 24) == sampleRate % 0x1_0000_0000 &&
      GetUint32(wav, 28) == (2 * sampleRate) % 0x1_0000_0000 &&
      GetUint16(wav, 32) == 2 && GetUint16(wav, 34) == 16
  {
    var wav := WavFile(samples, sampleRate);
    WavFileChunks(samples, sampleRate);
    FmtChunkFields(sampleRate);
    assert wav[12..16] == wav[12..36][0..4];
    ReadInSlice(wav, 12, 36, 4);
    ReadInSlice(wav, 12, 36, 8);
    ReadInSlice(wav, 12, 36, 10);
    ReadInSlice(wav, 12, 36, 12);
    ReadInSlice(wav, 12, 36, 16);
    ReadInSlice(wav, 12, 36, 20);
    ReadInSlice(wav, 12, 36, 22);
  }

  /** The four chunk tags of the file: "RIFF" at 0, "WAVE" at 8, "fmt " at 12, "data" at 36. */
  lemma WavTags(samples: seq<Int16>, sampleRate: int)
    ensures var wav := WavFile(samples, sampleRate);
      wav[0..4] == CharCodes("RIFF") && wav[8..12] == CharCodes("WAVE") &&
      wav[12..16] == CharCodes("fmt ") && wav[36..40] == CharCodes("data")
  {
    var wav, n := WavFile(samples, sampleRate), |samples|;
    WavFileChunks(samples, sampleRate);
    assert wav[0..4] == CharCodes("RIFF") && wav[8..12] == CharCodes("WAVE") by {
      RiffHeaderFields(n);
      assert wav[0..4] == wav[0..12][0..4] && wav[8..12] == wav[0..12][8..12];
    }
    assert wav[12..16] == CharCodes("fmt ") by {
      FmtChunkFields(sampleRate);
      assert wav[12..16] == wav[12..36][0..4];
    }
    assert wav[36..40] == CharCodes("data") by {
      DataHeaderFields(n);
      assert wav[36..40] == wav[36..44][0..4];
    }
  }

  /**
   * While 36 + 2n fits in 32 bits, the two size fields of the file are
   * exact: the RIFF size is the file length minus 8 and the data size is the
   * payload length.
   */
  lemma WavSizesExact(samples: seq<Int16>, sampleRate: int)
    requires 36 + 2 * |samples| < 0x1_0000_0000
    ensures var wav := WavFile(samples, sampleRate);
      GetUint32(wav, 4) == |wav| - 8 && GetUint32(wav, 40) == |wav| - 44
  {
    var n := |samples|;
    assert (36 + 2 * n) % 0x1_0000_0000 == 36 + 2 * n && (2 * n) % 0x1_0000_0000 == 2 * n;
    WavRiffSize(samples, sampleRate);
    WavDataSize(samples, sampleRate);
  }

  /** After the header, sample i sits at byte 44 + 2i and reads back as a signed 16-bit value. */
  lemma WavSamplesAt(samples: seq<Int16>, sampleRate: int)
    ensures var wav := WavFile(samples, sampleRate);
      forall i :: 0 <= i < |samples| ==> GetInt16(wav, 44 + 2 * i) == samples[i]
  {
    var wav := WavFile(samples, sampleRate);
    var payload := PcmBytes(samples);
    assert wav[44..] == payload;
    PcmBytesDecode(samples);
    forall i | 0 <= i < |samples| ensures GetInt16(wav, 44 + 2 * i) == samples[i] {
      assert wav[44 + 2 * i] == payload[2 * i] && wav[44 + 2 * i + 1] == payload[2 * i + 1];
      assert DecodeSamples(payload)[i] == samples[i];
    }
  }

  /** The bytes after the header decode, by the chunk decoder, to the encoded samples. */
  lemma WavPayloadRoundTrip(samples: seq<Int16>, sampleRate: int)
    ensures DecodeSamples(WavFile(samples, sampleRate)[44..]) == samples
  {
    assert WavFile(samples, sampleRate)[44..] == PcmBytes(samples);
    PcmBytesDecode(samples);
  }

  // ---------------------------------------------------------------------
  // The encoder: a fixed-size buffer written through a DataView
  // ---------------------------------------------------------------------

  /** `view.setUint8(offset, code)` for each character: `writeString`. */
  method WriteString(view: array<Byte>, offset: nat, s: string)
    requires offset + |s| <= view.Length
    modifies view
    ensures view[..offset + |s|] == old(view[..offset]) + CharCodes(s)
    ensures view[offset + |s|..] == old(view[offset + |s|..])
  {
    for i := 0 to |s|
      invariant view[..offset + i] == old(view[..offset]) + CharCodes(s)[..i]
      invariant view[offset + i..] == old(view[offset + i..])
    {
      view[offset + i] := (s[i] as int) % 0x100;
      assert CharCodes(s)[..i + 1] == CharCodes(s)[..i] + [(s[i] as int) % 0x100];
    }
    assert CharCodes(s)[..|s|] == CharCodes(s);
  }

  /** `view.setUint16(offset, value, true)`, also `setInt16`: same two bytes. */
  method SetUint16(view: array<Byte>, offset: nat, value: int)
    requires offset + 2 <= view.Length
    modifies view
    ensures view[..offset + 2] == old(view[..offset]) + Uint16Bytes(value)
    ensures view[offset + 2..] == old(view[offset + 2..])
  {
    var b := Uint16Bytes(value);
    view[offset], view[offset + 1] := b[0], b[1];
    assert view[..offset + 2] == view[..offset] + [b[0], b[1]];
  }

  /** `view.setUint32(offset, value, true)`. */
  method SetUint32(view: array<Byte>, offset: nat, value: int)
    requires offset + 4 <= view.Length
    modifies view
    ensures view[..offset + 4] == old(view[..offset]) + Uint32Bytes(value)
    ensures view[offset + 4..] == old(view[offset + 4..])
  {
    var b := Uint32Bytes(value);
    view[offset], view[offset + 1], view[offset + 2], view[offset + 3] := b[0], b[1], b[2], b[3];
    assert view[..offset + 4] == view[..offset] + [b[0], b[1], b[2], b[3]];
  }

  /** The first three statements of `encodeWAV`'s header: bytes 0..11. */
  method WriteRiffHeader(view: array<Byte>, numSamples: nat)
    requires 12 <= view.Length
    modifies view
    ensures view[..12] == RiffHeader(numSamples)
    ensures view[12..] == old(view[12..])
  {
    WriteString(view, 0, "RIFF");
    SetUint32(view, 4, 36 + numSamples * 2);
    assert view[..8] == CharCodes("RIFF") + Uint32Bytes(36 + numSamples * 2);
    WriteString(view, 8, "WAVE");
  }

  /** The `fmt ` chunk statements of `encodeWAV`: bytes 12..35. */
  method WriteFmtChunk(view: array<Byte>, sampleRate: int)
    requires 36 <= view.Length
    modifies view
    ensures view[..36] == old(view[..12]) + FmtChunk(sampleRate)
    ensures view[36..] == old(view[36..])
  {
    ghost var front, rest := view[..12], view[36..];
    WriteString(view, 12, "fmt ");
    ghost var written := CharCodes("fmt ");
    assert view[..16] == front + written && view[36..] == rest;
    SetUint32(view, 16, 16);
    written := written + Uint32Bytes(16);
    assert view[..20] == front + written && view[36..] == rest;
    SetUint16(view, 20, 1);
    written := written + Uint16Bytes(1);
    assert view[..22] == front + written && view[36..] == rest;
    SetUint16(view, 22, 1);
    written := written + Uint16Bytes(1);
    assert view[..24] == front + written && view[36..] == rest;
    SetUint32(view, 24, sampleRate);
    written := written + Uint32Bytes(sampleRate);
    assert view[..28] == front + written && view[36..] == rest;
    SetUint32(view, 28, sampleRate * 2);
    written := written + Uint32Bytes(sampleRate * 2);
    assert view[..32] == front + written && view[36..] == rest;
    SetUint16(view, 32, 2);
    written := written + Uint16Bytes(2);
    assert view[..34] == front + written && view[36..] == rest;
    SetUint16(view, 34, 16);
    written := written + Uint16Bytes(16);
    assert view[..36] == front + written && view[36..] == rest;
    assert written == FmtChunk(sampleRate);
  }

  /** The data chunk header statements of `encodeWAV`: bytes 36..43. */
  method WriteDataHeader(view: array<Byte>, numSamples: nat)
    requires 44 <= view.Length
    modifies view
    ensures view[..44] == old(view[..36]) + DataHeader(numSamples)
    ensures view[44..] == old(view[44..])
  {
    ghost var front := view[..36];
    WriteString(view, 36, "data");
    assert view[..40] == front + CharCodes("data");
    SetUint32(view, 40, numSamples * 2);
  }

  /** `encodeWAV(samples, sampleRate)`: the bytes of the resulting blob. */
  method EncodeWav(samples: seq<Int16>, sampleRate: int) returns (wav: seq<Byte>)
    ensures wav == WavFile(samples, sampleRate)
  {
    var n := |samples|;
    var view := new Byte[44 + n * 2];
    WriteRiffHeader(view, n);
    WriteFmtChunk(view, sampleRate);
    WriteDataHeader(view, n);
    assert view[..44] == WavHeader(n, sampleRate);

    var offset := 44;
    for i := 0 to n
      invariant offset == 44 + 2 * i
      invariant view[..offset] == WavHeader(n, sampleRate) + PcmBytes(samples[..i])
    {
      SetUint16(view, offset, samples[i]);
      assert samples[..i + 1][..i] == samples[..i];
      assert view[..offset + 2] == WavHeader(n, sampleRate) + PcmBytes(samples[..i + 1]);
      offset := offset + 2;
    }
    assert samples[..n] == samples;
    assert view[..] == view[..offset];
    wav := view[..];
  }
}

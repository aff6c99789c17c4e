/** `pcmToWavBlob` and the byte copy of `decodeBase64`: raw 16-bit PCM from
    the speech service is wrapped in the canonical 44-byte RIFF/WAVE header
    (a `RIFF` chunk holding a 16-byte PCM `fmt ` chunk and a `data` chunk),
    written field by field into a fresh buffer, followed by the samples.
    Multi-byte fields are little-endian and, as `DataView` stores them,
    reduced modulo 2^16 or 2^32. */
module Wav {

  newtype byte = x: int | 0 <= x < 256

  const U16: int := 0x1_0000
  const U32: int := 0x1_0000_0000

  /** A character stored through a byte view: its code modulo 256. */
  function ByteOf(c: char): byte {
    (c as int % 256) as byte
  }

  /** The bytes of a string, one per character. */
  function CharBytes(s: string): (bs: seq<byte>)
    ensures |bs| == |s|
    ensures forall i :: 0 <= i < |s| ==> bs[i] == ByteOf(s[i])
  {
    seq(|s|, i requires 0 <= i < |s| => ByteOf(s[i]))
  }

  /** `setUint16(_, v, true)`: `v` modulo 2^16, low byte first. */
  function Le16(v: int): (bs: seq<byte>)
    ensures |bs| == 2
  {
    var w := v % U16;
    [(w % 256) as byte, (w / 256) as byte]
  }

  /** `setUint32(_, v, true)`: `v` modulo 2^32, low byte first. */
  function Le32(v: int): (bs: seq<byte>)
    ensures |bs| == 4
  {
    var w := v % U32;
    [(w % 256) as byte, (w / 256 % 256) as byte, (w / 0x1_0000 % 256) as byte, (w / 0x100_0000) as byte]
  }

  /** `getUint16(off, true)`. */
  function ReadLe16(bs: seq<byte>, off: int): int
    requires 0 <= off && off + 2 <= |bs|
  {
    bs[off] as int + 256 * bs[off + 1] as int
  }

  /** `getUint32(off, true)`. */
  function ReadLe32(bs: seq<byte>, off: int): int
    requires 0 <= off && off + 4 <= |bs|
  {
    bs[off] as int + 256 * bs[off + 1] as int + 0x1_0000 * bs[off + 2] as int + 0x100_0000 * bs[off + 3] as int
  }

  /** Reading a 16-bit field back gives the value written, modulo 2^16. */
  lemma Le16RoundTrip(bs: seq<byte>, off: int, v: int)
    requires 0 <= off && off + 2 <= |bs| && bs[off..off + 2] == Le16(v)
    ensures ReadLe16(bs, off) == v % U16
  {
    assert bs[off] == Le16(v)[0] && bs[off + 1] == Le16(v)[1];
  }

  /** Reading a 32-bit field back gives the value written, modulo 2^32. */
  lemma Le32RoundTrip(bs: seq<byte>, off: int, v: int)
    requires 0 <= off && off + 4 <= |bs| && bs[off..off + 4] == Le32(v)
    ensures ReadLe32(bs, off) == v % U32
  {
    var w := v % U32;
    assert bs[off] == Le32(v)[0] && bs[off + 1] == Le32(v)[1];
    assert bs[off + 2] == Le32(v)[2] && bs[off + 3] == Le32(v)[3];
    Base256Digits(w);
  }

  lemma Base256Digits(w: int)
    requires 0 <= w < U32
    ensures w % 256 + 256 * (w / 256 % 256) + 0x1_0000 * (w / 0x1_0000 % 256) + 0x100_0000 * (w / 0x100_0000) == w
  {
    var q1 := w / 256;
    var q2 := q1 / 256;
    var q3 := q2 / 256;
    assert w / 0x1_0000 == q2;
    assert w / 0x100_0000 == q3;
    assert q1 == 256 * q2 + q1 % 256;
    assert q2 == 256 * q3 + q2 % 256;
  }

  /** The sample frame size in bytes, `numChannels * (bitsPerSample / 8)`. */
  function BlockAlign(numChannels: nat, bitsPerSample: nat): int {
    numChannels * bitsPerSample / 8
  }

  /** The byte rate, `sampleRate * blockAlign`, truncated to an integer as
      `setUint32` does. */
  function ByteRate(sampleRate: nat, numChannels: nat, bitsPerSample: nat): int {
    sampleRate * numChannels * bitsPerSample / 8
  }

  /** The RIFF chunk descriptor: tag, size of the rest of the file, format. */
  function RiffDescriptor(n: nat): (d: seq<byte>)
    ensures |d| == 12
  {
    CharBytes("RIFF") + Le32(36 + n) + CharBytes("WAVE")
  }

  /** The `fmt ` sub-chunk of a PCM file. */
  function FmtChunk(sampleRate: nat, numChannels: nat, bitsPerSample: nat): (f: seq<byte>)
    ensures |f| == 24
  {
    CharBytes("fmt ") + Le32(16) + Le16(1) + Le16(numChannels) + Le32(sampleRate)
    + Le32(ByteRate(sampleRate, numChannels, bitsPerSample)) + Le16(BlockAlign(numChannels, bitsPerSample))
    + Le16(bitsPerSample)
  }

  /** The head of the `data` sub-chunk: tag and sample byte count. */
  function DataChunkHead(n: nat): (d: seq<byte>)
    ensures |d| == 8
  {
    CharBytes("data") + Le32(n)
  }

  /** The 44-byte header for `n` bytes of samples. */
  function WavHeader(n: nat, sampleRate: nat, numChannels: nat, bitsPerSample: nat): (h: seq<byte>)
    ensures |h| == 44
  {
    RiffDescriptor(n) + FmtChunk(sampleRate, numChannels, bitsPerSample) + DataChunkHead(n)
  }

  // ---------------------------------------------------------------- the writes

  /** `writeString(offset, str)`: one byte per character, in place. */
  method WriteString(buf: array<byte>, offset: int, str: string, ghost done: seq<byte>)
    requires offset == |done| && offset + |str| <= buf.Length && buf[..offset] == done
    modifies buf
    ensures buf[..offset + |str|] == done + CharBytes(str)
    ensures buf[offset + |str|..] == old(buf[offset + |str|..])
  {
    var i := 0;
    while i < |str|
      invariant 0 <= i <= |str|
      invariant buf[..offset] == done
      invariant buf[offset + |str|..] == old(buf[offset + |str|..])
      invariant forall k :: 0 <= k < i ==> buf[offset + k] == ByteOf(str[k])
    {
      buf[offset + i] := ByteOf(str[i]);
      i := i + 1;
    }
    assert buf[..offset + |str|] == done + CharBytes(str) by {
      forall k | 0 <= k < offset + |str| ensures buf[..offset + |str|][k] == (done + CharBytes(str))[k] {
        if k < offset { assert buf[k] == buf[..offset][k]; } else { assert buf[k] == buf[offset + (k - offset)]; }
      }
    }
  }

  /** `view.setUint16(offset, value, true)`. */
  method SetUint16(buf: array<byte>, offset: int, value: int, ghost done: seq<byte>)
    requires offset == |done| && offset + 2 <= buf.Length && buf[..offset] == done
    modifies buf
    ensures buf[..offset + 2] == done + Le16(value)
    ensures buf[offset + 2..] == old(buf[offset + 2..])
  {
    var w := value % U16;
    buf[offset] := (w % 256) as byte;
    buf[offset + 1] := (w / 256) as byte;
    assert buf[..offset + 2] == buf[..offset] + [buf[offset], buf[offset + 1]];
  }

  /** `view.setUint32(offset, value, true)`. */
  method SetUint32(buf: array<byte>, offset: int, value: int, ghost done: seq<byte>)
    requires offset == |done| && offset + 4 <= buf.Length && buf[..offset] == done
    modifies buf
    ensures buf[..offset + 4] == done + Le32(value)
    ensures buf[offset + 4..] == old(buf[offset + 4..])
  {
    var w := value % U32;
    buf[offset] := (w % 256) as byte;
    buf[offset + 1] := (w / 256 % 256) as byte;
    buf[offset + 2] := (w / 0x1_0000 % 256) as byte;
    buf[offset + 3] := (w / 0x100_0000) as byte;
    assert buf[..offset + 4] == buf[..offset] + [buf[offset], buf[offset + 1], buf[offset + 2], buf[offset + 3]];
  }

  /** `blockAlign` is computed in floating point; for whole inputs its
      truncation, and that of the byte rate, are the integer quotients. */
  lemma TruncatedRates(sampleRate: nat, numChannels: nat, bitsPerSample: nat)
    ensures (numChannels as real * (bitsPerSample as real / 8.0)).Floor == BlockAlign(numChannels, bitsPerSample)
    ensures (sampleRate as real * (numChannels as real * (bitsPerSample as real / 8.0))).Floor
            == ByteRate(sampleRate, numChannels, bitsPerSample)
  {
    var x := numChannels * bitsPerSample;
    var y := sampleRate * x;
    assert numChannels as real * (bitsPerSample as real / 8.0) == x as real / 8.0;
    assert sampleRate as real * (x as real / 8.0) == y as real / 8.0;
    FloorOfEighth(x);
    FloorOfEighth(y);
    assert y == sampleRate * numChannels * bitsPerSample;
  }

  lemma FloorOfEighth(x: int)
    ensures (x as real / 8.0).Floor == x / 8
  {
    var q := x / 8;
    assert x as real / 8.0 == q as real + (x % 8) as real / 8.0;
  }

  /** Bytes 0 to 12: the RIFF chunk descriptor. */
  method WriteRiffDescriptor(buffer: array<byte>, dataSize: nat)
    requires buffer.Length >= 44
    modifies buffer
    ensures buffer[..12] == RiffDescriptor(dataSize)
    ensures buffer[12..] == old(buffer[12..])
  {
    WriteString(buffer, 0, "RIFF", []);
    ghost var done := CharBytes("RIFF");
    SetUint32(buffer, 4, 36 + dataSize, done);
    done := done + Le32(36 + dataSize);
    WriteString(buffer, 8, "WAVE", done);
  }

  /** Bytes 12 to 36: the `fmt ` sub-chunk. */
  method WriteFmtChunk(buffer: array<byte>, sampleRate: nat, numChannels: nat, bitsPerSample: nat, ghost done: seq<byte>)
    requires buffer.Length >= 44 && |done| == 12 && buffer[..12] == done
    modifies buffer
    ensures buffer[..36] == done + FmtChunk(sampleRate, numChannels, bitsPerSample)
    ensures buffer[36..] == old(buffer[36..])
  {
    ghost var written := done;
    ghost var tail := buffer[36..];
    WriteString(buffer, 12, "fmt ", written);
    written := written + CharBytes("fmt ");
    assert buffer[36..] == tail;
    SetUint32(buffer, 16, 16, written);
    written := written + Le32(16);
    assert buffer[36..] == tail;
    SetUint16(buffer, 20, 1, written);
    written := written + Le16(1);
    assert buffer[36..] == tail;
    SetUint16(buffer, 22, numChannels, written);
    written := written + Le16(numChannels);
    assert buffer[36..] == tail;
    SetUint32(buffer, 24, sampleRate, written);
    written := written + Le32(sampleRate);
    assert buffer[36..] == tail;
    var blockAlign: real := numChannels as real * (bitsPerSample as real / 8.0);
    var byteRate := (sampleRate as real * blockAlign).Floor;
    var blockAlignField := blockAlign.Floor;
    TruncatedRates(sampleRate, numChannels, bitsPerSample);
    assert byteRate == ByteRate(sampleRate, numChannels, bitsPerSample);
    assert blockAlignField == BlockAlign(numChannels, bitsPerSample);
    SetUint32(buffer, 28, byteRate, written);
    written := written + Le32(byteRate);
    assert buffer[36..] == tail;
    SetUint16(buffer, 32, blockAlignField, written);
    written := written + Le16(blockAlignField);
    assert buffer[36..] == tail;
    SetUint16(buffer, 34, bitsPerSample, written);
    written := written + Le16(bitsPerSample);
    assert written == done + FmtChunk(sampleRate, numChannels, bitsPerSample);
  }

  /** Bytes 36 to 44: the head of the `data` sub-chunk. */
  method WriteDataChunkHead(buffer: array<byte>, dataSize: nat, ghost done: seq<byte>)
    requires buffer.Length >= 44 && |done| == 36 && buffer[..36] == done
    modifies buffer
    ensures buffer[..44] == done + DataChunkHead(dataSize)
    ensures buffer[44..] == old(buffer[44..])
  {
    WriteString(buffer, 36, "data", done);
    SetUint32(buffer, 40, dataSize, done + CharBytes("data"));
  }

  /** `pcmToWavBlob`: a buffer of `44 + n` bytes holding the header and then
      the samples in order. */
  method PcmToWav(pcmData: array<byte>, sampleRate: nat, numChannels: nat, bitsPerSample: nat) returns (buffer: array<byte>)
    ensures fresh(buffer)
    ensures buffer.Length == 44 + pcmData.Length
    ensures buffer[..] == WavHeader(pcmData.Length, sampleRate, numChannels, bitsPerSample) + pcmData[..]
  {
    var dataSize := pcmData.Length;
    buffer := new byte[44 + dataSize](_ => 0);

    WriteRiffDescriptor(buffer, dataSize);
    ghost var done := RiffDescriptor(dataSize);
    WriteFmtChunk(buffer, sampleRate, numChannels, bitsPerSample, done);
    done := done + FmtChunk(sampleRate, numChannels, bitsPerSample);
    WriteDataChunkHead(buffer, dataSize, done);
    done := done + DataChunkHead(dataSize);

    var i := 0;
    while i < dataSize
      invariant 0 <= i <= dataSize
      invariant buffer[..44] == done
      invariant forall k :: 0 <= k < i ==> buffer[44 + k] == pcmData[k]
    {
      buffer[44 + i] := pcmData[i];
      i := i + 1;
    }
    assert buffer[..] == done + pcmData[..] by {
      forall k | 0 <= k < buffer.Length ensures buffer[k] == (done + pcmData[..])[k] {
        if k < 44 { assert buffer[k] == buffer[..44][k]; }
      }
    }
  }

  // ---------------------------------------------------------------- reading the header back

  /** The four chunk tags sit at 0, 8, 12 and 36. */
  lemma HeaderTags(n: nat, sampleRate: nat, numChannels: nat, bitsPerSample: nat)
    ensures var h := WavHeader(n, sampleRate, numChannels, bitsPerSample);
      && h[0..4] == CharBytes("RIFF") && h[8..12] == CharBytes("WAVE")
      && h[12..16] == CharBytes("fmt ") && h[36..40] == CharBytes("data")
  {
  }

  /** Every numeric field of the header reads back as written: the RIFF size
      `36 + n`, the `fmt ` size 16, format 1 (PCM), the channel count, sample
      rate, byte rate, block alignment and bit depth, and the data size `n`. */
  lemma HeaderFields(n: nat, sampleRate: nat, numChannels: nat, bitsPerSample: nat)
    ensures var h := WavHeader(n, sampleRate, numChannels, bitsPerSample);
      && ReadLe32(h, 4) == (36 + n) % U32
      && ReadLe32(h, 16) == 16
      && ReadLe16(h, 20) == 1
      && ReadLe16(h, 22) == numChannels % U16
      && ReadLe32(h, 24) == sampleRate % U32
      && ReadLe32(h, 28) == ByteRate(sampleRate, numChannels, bitsPerSample) % U32
      && ReadLe16(h, 32) == BlockAlign(numChannels, bitsPerSample) % U16
      && ReadLe16(h, 34) == bitsPerSample % U16
      && ReadLe32(h, 40) == n % U32
  {
    var h := WavHeader(n, sampleRate, numChannels, bitsPerSample);
    Le32RoundTrip(h, 4, 36 + n);
    Le32RoundTrip(h, 16, 16);
    Le16RoundTrip(h, 20, 1);
    Le16RoundTrip(h, 22, numChannels);
    Le32RoundTrip(h, 24, sampleRate);
    Le32RoundTrip(h, 28, ByteRate(sampleRate, numChannels, bitsPerSample));
    Le16RoundTrip(h, 32, BlockAlign(numChannels, bitsPerSample));
    Le16RoundTrip(h, 34, bitsPerSample);
    Le32RoundTrip(h, 40, n);
  }

  // ---------------------------------------------------------------- decodeBase64

  /** The copy loop of `decodeBase64`, after `atob`: one byte per character
      of the binary string, in order. */
  method BinaryStringBytes(binaryString: string) returns (bytes: array<byte>)
    ensures fresh(bytes)
    ensures bytes[..] == CharBytes(binaryString)
  {
    var len := |binaryString|;
    bytes := new byte[len](_ => 0);
    var i := 0;
    while i < len
      invariant 0 <= i <= len
      invariant forall k :: 0 <= k < i ==> bytes[k] == ByteOf(binaryString[k])
    {
      bytes[i] := ByteOf(binaryString[i]);
      i := i + 1;
    }
  }
}

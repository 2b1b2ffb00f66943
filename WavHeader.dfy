/**
 * The 44-byte RIFF/WAVE header of `mk_wav` (src/main.c): a RIFF chunk of form
 * type WAVE holding a 16-byte `fmt ` chunk and the start of a `data` chunk,
 * as section "WAVE form" of the Multimedia Programming Interface and Data
 * Specifications 1.0 lays them out. The two chunk sizes are left as all-ones
 * placeholders, because the length of the output is not known when the header
 * is written.
 */
module WavHeader {
  import opened Ints

  /** `enum output_format`. */
  datatype OutputFormat = Float64 | Float32 | Int32

  const HeaderSize: int := 44

  /** The four ASCII bytes of a chunk identifier. */
  const RiffId: seq<byte> := [0x52, 0x49, 0x46, 0x46]
  const WaveId: seq<byte> := [0x57, 0x41, 0x56, 0x45]
  const FmtId: seq<byte> := [0x66, 0x6D, 0x74, 0x20]
  const DataId: seq<byte> := [0x64, 0x61, 0x74, 0x61]

  /** `~0` stored in each byte of a size field. */
  const Unknown: seq<byte> := [0xFF, 0xFF, 0xFF, 0xFF]

  /** `bits_per_sample`: 64 for double samples, 32 for float and int32 samples. */
  function BitsPerSample(format: OutputFormat): uint16 {
    if format == Float64 then 64 else 32
  }

  /** WAVE_FORMAT_IEEE_FLOAT (3) for both float formats, WAVE_FORMAT_PCM (1) for int32. */
  function FormatCode(format: OutputFormat): uint16 {
    if format != Int32 then 3 else 1
  }

  /** `sbcb`: bytes per second, the bit rate divided by 8 and rounded up; the product fits in `int64_t`. */
  function ByteRate(channels: uint32, sampleRate: uint16, format: OutputFormat): (r: nat)
    ensures var bits := sampleRate * BitsPerSample(format) * channels; 8 * r - 8 < bits <= 8 * r
  {
    (sampleRate * BitsPerSample(format) * channels + 7) / 8
  }

  /** `bcb`: bytes per sample frame, rounded up. */
  function BlockAlign(channels: uint32, format: OutputFormat): (r: nat)
    ensures var bits := BitsPerSample(format) * channels; 8 * r - 8 < bits <= 8 * r
  {
    (BitsPerSample(format) * channels + 7) / 8
  }

  /**
   * `mk_wav`. Each multi-byte field is stored as its low bytes, least
   * significant first, which is what assigning `x`, `x>>8`, ... to the
   * `unsigned char` array does.
   */
  function MkWav(channels: uint32, sampleRate: uint16, format: OutputFormat): (h: seq<byte>)
    ensures |h| == HeaderSize
  {
    RiffId + Unknown + WaveId
    + FmtId + LittleEndian(16, 4)
    + LittleEndian(FormatCode(format), 2)
    + LittleEndian(channels, 2)
    + LittleEndian(sampleRate, 4)
    + LittleEndian(ByteRate(channels, sampleRate, format), 4)
    + LittleEndian(BlockAlign(channels, format), 2)
    + LittleEndian(BitsPerSample(format), 2)
    + DataId + Unknown
  }

  /** The fields a reader takes from a header, as stored. */
  datatype WavFormat = WavFormat(
    formatCode: nat, channels: nat, sampleRate: nat, byteRate: nat, blockAlign: nat, bitsPerSample: nat)

  /** The unsigned little-endian field of `n` bytes at `at`. */
  function Field(h: seq<byte>, at: nat, n: nat): (x: nat)
    requires at + n <= |h|
    ensures x < Pow256(n)
  {
    FromLittleEndian(h[at..at + n])
  }

  /**
   * A reader of the header: it checks the chunk identifiers and the `fmt `
   * chunk size and reads the format fields; anything else is rejected.
   */
  function ReadWav(h: seq<byte>): (r: Option<WavFormat>)
    ensures r.Some? ==> |h| == HeaderSize && h[..4] == RiffId && h[36..40] == DataId
  {
    if |h| != HeaderSize || h[..4] != RiffId || h[8..12] != WaveId || h[12..16] != FmtId
       || Field(h, 16, 4) != 16 || h[36..40] != DataId
    then None
    else Some(WavFormat(Field(h, 20, 2), Field(h, 22, 2), Field(h, 24, 4), Field(h, 28, 4), Field(h, 32, 2), Field(h, 34, 2)))
  }

  /** Where each of the thirteen parts of the header lies. */
  lemma PartsOfHeader(a: seq<byte>, b: seq<byte>, c: seq<byte>, d: seq<byte>, e: seq<byte>,
                      f: seq<byte>, g: seq<byte>, i: seq<byte>, j: seq<byte>, k: seq<byte>,
                      l: seq<byte>, m: seq<byte>, n: seq<byte>)
    requires |a| == |b| == |c| == |d| == |e| == |i| == |j| == |m| == |n| == 4
    requires |f| == |g| == |k| == |l| == 2
    ensures var h := a + b + c + d + e + f + g + i + j + k + l + m + n;
      && h[..4] == a && h[4..8] == b && h[8..12] == c && h[12..16] == d && h[16..20] == e
      && h[20..22] == f && h[22..24] == g && h[24..28] == i && h[28..32] == j && h[32..34] == k
      && h[34..36] == l && h[36..40] == m && h[40..] == n
  {
  }

  /**
   * The chunk identifiers and placeholders sit where a RIFF reader looks for
   * them, and each numeric field holds the little-endian bytes of its value.
   */
  lemma MkWavLayout(channels: uint32, sampleRate: uint16, format: OutputFormat)
    ensures var h := MkWav(channels, sampleRate, format);
      && h[..4] == RiffId && h[4..8] == Unknown && h[8..12] == WaveId && h[12..16] == FmtId
      && h[16..20] == LittleEndian(16, 4)
      && h[20..22] == LittleEndian(FormatCode(format), 2)
      && h[22..24] == LittleEndian(channels, 2)
      && h[24..28] == LittleEndian(sampleRate, 4)
      && h[28..32] == LittleEndian(ByteRate(channels, sampleRate, format), 4)
      && h[32..34] == LittleEndian(BlockAlign(channels, format), 2)
      && h[34..36] == LittleEndian(BitsPerSample(format), 2)
      && h[36..40] == DataId && h[40..] == Unknown
  {
    PartsOfHeader(RiffId, Unknown, WaveId, FmtId, LittleEndian(16, 4),
                  LittleEndian(FormatCode(format), 2), LittleEndian(channels, 2),
                  LittleEndian(sampleRate, 4), LittleEndian(ByteRate(channels, sampleRate, format), 4),
                  LittleEndian(BlockAlign(channels, format), 2), LittleEndian(BitsPerSample(format), 2),
                  DataId, Unknown);
  }

  /** A stored field reads back as the value modulo the field's width. */
  lemma FieldReadsBack(h: seq<byte>, at: nat, x: nat, n: nat)
    requires at + n <= |h| && h[at..at + n] == LittleEndian(x, n)
    ensures Field(h, at, n) == x % Pow256(n)
    ensures x < Pow256(n) ==> Field(h, at, n) == x
  {
    LittleEndianRoundTrip(x, n);
    if x < Pow256(n) {
      ModUnique(x, Pow256(n), 0, x);
    }
  }

  /**
   * Reading the header back gives the format, the low 16 bits of the channel
   * count, the sample rate, the byte rate modulo 2^32, the block alignment
   * modulo 2^16 and the sample width.
   */
  lemma WavRoundTrip(channels: uint32, sampleRate: uint16, format: OutputFormat)
    ensures ReadWav(MkWav(channels, sampleRate, format))
         == Some(WavFormat(FormatCode(format), channels % 0x1_0000, sampleRate,
                           ByteRate(channels, sampleRate, format) % TwoTo32,
                           BlockAlign(channels, format) % 0x1_0000, BitsPerSample(format)))
  {
    var h := MkWav(channels, sampleRate, format);
    MkWavLayout(channels, sampleRate, format);
    assert Pow256(2) == 0x1_0000 && Pow256(4) == TwoTo32;
    FieldReadsBack(h, 16, 16, 4);
    FieldReadsBack(h, 20, FormatCode(format), 2);
    FieldReadsBack(h, 22, channels, 2);
    FieldReadsBack(h, 24, sampleRate, 4);
    FieldReadsBack(h, 28, ByteRate(channels, sampleRate, format), 4);
    FieldReadsBack(h, 32, BlockAlign(channels, format), 2);
    FieldReadsBack(h, 34, BitsPerSample(format), 2);
    ReadsFields(h);
  }

  /** A header with the right identifiers and `fmt ` size is read field by field. */
  lemma ReadsFields(h: seq<byte>)
    requires |h| == HeaderSize && h[..4] == RiffId && h[8..12] == WaveId && h[12..16] == FmtId
    requires Field(h, 16, 4) == 16 && h[36..40] == DataId
    ensures ReadWav(h) == Some(WavFormat(Field(h, 20, 2), Field(h, 22, 2), Field(h, 24, 4),
                                         Field(h, 28, 4), Field(h, 32, 2), Field(h, 34, 2)))
  {
  }

  /**
   * The header the tracker writes first has one int32 channel: the frames are
   * 4 bytes and the byte rate is 4 times the sample rate.
   */
  lemma MonoInt32Header(sampleRate: uint16)
    ensures ReadWav(MkWav(1, sampleRate, Int32)) == Some(WavFormat(1, 1, sampleRate, 4 * sampleRate, 4, 32))
  {
    ModUnique(sampleRate * 32 * 1 + 7, 8, 4 * sampleRate, 7);
    ModUnique(32 * 1 + 7, 8, 4, 7);
    ModUnique(4 * sampleRate, TwoTo32, 0, 4 * sampleRate);
    ModUnique(1, 0x1_0000, 0, 1);
    ModUnique(4, 0x1_0000, 0, 4);
    WavRoundTrip(1, sampleRate, Int32);
  }
}

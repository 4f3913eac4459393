/** The speech node's WAV bytes, and the chunks of samples that the gateway reads from such bytes. */
module Wav {
  import opened Bytes
  import opened Text

  type Sample = x: int | -0x8000 <= x < 0x8000

  const WIDTH_32 := 0x1_0000_0000

  const SAMPLE_RATE := 16000
  const CHANNELS := 1
  const BITS_PER_SAMPLE := 16
  const BLOCK_ALIGN := CHANNELS * BITS_PER_SAMPLE / 8
  const BYTE_RATE := SAMPLE_RATE * BLOCK_ALIGN

  // -------- little endian --------

  function LittleEndian(value: nat, n: nat): (s: seq<Byte>)
    ensures |s| == n
  {
    if n == 0 then [] else [value % 256] + LittleEndian(value / 256, n - 1)
  }

  // The number that n bytes from a place on stand for
  function Field(s: seq<Byte>, at: nat, n: nat): nat
    requires at + n <= |s|
    decreases n
  {
    if n == 0 then 0 else s[at] + 256 * Field(s, at + 1, n - 1)
  }

  lemma {:induction false} FieldOf(s: seq<Byte>, at: nat, n: nat, value: nat)
    requires at + n <= |s| && s[at..at + n] == LittleEndian(value, n) && value < Pow256(n)
    ensures Field(s, at, n) == value
    decreases n
  {
    if n > 0 {
      var bytes := LittleEndian(value, n);
      assert s[at] == s[at..at + n][0] == value % 256;
      assert s[at + 1..at + n] == s[at..at + n][1..] == LittleEndian(value / 256, n - 1);
      FieldOf(s, at + 1, n - 1, value / 256);
    }
  }

  // The same bytes, moved by d, are the same number.
  lemma {:induction false} FieldSame(s: seq<Byte>, d: nat, t: seq<Byte>, at: nat, n: nat)
    requires d + at + n <= |s| && at + n <= |t|
    requires forall k {:trigger t[k]} :: at <= k < at + n ==> s[d + k] == t[k]
    ensures Field(s, d + at, n) == Field(t, at, n)
    decreases n
  {
    if n > 0 {
      FieldSame(s, d, t, at + 1, n - 1);
    }
  }

  // append_u16_le and append_u32_le, which push one byte after another
  method AppendU16(buffer: seq<Byte>, value: nat) returns (r: seq<Byte>)
    ensures r == buffer + LittleEndian(value, 2)
  {
    r := buffer + [value % 256];
    r := r + [value / 256 % 256];
  }

  method AppendU32(buffer: seq<Byte>, value: nat) returns (r: seq<Byte>)
    ensures r == buffer + LittleEndian(value, 4)
  {
    assert value / 0x1_0000 == value / 256 / 256 && value / 0x100_0000 == value / 256 / 256 / 256;
    r := buffer + [value % 256];
    r := r + [value / 256 % 256];
    r := r + [value / 0x1_0000 % 256];
    r := r + [value / 0x100_0000 % 256];
    FourBytes(value);
  }

  lemma FourBytes(value: nat)
    ensures LittleEndian(value, 4) ==
      [value % 256, value / 256 % 256, value / 256 / 256 % 256, value / 256 / 256 / 256 % 256]
  {
    var v1 := value / 256;
    var v2 := v1 / 256;
    var v3 := v2 / 256;
    assert LittleEndian(v3, 1) == [v3 % 256];
    assert LittleEndian(v2, 2) == [v2 % 256, v3 % 256];
    assert LittleEndian(v1, 3) == [v1 % 256, v2 % 256, v3 % 256];
  }

  // -------- samples --------

  // The cast of a sample to sixteen bits without sign, and struct's h the other way
  function Unsigned(s: Sample): nat { if s < 0 then s + 0x1_0000 else s }

  function Signed16(v: nat): Sample
    requires v < 0x1_0000
  {
    if v >= 0x8000 then v - 0x1_0000 else v
  }

  function SampleBytes(s: Sample): (r: seq<Byte>)
    ensures |r| == 2
  {
    LittleEndian(Unsigned(s), 2)
  }

  function Payload(pcm: seq<Sample>): (r: seq<Byte>)
    ensures |r| == 2 * |pcm|
  {
    if pcm == [] then [] else SampleBytes(pcm[0]) + Payload(pcm[1..])
  }

  function SampleOf(lo: Byte, hi: Byte): Sample {
    var word: nat := 256 * hi + lo;
    Signed16(word)
  }

  // struct.unpack with "<nh"
  function Unpack(raw: seq<Byte>): (r: seq<Sample>)
    ensures |r| == |raw| / 2
  {
    if |raw| < 2 then [] else [SampleOf(raw[0], raw[1])] + Unpack(raw[2..])
  }

  lemma SampleBack(s: Sample)
    ensures var b := SampleBytes(s); SampleOf(b[0], b[1]) == s
  {
    var u := Unsigned(s);
    assert LittleEndian(u / 256, 1) == [u / 256 % 256];
    assert SampleBytes(s) == [u % 256, u / 256];
  }

  lemma {:induction false} UnpackPayload(pcm: seq<Sample>)
    ensures Unpack(Payload(pcm)) == pcm
  {
    if pcm != [] {
      SampleBack(pcm[0]);
      UnpackPayload(pcm[1..]);
      var first, rest := SampleBytes(pcm[0]), Payload(pcm[1..]);
      assert Payload(pcm) == first + rest && (first + rest)[2..] == rest;
    }
  }

  lemma UnpackCons(raw: seq<Byte>)
    requires |raw| >= 2
    ensures Unpack(raw) == [SampleOf(raw[0], raw[1])] + Unpack(raw[2..])
  {
  }

  lemma {:induction false} UnpackConcat(a: seq<Byte>, b: seq<Byte>)
    requires |a| % 2 == 0
    ensures Unpack(a + b) == Unpack(a) + Unpack(b)
  {
    if a == [] {
      assert a + b == b;
    } else {
      UnpackConcat(a[2..], b);
      var c := a + b;
      assert c[2..] == a[2..] + b && c[0] == a[0] && c[1] == a[1];
      UnpackCons(c);
      UnpackCons(a);
      assert [SampleOf(a[0], a[1])] + Unpack(a[2..]) + Unpack(b)
        == [SampleOf(a[0], a[1])] + (Unpack(a[2..]) + Unpack(b));
    }
  }

  // -------- the file --------

  const RIFF: seq<Byte> := [0x52, 0x49, 0x46, 0x46]
  const WAVE: seq<Byte> := [0x57, 0x41, 0x56, 0x45]
  const FMT: seq<Byte> := [0x66, 0x6d, 0x74, 0x20]
  const DATA: seq<Byte> := [0x64, 0x61, 0x74, 0x61]

  // The sizes as the code computes them, in 32 bits
  function DataSize(n: nat): nat { 2 * n % WIDTH_32 }

  function RiffSize(n: nat): nat { (36 + DataSize(n)) % WIDTH_32 }

  // The 44 bytes in front of the samples: up to the format, the format, and the data's own header
  function Front(n: nat): (s: seq<Byte>)
    ensures |s| == 20
  {
    RIFF + LittleEndian(RiffSize(n), 4) + WAVE + FMT + LittleEndian(16, 4)
  }

  function Format(): (s: seq<Byte>)
    ensures |s| == 16
  {
    LittleEndian(1, 2) + LittleEndian(CHANNELS, 2) + LittleEndian(SAMPLE_RATE, 4) + LittleEndian(BYTE_RATE, 4)
    + LittleEndian(BLOCK_ALIGN, 2) + LittleEndian(BITS_PER_SAMPLE, 2)
  }

  function Back(n: nat): (s: seq<Byte>)
    ensures |s| == 8
  {
    DATA + LittleEndian(DataSize(n), 4)
  }

  function Header(n: nat): (s: seq<Byte>)
    ensures |s| == 44
  {
    Front(n) + Format() + Back(n)
  }

  // The start of write_wav, part by part
  method WriteFront(n: nat) returns (wav: seq<Byte>)
    ensures wav == Front(n)
  {
    var dataSize := 2 * n % WIDTH_32;
    wav := RIFF;
    wav := AppendU32(wav, (36 + dataSize) % WIDTH_32);
    wav := wav + WAVE;
    wav := wav + FMT;
    wav := AppendU32(wav, 16);
  }

  method WriteFormat(buffer: seq<Byte>) returns (wav: seq<Byte>)
    ensures wav == buffer + Format()
  {
    wav := AppendU16([], 1);
    assert wav == LittleEndian(1, 2);
    wav := AppendU16(wav, CHANNELS);
    wav := AppendU32(wav, SAMPLE_RATE);
    wav := AppendU32(wav, BYTE_RATE);
    wav := AppendU16(wav, BLOCK_ALIGN);
    wav := AppendU16(wav, BITS_PER_SAMPLE);
    wav := buffer + wav;
  }

  method WriteBack(buffer: seq<Byte>, n: nat) returns (wav: seq<Byte>)
    ensures wav == buffer + Back(n)
  {
    wav := buffer + DATA;
    wav := AppendU32(wav, 2 * n % WIDTH_32);
    assert wav == buffer + (DATA + LittleEndian(DataSize(n), 4));
  }

  // write_wav
  method WriteWav(pcm: seq<Sample>) returns (wav: seq<Byte>)
    ensures wav == Header(|pcm|) + Payload(pcm)
  {
    wav := WriteFront(|pcm|);
    wav := WriteFormat(wav);
    wav := WriteBack(wav, |pcm|);
    wav := AppendSamples(wav, pcm);
  }

  method AppendSamples(buffer: seq<Byte>, pcm: seq<Sample>) returns (wav: seq<Byte>)
    ensures wav == buffer + Payload(pcm)
  {
    wav := buffer;
    var i := 0;
    while i < |pcm|
      invariant 0 <= i <= |pcm| && wav + Payload(pcm[i..]) == buffer + Payload(pcm)
    {
      PushSample(wav, pcm[i..]);
      assert pcm[i..][1..] == pcm[i + 1..];
      wav := AppendU16(wav, Unsigned(pcm[i]));
      i := i + 1;
    }
    assert wav + [] == wav;
  }

  lemma PushSample(wav: seq<Byte>, pcm: seq<Sample>)
    requires pcm != []
    ensures wav + SampleBytes(pcm[0]) + Payload(pcm[1..]) == wav + Payload(pcm)
  {
  }

  // What a RIFF reader finds in a file with one format chunk and one data chunk
  datatype Found = Found(
      riffSize: nat, format: nat, channels: nat, rate: nat, byteRate: nat, align: nat, bits: nat, dataSize: nat)

  function Look(wav: seq<Byte>): Found
    requires |wav| >= 44
  {
    Found(Field(wav, 4, 4), Field(wav, 20, 2), Field(wav, 22, 2), Field(wav, 24, 4), Field(wav, 28, 4),
          Field(wav, 32, 2),
          Field(wav, 34, 2), Field(wav, 40, 4))
  }

  lemma FormatParts()
    ensures Format()[0..2] == LittleEndian(1, 2) && Format()[2..4] == LittleEndian(CHANNELS, 2)
    ensures Format()[4..8] == LittleEndian(SAMPLE_RATE, 4) && Format()[8..12] == LittleEndian(BYTE_RATE, 4)
    ensures Format()[12..14] == LittleEndian(BLOCK_ALIGN, 2) && Format()[14..16] == LittleEndian(BITS_PER_SAMPLE, 2)
  {
  }

  lemma LookAtFormat()
    ensures var f := Format(); Field(f, 0, 2) == 1 && Field(f, 2, 2) == CHANNELS && Field(f, 4, 4) == SAMPLE_RATE
    ensures var f := Format(); Field(f, 8, 4) == BYTE_RATE && Field(f, 12, 2) == BLOCK_ALIGN
    ensures Field(Format(), 14, 2) == BITS_PER_SAMPLE
  {
    Pow256s();
    FormatParts();
    FieldOf(Format(), 0, 2, 1);
    FieldOf(Format(), 2, 2, CHANNELS);
    FieldOf(Format(), 4, 4, SAMPLE_RATE);
    FieldOf(Format(), 8, 4, BYTE_RATE);
    FieldOf(Format(), 12, 2, BLOCK_ALIGN);
    FieldOf(Format(), 14, 2, BITS_PER_SAMPLE);
  }

  lemma Pow256s()
    ensures Pow256(2) == 0x1_0000 && Pow256(4) == WIDTH_32
  {
    assert Pow256(4) == 256 * (256 * Pow256(2));
  }

  lemma LookAtFront(n: nat)
    ensures Field(Front(n), 4, 4) == RiffSize(n)
  {
    Pow256s();
    var tail := WAVE + FMT + LittleEndian(16, 4);
    assert Front(n) == RIFF + LittleEndian(RiffSize(n), 4) + tail;
    FieldAfter(RIFF, RiffSize(n), tail);
  }

  lemma FieldAfter(a: seq<Byte>, value: nat, b: seq<Byte>)
    requires value < Pow256(4)
    ensures Field(a + LittleEndian(value, 4) + b, |a|, 4) == value
  {
    var s := a + LittleEndian(value, 4) + b;
    assert s[|a|..|a| + 4] == LittleEndian(value, 4);
    FieldOf(s, |a|, 4, value);
  }

  lemma LookAtBack(n: nat)
    ensures Field(Back(n), 4, 4) == DataSize(n)
  {
    Pow256s();
    assert Back(n) == DATA + LittleEndian(DataSize(n), 4) + [];
    FieldAfter(DATA, DataSize(n), []);
  }

  // The bytes of a part are in the file from a place on.
  predicate Holds(wav: seq<Byte>, d: nat, part: seq<Byte>) {
    d + |part| <= |wav| && forall k {:trigger part[k]} :: 0 <= k < |part| ==> wav[d + k] == part[k]
  }

  // The same fields, where they are in the file
  lemma LookInside(wav: seq<Byte>, f: seq<Byte>, m: seq<Byte>, b: seq<Byte>)
    requires |f| == 20 && |m| == 16 && |b| == 8 && Holds(wav, 0, f) && Holds(wav, 20, m) && Holds(wav, 36, b)
    ensures
      Look(wav)
      == Found(
        Field(f, 4, 4), Field(m, 0, 2), Field(m, 2, 2), Field(m, 4, 4), Field(m, 8, 4), Field(m, 12, 2),
        Field(m, 14, 2), Field(b, 4, 4))
  {
    FieldSame(wav, 0, f, 4, 4);
    FieldSame(wav, 20, m, 0, 2);
    FieldSame(wav, 20, m, 2, 2);
    FieldSame(wav, 20, m, 4, 4);
    FieldSame(wav, 20, m, 8, 4);
    FieldSame(wav, 20, m, 12, 2);
    FieldSame(wav, 20, m, 14, 2);
    FieldSame(wav, 36, b, 4, 4);
  }

  lemma HoldsParts(f: seq<Byte>, m: seq<Byte>, b: seq<Byte>, rest: seq<Byte>)
    requires |f| == 20 && |m| == 16 && |b| == 8
    ensures var wav := f + m + b + rest; Holds(wav, 0, f) && Holds(wav, 20, m) && Holds(wav, 36, b)
  {
  }

  lemma LookAtHeader(n: nat, rest: seq<Byte>)
    ensures Look(Header(n) + rest)
      == Found(RiffSize(n), 1, CHANNELS, SAMPLE_RATE, BYTE_RATE, BLOCK_ALIGN, BITS_PER_SAMPLE, DataSize(n))
  {
    var f, m, b := Front(n), Format(), Back(n);
    HoldsParts(f, m, b, rest);
    LookInside(Header(n) + rest, f, m, b);
    LookAtFront(n);
    LookAtFormat();
    LookAtBack(n);
  }

  // The marks that a RIFF reader looks for, in the letters they stand for
  predicate Spells(wav: seq<Byte>, at: nat, mark: string) {
    at + |mark| <= |wav| && forall i :: 0 <= i < |mark| ==> wav[at + i] == mark[i] as int
  }

  lemma MarksStand(n: nat, rest: seq<Byte>)
    ensures var wav := Header(n) + rest; Spells(wav, 0, "RIFF") && Spells(wav, 8, "WAVE") && Spells(wav, 12, "fmt ")
    ensures Spells(Header(n) + rest, 36, "data") && Field(Header(n) + rest, 16, 4) == 16
  {
    var wav := Header(n) + rest;
    FrontMarks(n);
    assert forall i :: 0 <= i < 20 ==> wav[i] == Front(n)[i];
    assert forall i :: 0 <= i < 4 ==> wav[36 + i] == DATA[i];
    Pow256s();
    assert wav[16..16 + 4] == LittleEndian(16, 4);
    FieldOf(wav, 16, 4, 16);
  }

  lemma FrontMarks(n: nat)
    ensures Spells(Front(n), 0, "RIFF") && Spells(Front(n), 8, "WAVE") && Spells(Front(n), 12, "fmt ")
    ensures Front(n)[16..20] == LittleEndian(16, 4)
  {
  }

  lemma SizesFit(n: nat)
    ensures RiffSize(n) == 36 + 2 * n && DataSize(n) == 2 * n <==> 2 * n + 36 < WIDTH_32
  {
  }

  // Main result, exactly: the sizes in the header are those of the file if and only if the bytes of
  // the samples plus 36 fit in 32 bits; the format is right in any case.
  lemma SizesIff(pcm: seq<Sample>)
    ensures
      var wav := Header(|pcm|) + Payload(pcm);
      var found := Look(wav);
      && |wav| == 44 + 2 * |pcm| && wav[44..] == Payload(pcm)
      && (found.riffSize == |wav| - 8 && found.dataSize == |wav| - 44 <==> 2 * |pcm| + 36 < WIDTH_32)
      && found.format == 1 && found.channels == 1 && found.rate == 16000 && found.bits == 16
      && found.align == 2 && found.byteRate == 32000
  {
    LookAtHeader(|pcm|, Payload(pcm));
    SizesFit(|pcm|);
  }

  // -------- the chunks --------

  // What Python's wave module gives for a file, and what may go wrong with it
  datatype Opened = Opened(channels: nat, width: nat, rate: nat, compressed: bool, data: seq<Byte>)

  // InvalidFile stands for EOFError and wave.Error, which become an AudioFormatError like the next
  // four; BadUnpack is struct's error, which passes through.
  datatype Problem = InvalidFile | NotMono | NotPcm16 | WrongRate | Compressed | BadUnpack

  function ProblemOf(w: Opened): Option<Problem> {
    if w.channels != 1 then Some(NotMono)
    else if w.width != 2 then Some(NotPcm16)
    else if w.rate != 16000 then Some(WrongRate)
    else if w.compressed then Some(Compressed)
    else None
  }

  // The wave module's view of a file whose header is the one that write_wav writes
  function Open(wav: seq<Byte>): Opened
    requires |wav| >= 44
  {
    OpenAs(Look(wav), wav)
  }

  function OpenAs(found: Found, wav: seq<Byte>): Opened
    requires |wav| >= 44
  {
    var end := if 44 + found.dataSize <= |wav| then 44 + found.dataSize else |wav|;
    Opened(found.channels, found.bits / 8, found.rate, found.format != 1, wav[44..end])
  }

  function Flatten(chunks: seq<seq<Sample>>): seq<Sample> {
    if chunks == [] then [] else Flatten(chunks[..|chunks| - 1]) + chunks[|chunks| - 1]
  }

  // All chunks but the last are full, and none is empty.
  predicate Chunked(chunks: seq<seq<Sample>>, size: nat) {
    && (forall k :: 0 <= k < |chunks| ==> 0 < |chunks[k]| <= size)
    && (forall k :: 0 <= k < |chunks| - 1 ==> |chunks[k]| == size)
  }

  // wav_pcm16_chunks: the chunks it yields, and what it raises. There is nothing to open when
  // wave.open raises; broken says which call of readframes raises, if one does.
  method WavPcm16Chunks(file: Option<Opened>, chunkMilliseconds: nat, broken: Option<nat>)
    returns (chunks: seq<seq<Sample>>, problem: Option<Problem>)
    ensures file.None? ==> problem == Some(InvalidFile) && chunks == []
    ensures file.Some? && ProblemOf(file.value).Some? ==> problem == ProblemOf(file.value) && chunks == []
    ensures Chunked(chunks, 16 * chunkMilliseconds)
    ensures
      file.Some? && ProblemOf(file.value).None? ==>
        && (broken.None? ==> (problem.Some? <==> chunkMilliseconds > 0 && |file.value.data| % 2 == 1))
        && (problem.None? && chunkMilliseconds > 0 ==> Flatten(chunks) == Unpack(file.value.data))
        && Flatten(chunks) <= Unpack(file.value.data)
  {
    if file.None? {
      return [], Some(InvalidFile);
    }
    var w := file.value;
    if w.channels != 1 {
      return [], Some(NotMono);
    }
    if w.width != 2 {
      return [], Some(NotPcm16);
    }
    if w.rate != 16000 {
      return [], Some(WrongRate);
    }
    if w.compressed {
      return [], Some(Compressed);
    }
    var framesPerChunk := w.rate * chunkMilliseconds / 1000;
    assert framesPerChunk == 16 * chunkMilliseconds;
    chunks, problem := ReadChunks(w.data, framesPerChunk, broken);
  }

  // Its loop over what readframes gives
  method ReadChunks(data: seq<Byte>, frames: nat, broken: Option<nat>)
    returns (chunks: seq<seq<Sample>>, problem: Option<Problem>)
    ensures broken.None? ==> (problem.Some? <==> frames > 0 && |data| % 2 == 1)
    ensures problem == Some(InvalidFile) <==> broken.Some? && |chunks| == broken.value
    ensures problem.Some? ==> problem == Some(InvalidFile) || (problem == Some(BadUnpack) && |data| % 2 == 1)
    ensures Chunked(chunks, frames) && Flatten(chunks) <= Unpack(data)
    ensures problem.None? && frames > 0 ==> Flatten(chunks) == Unpack(data)
  {
    chunks, problem := [], None;
    var rest := data;
    while true
      invariant |rest| % 2 == |data| % 2 && Flatten(chunks) + Unpack(rest) == Unpack(data)
      invariant Chunked(chunks, frames) && (rest != [] ==> AllFull(chunks, frames))
      invariant broken.Some? ==> |chunks| <= broken.value
      decreases |rest|
    {
      if broken == Some(|chunks|) {
        return chunks, Some(InvalidFile);
      }
      var n := if 2 * frames < |rest| then 2 * frames else |rest|;
      var raw := rest[..n];
      if raw == [] {
        break;
      }
      if |raw| % 2 == 1 {
        return chunks, Some(BadUnpack);
      }
      TakeChunk(chunks, rest, n);
      ChunkedPush(chunks, Unpack(raw), frames);
      chunks := chunks + [Unpack(raw)];
      rest := rest[n..];
    }
    assert frames > 0 ==> Flatten(chunks) + [] == Flatten(chunks);
  }

  lemma TakeChunk(chunks: seq<seq<Sample>>, rest: seq<Byte>, n: nat)
    requires n <= |rest| && n % 2 == 0
    ensures Flatten(chunks + [Unpack(rest[..n])]) + Unpack(rest[n..]) == Flatten(chunks) + Unpack(rest)
  {
    assert rest[..n] + rest[n..] == rest;
    UnpackConcat(rest[..n], rest[n..]);
    FlattenPush(chunks, Unpack(rest[..n]), Unpack(rest[n..]));
  }

  predicate AllFull(chunks: seq<seq<Sample>>, size: nat) { forall k :: 0 <= k < |chunks| ==> |chunks[k]| == size }

  lemma ChunkedPush(chunks: seq<seq<Sample>>, chunk: seq<Sample>, size: nat)
    requires Chunked(chunks, size) && AllFull(chunks, size) && 0 < |chunk| <= size
    ensures Chunked(chunks + [chunk], size) && (|chunk| == size ==> AllFull(chunks + [chunk], size))
  {
  }

  lemma FlattenPush(chunks: seq<seq<Sample>>, chunk: seq<Sample>, rest: seq<Sample>)
    ensures Flatten(chunks + [chunk]) + rest == Flatten(chunks) + (chunk + rest)
  {
    assert (chunks + [chunk])[..|chunks|] == chunks;
  }

  // Main result: a file that was written, as long as its sizes fit, is taken without complaint, and
  // its samples are read back; WavPcm16Chunks yields them in chunks of 1600, the last perhaps fewer.
  lemma SamplesBack(pcm: seq<Sample>)
    requires 2 * |pcm| + 36 < WIDTH_32
    ensures
      var w := Open(Header(|pcm|) + Payload(pcm));
      ProblemOf(w) == None && |w.data| % 2 == 0 && Unpack(w.data) == pcm
  {
    WrittenFile(pcm);
    var wav := Header(|pcm|) + Payload(pcm);
    OpenWritten(Look(wav), wav, Payload(pcm));
    UnpackPayload(pcm);
  }

  lemma WrittenFile(pcm: seq<Sample>)
    requires 2 * |pcm| + 36 < WIDTH_32
    ensures
      var wav := Header(|pcm|) + Payload(pcm);
      && Look(wav) == Found(36 + 2 * |pcm|, 1, 1, 16000, 32000, 2, 16, 2 * |pcm|)
      && |wav| == 44 + 2 * |pcm| && wav[44..] == Payload(pcm)
  {
    SizesIff(pcm);
  }

  lemma OpenWritten(found: Found, wav: seq<Byte>, data: seq<Byte>)
    requires |wav| == 44 + |data| && wav[44..] == data
    requires found == Found(36 + |data|, 1, 1, 16000, 32000, 2, 16, |data|)
    ensures OpenAs(found, wav) == Opened(1, 2, 16000, false, data)
  {
    assert wav[44..44 + |data|] == wav[44..];
  }
}

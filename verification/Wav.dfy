/** WAV containers byte by byte: the writer of the inbound recorder, the reader of the speech sink, and
    the splitting of audio into pieces. */
module Wav {
  import opened Wrappers

  type Byte = b: int | 0 <= b < 256

  type Bytes = seq<Byte>

  const RIFF: Bytes := [82, 73, 70, 70]
  const WAVE: Bytes := [87, 65, 86, 69]
  const FMT: Bytes := [102, 109, 116, 32]
  const DATA: Bytes := [100, 97, 116, 97]

  const TWO32: int := 0x1_0000_0000

  // ----- little-endian fields; converting to a fixed width drops the high bits

  function LE16(n: int): (r: Bytes)
    ensures |r| == 2
  {
    [n % 256, n / 256 % 256]
  }

  function LE32(n: int): (r: Bytes)
    ensures |r| == 4
  {
    [n % 256, n / 256 % 256, n / 65536 % 256, n / 16777216 % 256]
  }

  function FromLE32(b: Bytes): (n: nat)
    requires |b| == 4
    ensures n < TWO32
  {
    (b[0] as int) + 256 * (b[1] as int) + 65536 * (b[2] as int) + 16777216 * (b[3] as int)
  }

  lemma LE32RoundTrip(n: int)
    ensures FromLE32(LE32(n)) == n % TWO32
  {
    assert n / 65536 == n / 256 / 256;
    assert n / 16777216 == n / 256 / 256 / 256;
    assert n / TWO32 == n / 256 / 256 / 256 / 256;
  }

  lemma FromLE32RoundTrip(b: Bytes)
    requires |b| == 4
    ensures LE32(FromLE32(b)) == b
  {
    var n := FromLE32(b);
    assert n / 256 == (b[1] as int) + 256 * (b[2] as int) + 65536 * (b[3] as int);
    assert n / 65536 == (b[2] as int) + 256 * (b[3] as int);
    assert n / 16777216 == b[3];
  }

  // ----- the writer

  /** The file for mono 16-bit PCM: a 44-byte header and the samples. */
  function WavFile(pcm: Bytes, sampleRate: int): Bytes {
    RIFF + LE32(36 + |pcm|) + WAVE
    + FMT + LE32(16) + LE16(1) + LE16(1) + LE32(sampleRate) + LE32(sampleRate * 2) + LE16(2) + LE16(16)
    + DATA + LE32(|pcm|) + pcm
  }

  method PutBytes(out: array<Byte>, at: nat, bytes: Bytes)
    requires at + |bytes| <= out.Length
    modifies out
    ensures out[..] == old(out[..at]) + bytes + old(out[at + |bytes|..])
  {
    var i := 0;
    while i < |bytes|
      invariant i <= |bytes|
      invariant out[..at] == old(out[..at])
      invariant out[at..at + i] == bytes[..i]
      invariant out[at + i..] == old(out[at + i..])
    {
      out[at + i] := bytes[i];
      i := i + 1;
      assert out[at..at + i] == bytes[..i];
    }
    assert out[..] == out[..at] + out[at..at + |bytes|] + out[at + |bytes|..];
  }

  /** Appends the next field to the part of the buffer that is already filled. */
  method PutNext(out: array<Byte>, ghost done: Bytes, at: nat, bytes: Bytes) returns (next: nat, ghost filled: Bytes)
    requires at + |bytes| <= out.Length && out[..at] == done
    modifies out
    ensures next == at + |bytes| && filled == done + bytes && out[..next] == filled
  {
    PutBytes(out, at, bytes);
    next, filled := at + |bytes|, done + bytes;
    assert out[..next] == (old(out[..at]) + bytes + old(out[next..]))[..next];
  }

  method EncodePCM16MonoWAV(pcm: Bytes, sampleRate: int) returns (out: array<Byte>)
    ensures fresh(out) && out[..] == WavFile(pcm, sampleRate)
  {
    hide LE16, LE32;
    out := new Byte[44 + |pcm|];
    var blockAlign := 1 * (16 / 8);
    var byteRate := sampleRate * blockAlign;
    PutBytes(out, 0, RIFF);
    assert out[..4] == RIFF;
    var at, w := PutNext(out, RIFF, 4, LE32(36 + |pcm|));
    at, w := PutNext(out, w, at, WAVE);
    at, w := PutNext(out, w, at, FMT);
    at, w := PutNext(out, w, at, LE32(16));
    at, w := PutNext(out, w, at, LE16(1));
    at, w := PutNext(out, w, at, LE16(1));
    at, w := PutNext(out, w, at, LE32(sampleRate));
    at, w := PutNext(out, w, at, LE32(byteRate));
    at, w := PutNext(out, w, at, LE16(blockAlign));
    at, w := PutNext(out, w, at, LE16(16));
    at, w := PutNext(out, w, at, DATA);
    at, w := PutNext(out, w, at, LE32(|pcm|));
    at, w := PutNext(out, w, at, pcm);
    assert out[..at] == out[..];
  }

  // ----- the reader

  /** The body of the first data chunk from `offset` on. */
  function FindData(raw: Bytes, offset: nat): Option<Bytes>
    decreases |raw| - offset
  {
    if offset + 8 > |raw| then None
    else
      var size := FromLE32(raw[offset + 4..offset + 8]);
      var body := offset + 8;
      if body + size > |raw| then None
      else if raw[offset..offset + 4] == DATA then Some(raw[body..body + size])
      else FindData(raw, body + size + size % 2)
  }

  predicate IsWave(raw: Bytes) {
    |raw| >= 44 && raw[0..4] == RIFF && raw[8..12] == WAVE
  }

  function PcmData(raw: Bytes): Option<Bytes> {
    if IsWave(raw) then FindData(raw, 12) else None
  }

  method WavPCMData(raw: Bytes) returns (r: Option<Bytes>)
    ensures r == PcmData(raw)
  {
    if |raw| < 44 || raw[0..4] != RIFF || raw[8..12] != WAVE { return None; }
    var offset := 12;
    while offset + 8 <= |raw|
      invariant FindData(raw, offset) == FindData(raw, 12)
      decreases |raw| - offset
    {
      var chunkID := raw[offset..offset + 4];
      var chunkSize := FromLE32(raw[offset + 4..offset + 8]);
      ghost var start := offset;
      offset := offset + 8;
      if offset + chunkSize > |raw| { return None; }
      if chunkID == DATA { return Some(raw[offset..offset + chunkSize]); }
      offset := offset + chunkSize;
      if chunkSize % 2 == 1 { offset := offset + 1; }
      assert FindData(raw, start) == FindData(raw, offset);
    }
    return None;
  }

  // ----- what the reader finds

  datatype Chunk = Chunk(id: Bytes, body: Bytes, pad: Bytes)

  /** A chunk with its four-letter name; bodies of odd length are padded to an even one. */
  predicate WellFormed(c: Chunk) {
    |c.id| == 4 && c.id != DATA && |c.body| < TWO32 && |c.pad| == |c.body| % 2
  }

  /** Chunks one after another, followed by `tail`. */
  function Layout(chunks: seq<Chunk>, tail: Bytes): Bytes
    decreases |chunks|
  {
    if chunks == [] then tail
    else
      var c := chunks[0];
      c.id + (LE32(|c.body|) + (c.body + (c.pad + Layout(chunks[1..], tail))))
  }

  function DataChunk(data: Bytes, after: Bytes): Bytes {
    DATA + (LE32(|data|) + (data + after))
  }

  lemma Cut(raw: Bytes, offset: nat, x: Bytes, y: Bytes)
    requires offset <= |raw| && raw[offset..] == x + y
    ensures offset + |x| <= |raw|
    ensures raw[offset..offset + |x|] == x && raw[offset + |x|..] == y
  {
    assert raw[offset..offset + |x|] == raw[offset..][..|x|];
    assert raw[offset + |x|..] == raw[offset..][|x|..];
  }

  lemma TakesData(raw: Bytes, offset: nat, data: Bytes, after: Bytes)
    requires |data| < TWO32
    requires offset <= |raw| && raw[offset..] == DataChunk(data, after)
    ensures FindData(raw, offset) == Some(data)
  {
    hide LE32, FromLE32;
    LE32RoundTrip(|data|);
    Cut(raw, offset, DATA, LE32(|data|) + (data + after));
    Cut(raw, offset + 4, LE32(|data|), data + after);
    Cut(raw, offset + 8, data, after);
  }

  lemma FindStep(raw: Bytes, offset: nat, size: nat)
    requires offset + 8 + size <= |raw|
    requires raw[offset..offset + 4] != DATA
    requires FromLE32(raw[offset + 4..offset + 8]) == size
    ensures FindData(raw, offset) == FindData(raw, offset + 8 + size + size % 2)
  {
    hide FromLE32;
  }

  lemma SkipsChunk(raw: Bytes, offset: nat, c: Chunk, rest: Bytes)
    requires WellFormed(c)
    requires offset <= |raw| && raw[offset..] == c.id + (LE32(|c.body|) + (c.body + (c.pad + rest)))
    ensures
      var next := offset + 8 + |c.body| + |c.pad|;
      next <= |raw| && raw[next..] == rest && FindData(raw, offset) == FindData(raw, next)
  {
    hide LE32, FromLE32, FindData;
    var n := |c.body|;
    LE32RoundTrip(n);
    Cut(raw, offset, c.id, LE32(n) + (c.body + (c.pad + rest)));
    Cut(raw, offset + 4, LE32(n), c.body + (c.pad + rest));
    Cut(raw, offset + 8, c.body, c.pad + rest);
    Cut(raw, offset + 8 + n, c.pad, rest);
    FindStep(raw, offset, n);
  }

  /** The reader skips any chunks in front of the data chunk and ignores whatever follows it. */
  lemma {:induction false} FindsData(raw: Bytes, offset: nat, chunks: seq<Chunk>, data: Bytes, after: Bytes)
    requires forall i :: 0 <= i < |chunks| ==> WellFormed(chunks[i])
    requires |data| < TWO32
    requires offset <= |raw| && raw[offset..] == Layout(chunks, DataChunk(data, after))
    ensures FindData(raw, offset) == Some(data)
    decreases |chunks|
  {
    hide LE32, DataChunk, FindData;
    if chunks == [] {
      TakesData(raw, offset, data, after);
    } else {
      var c := chunks[0];
      SkipsChunk(raw, offset, c, Layout(chunks[1..], DataChunk(data, after)));
      FindsData(raw, offset + 8 + |c.body| + |c.pad|, chunks[1..], data, after);
    }
  }

  lemma Join(raw: Bytes, i: nat, j: nat)
    requires i <= j <= |raw|
    ensures raw[i..] == raw[i..j] + raw[j..]
  {
  }

  lemma ReadsData(raw: Bytes, offset: nat, data: Bytes) returns (after: Bytes)
    requires offset + 8 <= |raw| && raw[offset..offset + 4] == DATA
    requires FindData(raw, offset) == Some(data)
    ensures |data| < TWO32 && raw[offset..] == DataChunk(data, after)
  {
    hide LE32, FromLE32;
    var sizeField := raw[offset + 4..offset + 8];
    FromLE32RoundTrip(sizeField);
    Join(raw, offset, offset + 4);
    Join(raw, offset + 4, offset + 8);
    Join(raw, offset + 8, offset + 8 + FromLE32(sizeField));
    after := raw[offset + 8 + FromLE32(sizeField)..];
  }

  lemma ReadsChunk(raw: Bytes, offset: nat, data: Bytes) returns (c: Chunk, next: nat)
    requires offset + 8 <= |raw| && raw[offset..offset + 4] != DATA
    requires FindData(raw, offset) == Some(data)
    ensures WellFormed(c) && offset < next <= |raw| && FindData(raw, next) == Some(data)
    ensures raw[offset..] == c.id + (LE32(|c.body|) + (c.body + (c.pad + raw[next..])))
  {
    hide LE32, FromLE32;
    var sizeField := raw[offset + 4..offset + 8];
    var size := FromLE32(sizeField);
    FromLE32RoundTrip(sizeField);
    next := offset + 8 + size + size % 2;
    assert FindData(raw, next) == Some(data);
    hide FindData;
    Join(raw, offset, offset + 4);
    Join(raw, offset + 4, offset + 8);
    Join(raw, offset + 8, offset + 8 + size);
    Join(raw, offset + 8 + size, next);
    c := Chunk(raw[offset..offset + 4], raw[offset + 8..offset + 8 + size], raw[offset + 8 + size..next]);
  }

  /** And whatever it returns is the body of the first data chunk of a well-formed layout. */
  lemma {:induction false} FoundIsData(raw: Bytes, offset: nat, data: Bytes) returns (chunks: seq<Chunk>, after: Bytes)
    requires offset <= |raw|
    requires FindData(raw, offset) == Some(data)
    ensures forall i :: 0 <= i < |chunks| ==> WellFormed(chunks[i])
    ensures |data| < TWO32
    ensures raw[offset..] == Layout(chunks, DataChunk(data, after))
    decreases |raw| - offset
  {
    assert offset + 8 <= |raw|;
    hide FindData, DataChunk, Layout, LE32, WellFormed;
    if raw[offset..offset + 4] == DATA {
      after := ReadsData(raw, offset, data);
      chunks := [];
      EmptyLayout(DataChunk(data, after));
    } else {
      var c, next := ReadsChunk(raw, offset, data);
      var rest;
      rest, after := FoundIsData(raw, next, data);
      chunks := [c] + rest;
      LayoutFront(c, rest, DataChunk(data, after));
    }
  }

  lemma EmptyLayout(tail: Bytes)
    ensures Layout([], tail) == tail
  {
  }

  lemma LayoutFront(c: Chunk, rest: seq<Chunk>, tail: Bytes)
    ensures Layout([c] + rest, tail) == c.id + (LE32(|c.body|) + (c.body + (c.pad + Layout(rest, tail))))
  {
    assert ([c] + rest)[1..] == rest;
  }

  ghost predicate FirstData(raw: Bytes, chunks: seq<Chunk>, data: Bytes, after: Bytes) {
    && (forall i :: 0 <= i < |chunks| ==> WellFormed(chunks[i]))
    && |data| < TWO32
    && |raw| >= 12 && raw[12..] == Layout(chunks, DataChunk(data, after))
  }

  /** The reader accepts exactly the RIFF/WAVE files that have a complete data chunk behind complete other
      chunks, and returns the body of the first one. */
  lemma PcmDataIff(raw: Bytes, data: Bytes)
    ensures PcmData(raw) == Some(data) <==>
              IsWave(raw) && exists chunks, after :: FirstData(raw, chunks, data, after)
  {
    hide FindData, Layout, DataChunk;
    if PcmData(raw) == Some(data) {
      var chunks, after := FoundIsData(raw, 12, data);
      assert FirstData(raw, chunks, data, after);
    }
    if IsWave(raw) && exists chunks, after :: FirstData(raw, chunks, data, after) {
      var chunks, after :| FirstData(raw, chunks, data, after);
      FindsData(raw, 12, chunks, data, after);
    }
  }

  function Format(sampleRate: int): Bytes {
    LE16(1) + (LE16(1) + (LE32(sampleRate) + (LE32(sampleRate * 2) + (LE16(2) + LE16(16)))))
  }

  lemma AppendThree(x: Bytes, a: Bytes, b: Bytes, c: Bytes)
    ensures x + a + b + c == x + (a + (b + c))
  {
  }

  lemma AppendSix(x: Bytes, a: Bytes, b: Bytes, c: Bytes, d: Bytes, e: Bytes, f: Bytes)
    ensures x + a + b + c + d + e + f == x + (a + (b + (c + (d + (e + f)))))
  {
    AppendThree(x, a, b, c);
    AppendThree(x + (a + (b + c)), d, e, f);
    AppendThree(x, a + (b + c), d + (e + f), []);
    AppendThree(a, b, c, d + (e + f));
    assert d + (e + f) + [] == d + (e + f);
  }

  lemma WavFileParts(pcm: Bytes, sampleRate: int)
    ensures |Format(sampleRate)| == 16
    ensures WavFile(pcm, sampleRate) ==
              RIFF + LE32(36 + |pcm|) + WAVE + FMT + LE32(16) + Format(sampleRate) + (DATA + (LE32(|pcm|) + pcm))
  {
    hide LE16, LE32;
    var body := RIFF + LE32(36 + |pcm|) + WAVE + FMT + LE32(16);
    AppendSix(body, LE16(1), LE16(1), LE32(sampleRate), LE32(sampleRate * 2), LE16(2), LE16(16));
    AppendThree(body + Format(sampleRate), DATA, LE32(|pcm|), pcm);
  }

  /** A written file is a RIFF header, the format chunk and the samples as data chunk. */
  lemma WavFileLayout(pcm: Bytes, sampleRate: int)
    ensures |Format(sampleRate)| == 16
    ensures WavFile(pcm, sampleRate) ==
              RIFF + (LE32(36 + |pcm|)
                      + (WAVE + Layout([Chunk(FMT, Format(sampleRate), [])], DATA + (LE32(|pcm|) + pcm))))
  {
    WavFileParts(pcm, sampleRate);
    LayoutOfOne(Chunk(FMT, Format(sampleRate), []), DATA + (LE32(|pcm|) + pcm));
    AppendSix(RIFF, LE32(36 + |pcm|), WAVE, FMT, LE32(16), Format(sampleRate), DATA + (LE32(|pcm|) + pcm));
    hide LE16, LE32, Format, WavFile, Layout;
  }

  lemma LayoutOfOne(c: Chunk, tail: Bytes)
    requires c.pad == []
    ensures Layout([c], tail) == c.id + (LE32(|c.body|) + (c.body + tail))
  {
    assert Layout([c][1..], tail) == tail;
    assert [] + tail == tail;
  }

  lemma FormatFields(sampleRate: int)
    ensures
      var f := Format(sampleRate);
      && |f| == 16 && f[..4] == [1, 0, 1, 0] && f[12..] == [2, 0, 16, 0]
      && FromLE32(f[4..8]) == sampleRate % TWO32 && FromLE32(f[8..12]) == sampleRate * 2 % TWO32
  {
    LE32RoundTrip(sampleRate);
    LE32RoundTrip(sampleRate * 2);
    hide LE32, FromLE32;
    var f := Format(sampleRate);
    assert f[4..8] == LE32(sampleRate) && f[8..12] == LE32(sampleRate * 2);
  }

  /** What the header says: linear samples of 16 bits on one channel, two bytes each, at this rate, and how
      many bytes of them follow, as far as 32 bits can say it. */
  lemma HeaderFields(pcm: Bytes, sampleRate: int)
    ensures
      var raw := WavFile(pcm, sampleRate);
      && |raw| == 44 + |pcm| && raw[44..] == pcm
      && raw[..4] == RIFF && raw[8..12] == WAVE && raw[12..16] == FMT && raw[36..40] == DATA
      && FromLE32(raw[16..20]) == 16 && raw[20..24] == [1, 0, 1, 0] && raw[32..36] == [2, 0, 16, 0]
      && FromLE32(raw[24..28]) == sampleRate % TWO32 && FromLE32(raw[28..32]) == sampleRate * 2 % TWO32
      && FromLE32(raw[40..44]) == |pcm| % TWO32
  {
    hide LE16, LE32, FromLE32, WavFile, Format, Layout;
    var raw, f := WavFile(pcm, sampleRate), Format(sampleRate);
    WavFileLength(pcm, sampleRate);
    WavFileLayout(pcm, sampleRate);
    FormatFields(sampleRate);
    LE32RoundTrip(16);
    LE32RoundTrip(|pcm|);
    LayoutOfOne(Chunk(FMT, f, []), DATA + (LE32(|pcm|) + pcm));
    var samples := DATA + (LE32(|pcm|) + pcm);
    assert raw[0..] == raw;
    Cut(raw, 0, RIFF, LE32(36 + |pcm|) + (WAVE + (FMT + (LE32(16) + (f + samples)))));
    Cut(raw, 4, LE32(36 + |pcm|), WAVE + (FMT + (LE32(16) + (f + samples))));
    Cut(raw, 8, WAVE, FMT + (LE32(16) + (f + samples)));
    Cut(raw, 12, FMT, LE32(16) + (f + samples));
    Cut(raw, 16, LE32(16), f + samples);
    Cut(raw, 20, f, samples);
    Cut(raw, 36, DATA, LE32(|pcm|) + pcm);
    Cut(raw, 40, LE32(|pcm|), pcm);
    Within(raw, 20, f);
  }

  lemma Within(raw: Bytes, at: nat, f: Bytes)
    requires |f| == 16 && at + 16 <= |raw| && raw[at..at + 16] == f
    ensures raw[at..at + 4] == f[..4] && raw[at + 4..at + 8] == f[4..8]
    ensures raw[at + 8..at + 12] == f[8..12] && raw[at + 12..at + 16] == f[12..]
  {
    SliceOfSlice(raw, at, 0, 4);
    SliceOfSlice(raw, at, 4, 8);
    SliceOfSlice(raw, at, 8, 12);
    SliceOfSlice(raw, at, 12, 16);
    assert f[12..16] == f[12..];
  }

  lemma SliceOfSlice(raw: Bytes, at: nat, i: nat, j: nat)
    requires i <= j <= 16 && at + 16 <= |raw|
    ensures raw[at..at + 16][i..j] == raw[at + i..at + j]
  {
    var part, whole := raw[at..at + 16][i..j], raw[at + i..at + j];
    forall k | 0 <= k < |part|
      ensures part[k] == whole[k]
    {
      assert part[k] == raw[at..at + 16][i + k] == raw[at + i + k];
    }
  }

  /** Reading back what the writer wrote yields the samples up to what the 32-bit size field can say. */
  lemma ReadBack(pcm: Bytes, sampleRate: int)
    ensures PcmData(WavFile(pcm, sampleRate)) == Some(pcm[..|pcm| % TWO32])
  {
    hide LE16, LE32, FromLE32, WavFile, Format;
    var raw := WavFile(pcm, sampleRate);
    var format := Chunk(FMT, Format(sampleRate), []);
    var n := |pcm| % TWO32;
    WavFileLayout(pcm, sampleRate);
    LE32OfRemainder(|pcm|);
    assert pcm == pcm[..n] + pcm[n..];
    var rest := Layout([format], DataChunk(pcm[..n], pcm[n..]));
    assert raw == raw[0..] == RIFF + (LE32(36 + |pcm|) + (WAVE + rest));
    Cut(raw, 0, RIFF, LE32(36 + |pcm|) + (WAVE + rest));
    Cut(raw, 4, LE32(36 + |pcm|), WAVE + rest);
    Cut(raw, 8, WAVE, rest);
    FindsData(raw, 12, [format], pcm[..n], pcm[n..]);
  }

  lemma LE32OfRemainder(n: nat)
    ensures LE32(n % TWO32) == LE32(n)
  {
    LE32RoundTrip(n);
    FromLE32RoundTrip(LE32(n));
  }

  /** The round trip is exact precisely when the samples fit the size field. */
  lemma RoundTripIff(pcm: Bytes, sampleRate: int)
    ensures PcmData(WavFile(pcm, sampleRate)) == Some(pcm) <==> |pcm| < 0x1_0000_0000
  {
    hide PcmData, WavFile;
    ReadBack(pcm, sampleRate);
    if |pcm| >= TWO32 {
      assert |pcm[..|pcm| % TWO32]| < |pcm|;
    } else {
      assert |pcm| % TWO32 == |pcm|;
      assert pcm[..|pcm|] == pcm;
    }
  }

  lemma WavFileLength(pcm: Bytes, sampleRate: int)
    ensures |WavFile(pcm, sampleRate)| == 44 + |pcm|
  {
    hide LE16, LE32;
  }

  /** The container's own size field is honest a little earlier: it counts 36 header bytes as well. */
  lemma RiffSizeIff(pcm: Bytes, sampleRate: int)
    ensures FromLE32(WavFile(pcm, sampleRate)[4..8]) == |WavFile(pcm, sampleRate)| - 8 <==> |pcm| < 0x1_0000_0000 - 36
  {
    hide WavFile, LE32, LE16, FromLE32, Layout, Format;
    WavFileLayout(pcm, sampleRate);
    var rest := WAVE + Layout([Chunk(FMT, Format(sampleRate), [])], DATA + (LE32(|pcm|) + pcm));
    var raw := WavFile(pcm, sampleRate);
    assert raw[0..] == raw;
    Cut(raw, 0, RIFF, LE32(36 + |pcm|) + rest);
    Cut(raw, 4, LE32(36 + |pcm|), rest);
    LE32RoundTrip(36 + |pcm|);
    WavFileLength(pcm, sampleRate);
  }

  // ----- audio as it is shipped

  datatype Audio = Audio(data: Bytes, encoding: string)

  function NormalizeTTSAudio(raw: Bytes, declared: string): Audio {
    if declared == "pcm_s16le" then Audio(raw, declared)
    else match PcmData(raw)
      case Some(pcm) => Audio(pcm, "pcm_s16le")
      case None => Audio(raw, "audio_container")
  }

  const MAX_PIECE: int := 8192

  function Concat(pieces: seq<Bytes>): Bytes
    decreases |pieces|
  {
    if pieces == [] then [] else Concat(pieces[..|pieces| - 1]) + pieces[|pieces| - 1]
  }

  /** Lossless and full: the pieces add up to the data, all but the last have the full size, none is empty. */
  ghost predicate SplitOf(pieces: seq<Bytes>, data: Bytes, size: nat) {
    && Concat(pieces) == data
    && (forall i :: 0 <= i < |pieces| - 1 ==> |pieces[i]| == size)
    && (forall i :: 0 <= i < |pieces| ==> 0 < |pieces[i]| <= size)
  }

  method SplitBytes(data: Bytes, max: int) returns (pieces: seq<Bytes>)
    ensures SplitOf(pieces, data, if max <= 0 then MAX_PIECE else max)
  {
    pieces := [];
    if |data| == 0 { return; }
    var size := if max <= 0 then MAX_PIECE else max;
    var rest := data;
    while |rest| > 0
      invariant Concat(pieces) + rest == data
      invariant forall i :: 0 <= i < |pieces| - 1 ==> |pieces[i]| == size
      invariant forall i :: 0 <= i < |pieces| ==> 0 < |pieces[i]| <= size
      invariant rest != [] ==> forall i :: 0 <= i < |pieces| ==> |pieces[i]| == size
      decreases |rest|
    {
      var n := size;
      if |rest| < n { n := |rest|; }
      ghost var before := pieces;
      pieces := pieces + [rest[..n]];
      assert pieces[..|pieces| - 1] == before;
      assert Concat(pieces) + rest[n..] == Concat(before) + (rest[..n] + rest[n..]);
      assert rest[..n] + rest[n..] == rest;
      rest := rest[n..];
    }
  }

  /** The split as a function. */
  function Pieces(data: Bytes, size: nat): seq<Bytes>
    requires size > 0
    decreases |data|
  {
    if data == [] then [] else if |data| <= size then [data] else [data[..size]] + Pieces(data[size..], size)
  }

  lemma {:induction false} ConcatFront(first: Bytes, rest: seq<Bytes>)
    ensures Concat([first] + rest) == first + Concat(rest)
    decreases |rest|
  {
    var all := [first] + rest;
    if rest == [] {
      assert all[..0] == [];
    } else {
      var k := |rest| - 1;
      assert all[..|all| - 1] == [first] + rest[..k];
      ConcatFront(first, rest[..k]);
    }
  }

  lemma {:induction false} PiecesSplit(data: Bytes, size: nat)
    requires size > 0
    ensures SplitOf(Pieces(data, size), data, size)
    decreases |data|
  {
    if data != [] && |data| > size {
      PiecesSplit(data[size..], size);
      ConcatFront(data[..size], Pieces(data[size..], size));
      assert data == data[..size] + data[size..];
    } else if data != [] {
      assert [data][..0] == [];
    }
  }

  /** A split is determined by the data and the size: there is no other way to cut. */
  lemma {:induction false} SplitUnique(a: seq<Bytes>, b: seq<Bytes>, data: Bytes, size: nat)
    requires size > 0 && SplitOf(a, data, size) && SplitOf(b, data, size)
    ensures a == b
    decreases |a|
  {
    SplitLength(a, data, size);
    SplitLength(b, data, size);
    if a != [] {
      var k := |a| - 1;
      SplitLength(a[..k], Concat(a[..k]), size);
      SplitLength(b[..k], Concat(b[..k]), size);
      assert |Concat(a[..k])| == k * size == |Concat(b[..k])|;
      assert Concat(a[..k]) == data[..k * size] == Concat(b[..k]);
      assert a[k] == data[k * size..] == b[k];
      SplitUnique(a[..k], b[..k], data[..k * size], size);
      assert a == a[..k] + [a[k]] && b == b[..k] + [b[k]];
    }
  }

  lemma {:induction false} FullLength(pieces: seq<Bytes>, size: nat)
    requires forall i :: 0 <= i < |pieces| ==> |pieces[i]| == size
    ensures |Concat(pieces)| == |pieces| * size
    decreases |pieces|
  {
    if pieces != [] {
      FullLength(pieces[..|pieces| - 1], size);
      assert |pieces| * size == (|pieces| - 1) * size + size;
    }
  }

  lemma SplitLength(pieces: seq<Bytes>, data: Bytes, size: nat)
    requires size > 0 && SplitOf(pieces, data, size)
    ensures pieces == [] <==> data == []
    ensures pieces != [] ==> (|pieces| - 1) * size < |data| <= |pieces| * size
    ensures |pieces| == (|data| + size - 1) / size
    ensures pieces != [] ==> |Concat(pieces[..|pieces| - 1])| == (|pieces| - 1) * size
  {
    if pieces != [] {
      FullLength(pieces[..|pieces| - 1], size);
      DivideUp(|data|, |pieces|, size);
    }
  }

  lemma DivideUp(n: nat, k: nat, size: nat)
    requires size > 0 && (k - 1) * size < n <= k * size
    ensures (n + size - 1) / size == k
  {
    var x := n + size - 1;
    var q := x / size;
    assert (q - k) * size == x - x % size - k * size;
    assert q - k >= 1 ==> (q - k) * size >= size;
    assert q - k <= -1 ==> (q - k) * size + size <= 0;
  }

  // ----- the inbound recorder

  /** Collects frames and writes a numbered file whenever a chunk is full, and the rest when it is closed.
      A part whose directory or file cannot be written is dropped, and its number is used up. */
  class InboundRecorder {
    const chunkBytes: nat
    const sampleRate: int
    // Which parts the file system lets be written.
    const writable: nat -> bool
    var buf: Bytes
    var closed: bool
    var part: nat
    var files: map<nat, Bytes>
    // Every part that was cut, and all that was read while open.
    ghost var parts: seq<Bytes>
    ghost var heard: Bytes

    /** Nothing heard is reordered, or lost but for parts that could not be written: the parts hold it in
        full chunks, the buffer the rest, and the files exactly the writable parts under their numbers. */
    ghost predicate Valid()
      reads this
    {
      && 0 < chunkBytes
      && Concat(parts) + buf == heard
      && (closed ==> buf == [])
      && (!closed ==> |buf| < chunkBytes && forall i :: 0 <= i < |parts| ==> |parts[i]| == chunkBytes)
      && SplitOf(parts, Concat(parts), chunkBytes)
      && Numbered()
    }

    ghost predicate Numbered()
      reads this
    {
      && part == |parts|
      && (forall n :: n in files <==> 1 <= n <= part && writable(n))
      && (forall n :: n in files ==> files[n] == WavFile(parts[n - 1], sampleRate))
    }

    constructor (chunkBytes: nat, sampleRate: int, writable: nat -> bool)
      requires 0 < chunkBytes
      ensures Valid() && heard == [] && !closed && this.chunkBytes == chunkBytes && this.writable == writable
      ensures this.sampleRate == sampleRate
    {
      this.chunkBytes, this.sampleRate, this.writable := chunkBytes, sampleRate, writable;
      buf, closed, part, files, parts, heard := [], false, 0, map[], [], [];
    }

    method Flush(pcm: Bytes)
      requires pcm != [] && Numbered()
      modifies this
      ensures Numbered() && part == old(part) + 1 && parts == old(parts) + [pcm]
      ensures files == if writable(part) then old(files)[part := WavFile(pcm, sampleRate)] else old(files)
      ensures buf == old(buf) && closed == old(closed) && heard == old(heard)
      ensures Concat(parts) == Concat(old(parts)) + pcm
    {
      part := part + 1;
      parts := parts + [pcm];
      assert parts[..|parts| - 1] == old(parts);
      var file := EncodePCM16MonoWAV(pcm, sampleRate);
      if !writable(part) { return; }
      files := files[part := file[..]];
    }

    /** Frames read after closing are passed on but no longer recorded. */
    method ReadFrame(pcm: Bytes)
      requires Valid()
      modifies this
      ensures Valid() && closed == old(closed)
      ensures heard == if closed then old(heard) else old(heard) + pcm
    {
      hide WavFile, Concat;
      if closed { return; }
      assert (Concat(parts) + buf) + pcm == Concat(parts) + (buf + pcm);
      buf := buf + pcm;
      heard := heard + pcm;
      while |buf| >= chunkBytes
        invariant 0 < chunkBytes && !closed && heard == old(heard) + pcm
        invariant Concat(parts) + buf == heard
        invariant forall i :: 0 <= i < |parts| ==> |parts[i]| == chunkBytes
        invariant Numbered()
        decreases |buf|
      {
        var chunk := buf[..chunkBytes];
        assert Concat(parts) + (chunk + buf[chunkBytes..]) == (Concat(parts) + chunk) + buf[chunkBytes..];
        assert chunk + buf[chunkBytes..] == buf;
        buf := buf[chunkBytes..];
        Flush(chunk);
      }
    }

    /** After closing, the parts are a split of everything that was heard. */
    method Close()
      requires Valid()
      modifies this
      ensures Valid() && closed && heard == old(heard)
      ensures SplitOf(parts, heard, chunkBytes)
    {
      if !closed {
        closed := true;
        if |buf| > 0 {
          var chunk := buf;
          buf := [];
          Flush(chunk);
        }
      }
      assert Concat(parts) + [] == Concat(parts);
    }

    /** Each part has a file exactly if it could be written, and decoding that file gives the part back. */
    lemma FilesDecode(n: nat)
      requires Valid() && chunkBytes < TWO32
      ensures n in files <==> 1 <= n <= |parts| && writable(n)
      ensures n in files ==> PcmData(files[n]) == Some(parts[n - 1])
    {
      if n in files {
        RoundTripIff(parts[n - 1], sampleRate);
      }
    }
  }
}

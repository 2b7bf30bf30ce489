/** The RIFF container as the recorder writes it: chunks are a FOURCC, a
    32-bit little-endian payload size and the payload, padded to an even
    length; the file is one RIFF chunk whose payload is the form type
    "WAVE" followed by a "fmt " chunk and a "data" chunk. */
module Riff {
  import opened Bytes
  import opened WaveFormat

  datatype Option<T> = None | Some(value: T)

  /** One chunk: its identifier and its payload (without the pad byte). */
  datatype Chunk = Chunk(id: seq<Byte>, payload: seq<Byte>)

  /** What a reader recovers from a wave file. */
  datatype WaveFile = WaveFile(format: WaveFormatEx, data: seq<Byte>)

  const RiffId: seq<Byte> := FourCC("RIFF")
  const WaveType: seq<Byte> := FourCC("WAVE")
  const FmtId: seq<Byte> := FourCC("fmt ")
  const DataId: seq<Byte> := FourCC("data")

  /** Header bytes before the wave data: RIFF header (12), "fmt " header and
      payload (8 + 16), "data" header (8). */
  const DataOffset: nat := 44

  /** The largest `data` payload whose file still has a RIFF size that fits
      its 32-bit field. */
  const MaxDataSize: nat := 0xFFFF_FFFF - 37

  /** The pad byte that follows an odd-length payload. */
  function Pad(n: nat): (r: seq<Byte>)
    ensures |r| == n % 2
  {
    if n % 2 == 1 then [0] else []
  }

  predicate WellFormedChunk(c: Chunk) {
    |c.id| == 4 && |c.payload| < 0x1_0000_0000
  }

  function EncodeChunk(c: Chunk): (r: seq<Byte>)
    requires WellFormedChunk(c)
    ensures |r| == 8 + |c.payload| + |c.payload| % 2
  {
    c.id + Le32(|c.payload|) + c.payload + Pad(|c.payload|)
  }

  function EncodeChunks(cs: seq<Chunk>): seq<Byte>
    requires forall i :: 0 <= i < |cs| ==> WellFormedChunk(cs[i])
  {
    if cs == [] then [] else EncodeChunk(cs[0]) + EncodeChunks(cs[1..])
  }

  /** Splits a chunk list back into chunks; None when a header is cut short
      or a declared size (plus pad) runs past the end. */
  function ParseChunks(s: seq<Byte>): (r: Option<seq<Chunk>>)
    ensures r.Some? ==> forall i :: 0 <= i < |r.value| ==> WellFormedChunk(r.value[i])
    decreases |s|
  {
    if s == [] then Some([])
    else if |s| < 8 then None
    else
      var n := ReadLe32(s[4..8]);
      var next := 8 + n + n % 2;
      if next > |s| then None
      else match ParseChunks(s[next..])
        case None => None
        case Some(rest) => Some([Chunk(s[..4], s[8..8 + n])] + rest)
  }

  /** The first chunk of `cs` with identifier `id`, if any. */
  function FindChunk(cs: seq<Chunk>, id: seq<Byte>): (r: Option<Chunk>)
    ensures r.Some? ==> r.value in cs && r.value.id == id
    ensures r.None? ==> forall i :: 0 <= i < |cs| ==> cs[i].id != id
  {
    if cs == [] then None
    else if cs[0].id == id then Some(cs[0])
    else FindChunk(cs[1..], id)
  }

  /** A RIFF file of form type `formType` holding the chunks `cs`. */
  function EncodeRiff(formType: seq<Byte>, cs: seq<Chunk>): seq<Byte>
    requires |formType| == 4
    requires forall i :: 0 <= i < |cs| ==> WellFormedChunk(cs[i])
    requires 4 + |EncodeChunks(cs)| < 0x1_0000_0000
  {
    RiffId + Le32(4 + |EncodeChunks(cs)|) + formType + EncodeChunks(cs)
  }

  /** Reads a RIFF file: its form type and its chunks. Bytes past the size
      the RIFF header declares are ignored. */
  function ParseRiff(s: seq<Byte>): Option<(seq<Byte>, seq<Chunk>)> {
    if |s| < 12 || s[..4] != RiffId then None
    else
      var size := ReadLe32(s[4..8]);
      if size < 4 || 8 + size > |s| then None
      else match ParseChunks(s[12..8 + size])
        case None => None
        case Some(cs) => Some((s[8..12], cs))
  }

  /** The chunks save_pcm_wave_file writes inside the RIFF form. */
  function WaveChunks(f: WaveFormatEx, data: seq<Byte>): (cs: seq<Chunk>)
    requires |data| <= MaxDataSize
    ensures forall i :: 0 <= i < |cs| ==> WellFormedChunk(cs[i])
  {
    [Chunk(FmtId, EncodePcmFormat(f)), Chunk(DataId, data)]
  }

  /** The bytes of the wave file written for format `f` and samples `data`. */
  function SerializeWave(f: WaveFormatEx, data: seq<Byte>): seq<Byte>
    requires |data| <= MaxDataSize
  {
    EncodeTwoChunks(WaveChunks(f, data));
    EncodeRiff(WaveType, WaveChunks(f, data))
  }

  /** Reads a wave file: the first "fmt " chunk (at least 16 bytes) gives the
      format, the first "data" chunk the samples. */
  function ParseWave(s: seq<Byte>): Option<WaveFile> {
    match ParseRiff(s)
    case None => None
    case Some((formType, cs)) =>
      if formType != WaveType then None
      else match (FindChunk(cs, FmtId), FindChunk(cs, DataId))
        case (Some(fmt), Some(dat)) =>
          if |fmt.payload| < SIZEOF_PCMWAVEFORMAT then None
          else Some(WaveFile(DecodePcmFormat(fmt.payload), dat.payload))
        case _ => None
  }

  lemma EncodeTwoChunks(cs: seq<Chunk>)
    requires |cs| == 2 && WellFormedChunk(cs[0]) && WellFormedChunk(cs[1])
    ensures EncodeChunks(cs) == EncodeChunk(cs[0]) + EncodeChunk(cs[1])
  {
    var tail := cs[1..];
    assert tail[0] == cs[1] && tail[1..] == [];
    assert EncodeChunks(tail) == EncodeChunk(cs[1]) + [];
  }

  /** A single encoded chunk parses back to its identifier and payload,
      whatever follows it. */
  lemma ParseChunkHead(c: Chunk, rest: seq<Byte>)
    requires WellFormedChunk(c)
    ensures var s := EncodeChunk(c) + rest;
      var n := ReadLe32(s[4..8]);
      && n == |c.payload|
      && s[..4] == c.id
      && s[8..8 + n] == c.payload
      && s[8 + n + n % 2..] == rest
  {
    var s := EncodeChunk(c) + rest;
    assert s[4..8] == Le32(|c.payload|) + s[8..8];
    Le32RoundTrip(|c.payload|, s[8..8]);
  }

  /** Parsing an encoded chunk list gives the chunks back. */
  lemma {:induction false} ParseEncodeChunks(cs: seq<Chunk>)
    requires forall i :: 0 <= i < |cs| ==> WellFormedChunk(cs[i])
    ensures ParseChunks(EncodeChunks(cs)) == Some(cs)
  {
    if cs != [] {
      ParseChunkHead(cs[0], EncodeChunks(cs[1..]));
      ParseEncodeChunks(cs[1..]);
      assert [cs[0]] + cs[1..] == cs;
    }
  }

  /** Parsing a RIFF file built from a form type and chunks gives them back. */
  lemma ParseEncodeRiff(formType: seq<Byte>, cs: seq<Chunk>)
    requires |formType| == 4
    requires forall i :: 0 <= i < |cs| ==> WellFormedChunk(cs[i])
    requires 4 + |EncodeChunks(cs)| < 0x1_0000_0000
    ensures ParseRiff(EncodeRiff(formType, cs)) == Some((formType, cs))
  {
    var body := EncodeChunks(cs);
    var s := EncodeRiff(formType, cs);
    assert s[4..8] == Le32(4 + |body|) + s[8..8];
    Le32RoundTrip(4 + |body|, s[8..8]);
    assert s[..4] == RiffId;
    assert s[8..12] == formType;
    assert s[12..8 + 4 + |body|] == body;
    ParseEncodeChunks(cs);
  }

  /** Round trip: the file written for (f, data) reads back as the same
      format (with `cbSize` 0, since it is not written) and the same data. */
  lemma ParseSerializeWave(f: WaveFormatEx, data: seq<Byte>)
    requires |data| <= MaxDataSize
    ensures ParseWave(SerializeWave(f, data)) == Some(WaveFile(f.(cbSize := 0), data))
  {
    var cs := WaveChunks(f, data);
    EncodeTwoChunks(cs);
    ParseEncodeRiff(WaveType, cs);
    DecodeEncodePcmFormat(f);
    assert FindChunk(cs, FmtId) == Some(cs[0]);
    assert FmtId != DataId;
    assert cs[1..][0] == cs[1];
    assert FindChunk(cs, DataId) == Some(cs[1]);
  }

  /** The exact byte layout of the written file. */
  lemma SerializeWaveLayout(f: WaveFormatEx, data: seq<Byte>)
    requires |data| <= MaxDataSize
    ensures var s := SerializeWave(f, data);
      && |s| == DataOffset + |data| + |data| % 2
      && s[0..4] == RiffId
      && ReadLe32(s[4..8]) == |s| - 8
      && s[8..12] == WaveType
      && s[12..16] == FmtId
      && ReadLe32(s[16..20]) == SIZEOF_PCMWAVEFORMAT
      && s[20..36] == EncodePcmFormat(f)
      && s[36..40] == DataId
      && ReadLe32(s[40..44]) == |data|
      && s[DataOffset..DataOffset + |data|] == data
  {
    var cs := WaveChunks(f, data);
    EncodeTwoChunks(cs);
    var s := SerializeWave(f, data);
    var fmtChunk := EncodeChunk(cs[0]);
    var dataChunk := EncodeChunk(cs[1]);
    assert s == RiffId + Le32(4 + |fmtChunk| + |dataChunk|) + WaveType + fmtChunk + dataChunk;
    assert s[4..8] == Le32(4 + |fmtChunk| + |dataChunk|) + [];
    Le32RoundTrip(4 + |fmtChunk| + |dataChunk|, []);
    assert s[16..20] == Le32(SIZEOF_PCMWAVEFORMAT) + [];
    Le32RoundTrip(SIZEOF_PCMWAVEFORMAT, []);
    assert s[40..44] == Le32(|data|) + [];
    Le32RoundTrip(|data|, []);
  }

  /** What ascending out of a chunk does to the stream: the chunk's size
      field, at `start + 4`, is overwritten with the length of everything
      written after its header, and an odd length gets a pad byte. */
  function AscendChunk(s: seq<Byte>, start: nat): seq<Byte>
    requires start + 8 <= |s| && |s| - start - 8 < 0x1_0000_0000
  {
    var n := |s| - start - 8;
    s[..start + 4] + Le32(n) + s[start + 8..] + Pad(n)
  }

  /** Ascending out of a chunk whose header was written with any provisional
      size leaves exactly the encoded chunk behind it. */
  lemma AscendChunkEncodes(prefix: seq<Byte>, id: seq<Byte>, header: seq<Byte>, body: seq<Byte>)
    requires |id| == 4 && |header| == 4 && |body| < 0x1_0000_0000
    ensures AscendChunk(prefix + id + header + body, |prefix|)
      == prefix + EncodeChunk(Chunk(id, body))
  {
    var s := prefix + id + header + body;
    assert s[..|prefix| + 4] == prefix + id;
    assert s[|prefix| + 8..] == body;
  }

  /** The wave file is the RIFF chunk whose payload is the form type
      followed by the two encoded chunks; that payload has even length. */
  lemma SerializeWaveAsChunk(f: WaveFormatEx, data: seq<Byte>)
    requires |data| <= MaxDataSize
    ensures var body := WaveType + EncodeChunk(Chunk(FmtId, EncodePcmFormat(f)))
                          + EncodeChunk(Chunk(DataId, data));
      && |body| % 2 == 0 && |body| < 0x1_0000_0000
      && SerializeWave(f, data) == EncodeChunk(Chunk(RiffId, body))
  {
    var cs := WaveChunks(f, data);
    EncodeTwoChunks(cs);
    var body := WaveType + EncodeChunk(cs[0]) + EncodeChunk(cs[1]);
    assert |body| == 4 + 24 + 8 + |data| + |data| % 2;
    assert Pad(|body|) == [];
  }

  /** save_pcm_wave_file: opens the file (which succeeds exactly when
      `canOpen`), then writes the RIFF header, the "fmt " chunk holding the
      16-byte PCMWAVEFORMAT image of `wfx` and the "data" chunk holding
      `waveData` verbatim, each header first written with a provisional size
      that the ascend out of the chunk corrects. Returns the success flag and
      the bytes of the file. */
  method SavePcmWaveFile(canOpen: bool, wfx: WaveFormatEx, waveData: seq<Byte>)
    returns (ok: bool, file: seq<Byte>)
    requires |waveData| <= MaxDataSize
    ensures ok == canOpen
    ensures ok ==> file == SerializeWave(wfx, waveData)
    ensures !ok ==> file == []
  {
    if !canOpen {
      return false, [];
    }
    ghost var fmtBytes := EncodePcmFormat(wfx);
    ghost var fmtChunk := EncodeChunk(Chunk(FmtId, fmtBytes));
    ghost var dataChunk := EncodeChunk(Chunk(DataId, waveData));
    ghost var riffHeader := RiffId + Le32(0) + WaveType;
    var out: seq<Byte> := [];
    // The RIFF chunk with form type WAVE.
    var riffStart := |out|;
    out := out + RiffId + Le32(0) + WaveType;
    // The "fmt " chunk: sizeof(PCMWAVEFORMAT) bytes of the format.
    var fmtStart := |out|;
    out := out + FmtId + Le32(0);
    out := out + EncodePcmFormat(wfx);
    assert AscendChunk(out, fmtStart) == riffHeader + fmtChunk by {
      assert out == riffHeader + FmtId + Le32(0) + fmtBytes;
      AscendChunkEncodes(riffHeader, FmtId, Le32(0), fmtBytes);
    }
    out := AscendChunk(out, fmtStart);
    // The "data" chunk: the samples, verbatim.
    var dataStart := |out|;
    out := out + DataId + Le32(0);
    out := out + waveData;
    assert AscendChunk(out, dataStart) == riffHeader + fmtChunk + dataChunk by {
      assert out == riffHeader + fmtChunk + DataId + Le32(0) + waveData;
      AscendChunkEncodes(riffHeader + fmtChunk, DataId, Le32(0), waveData);
    }
    out := AscendChunk(out, dataStart);
    // Closing the RIFF chunk fixes its size.
    ghost var riffBody := WaveType + fmtChunk + dataChunk;
    assert AscendChunk(out, riffStart) == SerializeWave(wfx, waveData) by {
      SerializeWaveAsChunk(wfx, waveData);
      assert out == [] + RiffId + Le32(0) + riffBody;
      AscendChunkEncodes([], RiffId, Le32(0), riffBody);
    }
    out := AscendChunk(out, riffStart);
    return true, out;
  }
}

/** The WAVEFORMATEX record the recorder keeps in `m_wfx`, the arithmetic
    that derives its block size and byte rate, and the 16-byte PCMWAVEFORMAT
    image of it that goes into a wave file's "fmt " chunk. */
module WaveFormat {
  import opened Bytes

  /** WAVEFORMATEX, field by field, in declaration order. */
  datatype WaveFormatEx = WaveFormatEx(
    wFormatTag: Word,
    nChannels: Word,
    nSamplesPerSec: Dword,
    nAvgBytesPerSec: Dword,
    nBlockAlign: Word,
    wBitsPerSample: Word,
    cbSize: Word)

  /** WAVE_FORMAT_PCM. */
  const WAVE_FORMAT_PCM: Word := 1

  /** sizeof(PCMWAVEFORMAT): every WAVEFORMATEX field except `cbSize`. */
  const SIZEOF_PCMWAVEFORMAT: nat := 16

  /** The all-zero record ZeroMemory leaves behind. */
  const ZeroFormat: WaveFormatEx := WaveFormatEx(0, 0, 0, 0, 0, 0, 0)

  /** Bytes per frame for `channels` channels of `bits`-bit samples
      (integer division, as in C). */
  function BlockAlign(channels: nat, bits: nat): nat {
    bits * channels / 8
  }

  /** The derived fields agree with channels, rate and depth. */
  predicate Consistent(f: WaveFormatEx) {
    && f.nBlockAlign == BlockAlign(f.nChannels, f.wBitsPerSample)
    && f.nAvgBytesPerSec == f.nSamplesPerSec * f.nBlockAlign
  }

  /** The derived fields of channels/rate/depth fit their WORD and DWORD
      fields, so that the recorder's assignments do not truncate. */
  predicate InfoFits(channels: Word, samplesPerSec: Dword, bits: Word) {
    && BlockAlign(channels, bits) < 0x1_0000
    && samplesPerSec * BlockAlign(channels, bits) < 0x1_0000_0000
  }

  /** The first SIZEOF_PCMWAVEFORMAT bytes of the record in memory. */
  function EncodePcmFormat(f: WaveFormatEx): (r: seq<Byte>)
    ensures |r| == SIZEOF_PCMWAVEFORMAT
  {
    Le16(f.wFormatTag) + Le16(f.nChannels) + Le32(f.nSamplesPerSec)
      + Le32(f.nAvgBytesPerSec) + Le16(f.nBlockAlign) + Le16(f.wBitsPerSample)
  }

  /** Reads a PCMWAVEFORMAT image; the missing `cbSize` reads as 0. */
  function DecodePcmFormat(s: seq<Byte>): WaveFormatEx
    requires |s| >= SIZEOF_PCMWAVEFORMAT
  {
    WaveFormatEx(ReadLe16(s), ReadLe16(s[2..]), ReadLe32(s[4..]), ReadLe32(s[8..]),
                 ReadLe16(s[12..]), ReadLe16(s[14..]), 0)
  }

  /** Decoding the written image recovers every field but `cbSize`, which is
      never written and reads back as 0. */
  lemma DecodeEncodePcmFormat(f: WaveFormatEx)
    ensures DecodePcmFormat(EncodePcmFormat(f)) == f.(cbSize := 0)
  {
    var s := EncodePcmFormat(f);
    Le16RoundTrip(f.wFormatTag, s[2..]);
    assert s[2..] == Le16(f.nChannels) + s[4..];
    Le16RoundTrip(f.nChannels, s[4..]);
    assert s[4..] == Le32(f.nSamplesPerSec) + s[8..];
    Le32RoundTrip(f.nSamplesPerSec, s[8..]);
    assert s[8..] == Le32(f.nAvgBytesPerSec) + s[12..];
    Le32RoundTrip(f.nAvgBytesPerSec, s[12..]);
    assert s[12..] == Le16(f.nBlockAlign) + s[14..];
    Le16RoundTrip(f.nBlockAlign, s[14..]);
    assert s[14..] == Le16(f.wBitsPerSample) + [];
    Le16RoundTrip(f.wBitsPerSample, []);
  }
}

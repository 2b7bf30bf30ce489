/** Machine-width integers and their little-endian byte images, as the RIFF
    container stores them. */
module Bytes {

  /** An unsigned 8-bit value (BYTE). */
  type Byte = b: nat | b < 0x100

  /** An unsigned 16-bit value (WORD). */
  type Word = w: nat | w < 0x1_0000

  /** An unsigned 32-bit value (DWORD, UINT32). */
  type Dword = d: nat | d < 0x1_0000_0000

  /** The two bytes of a WORD, least significant first. */
  function Le16(w: Word): (r: seq<Byte>)
    ensures |r| == 2
  {
    [w % 0x100, w / 0x100]
  }

  /** The four bytes of a DWORD, least significant first. */
  function Le32(d: Dword): (r: seq<Byte>)
    ensures |r| == 4
  {
    [d % 0x100, (d / 0x100) % 0x100, (d / 0x1_0000) % 0x100, d / 0x100_0000]
  }

  /** The WORD stored little-endian in the first two bytes of `s`. */
  function ReadLe16(s: seq<Byte>): Word
    requires |s| >= 2
  {
    s[0] as int + 0x100 * s[1] as int
  }

  /** The DWORD stored little-endian in the first four bytes of `s`. */
  function ReadLe32(s: seq<Byte>): Dword
    requires |s| >= 4
  {
    s[0] as int + 0x100 * s[1] as int + 0x1_0000 * s[2] as int + 0x100_0000 * s[3] as int
  }

  /** Reading back a written WORD gives the WORD, whatever follows it. */
  lemma Le16RoundTrip(w: Word, rest: seq<Byte>)
    ensures ReadLe16(Le16(w) + rest) == w
  {
    var s := Le16(w) + rest;
    assert s[0] == w % 0x100 && s[1] == w / 0x100;
  }

  /** Reading back a written DWORD gives the DWORD, whatever follows it. */
  lemma Le32RoundTrip(d: Dword, rest: seq<Byte>)
    ensures ReadLe32(Le32(d) + rest) == d
  {
    var s := Le32(d) + rest;
    var q1 := d / 0x100;
    var q2 := d / 0x1_0000;
    assert s[0] == d % 0x100 && s[1] == q1 % 0x100 && s[2] == q2 % 0x100 && s[3] == d / 0x100_0000;
    assert d == d % 0x100 + 0x100 * q1;
    assert q1 == q1 % 0x100 + 0x100 * (q1 / 0x100);
    assert q1 / 0x100 == q2;
    assert q2 == q2 % 0x100 + 0x100 * (q2 / 0x100);
    assert q2 / 0x100 == d / 0x100_0000;
  }

  /** A four-character code as mmioStringToFOURCC builds it with no flags:
      the characters' codes, first character first, with no case change. */
  function FourCC(s: string): (r: seq<Byte>)
    requires |s| == 4 && forall i :: 0 <= i < 4 ==> s[i] as int < 0x100
    ensures |r| == 4 && forall i :: 0 <= i < 4 ==> r[i] == s[i] as int
  {
    [s[0] as int, s[1] as int, s[2] as int, s[3] as int]
  }
}

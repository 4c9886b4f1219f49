/**
 * Just enough of two text encodings to say what happens to a character
 * written in UTF-8 and read back as Windows-1254 (the Turkish code page):
 * a UTF-8 encoder and decoder for one character, and the Windows-1254
 * byte-to-character table.
 */
module Encoding {
  import opened Wrappers

  /** A byte, as the number it holds. */
  type Byte = b: int | 0 <= b < 256

  /** The UTF-8 encoding of one code point: one to four bytes. */
  function Utf8(c: char): (r: seq<Byte>)
    ensures 1 <= |r| <= 4
    ensures |r| == 1 <==> (c as int) < 0x80
  {
    var cp := c as int;
    if cp < 0x80 then [cp]
    else if cp < 0x800 then [0xC0 + cp / 0x40, 0x80 + cp % 0x40]
    else if cp < 0x10000 then [0xE0 + cp / 0x1000, 0x80 + (cp / 0x40) % 0x40, 0x80 + cp % 0x40]
    else [0xF0 + cp / 0x40000, 0x80 + (cp / 0x1000) % 0x40, 0x80 + (cp / 0x40) % 0x40, 0x80 + cp % 0x40]
  }

  /** The code point a well-formed UTF-8 sequence of one to four bytes stands for. */
  function Utf8Value(bs: seq<Byte>): int
    requires 1 <= |bs| <= 4
  {
    if |bs| == 1 then bs[0] as int
    else if |bs| == 2 then (bs[0] as int - 0xC0) * 0x40 + (bs[1] as int - 0x80)
    else if |bs| == 3 then (bs[0] as int - 0xE0) * 0x1000 + (bs[1] as int - 0x80) * 0x40 + (bs[2] as int - 0x80)
    else (bs[0] as int - 0xF0) * 0x40000 + (bs[1] as int - 0x80) * 0x1000 + (bs[2] as int - 0x80) * 0x40 + (bs[3] as int - 0x80)
  }

  /** Decoding the UTF-8 bytes of a character gives its code point back. */
  lemma Utf8RoundTrip(c: char)
    ensures Utf8Value(Utf8(c)) == c as int
  {
    var cp := c as int;
    var q1 := cp / 0x40;
    var q2 := q1 / 0x40;
    DivBy4096(cp);
    DivBy262144(cp);
    assert cp == q1 * 0x40 + cp % 0x40;
    assert q1 == q2 * 0x40 + q1 % 0x40;
    assert q2 == (q2 / 0x40) * 0x40 + q2 % 0x40;
  }

  /** Dividing by 64 twice is dividing by 4096. */
  lemma DivBy4096(x: int)
    requires x >= 0
    ensures (x / 0x40) / 0x40 == x / 0x1000
  {
    var r := x % 0x1000;
    assert x == (x / 0x1000) * 0x1000 + r;
    assert x / 0x40 == (x / 0x1000) * 0x40 + r / 0x40;
  }

  /** Dividing by 64 three times is dividing by 262144. */
  lemma DivBy262144(x: int)
    requires x >= 0
    ensures ((x / 0x40) / 0x40) / 0x40 == x / 0x40000
  {
    DivBy4096(x);
    var r := x % 0x40000;
    assert x == (x / 0x40000) * 0x40000 + r;
    assert x / 0x1000 == (x / 0x40000) * 0x40 + r / 0x1000;
  }

  /**
   * The character Windows-1254 gives a byte: ASCII and most of the upper
   * half as in Latin-1, the 0x80-0x9F block of typographic characters, the
   * six Turkish letters in place of Latin-1's Icelandic ones, and nothing
   * for the seven unassigned bytes (0x81, 0x8D, 0x8E, 0x8F, 0x90, 0x9D, 0x9E).
   */
  function Cp1254(b: Byte): (r: Option<char>)
    ensures b < 0x80 ==> r == Some(b as char)
    ensures 0xA0 <= b && b !in {0xD0, 0xDD, 0xDE, 0xF0, 0xFD, 0xFE} ==> r == Some(b as char)
  {
    if b < 0x80 || (0xA0 <= b && b !in {0xD0, 0xDD, 0xDE, 0xF0, 0xFD, 0xFE}) then Some(b as char)
    else match b
      case 0x80 => Some('\U{20AC}')
      case 0x82 => Some('\U{201A}')
      case 0x83 => Some('\U{0192}')
      case 0x84 => Some('\U{201E}')
      case 0x85 => Some('\U{2026}')
      case 0x86 => Some('\U{2020}')
      case 0x87 => Some('\U{2021}')
      case 0x88 => Some('\U{02C6}')
      case 0x89 => Some('\U{2030}')
      case 0x8A => Some('\U{0160}')
      case 0x8B => Some('\U{2039}')
      case 0x8C => Some('\U{0152}')
      case 0x91 => Some('\U{2018}')
      case 0x92 => Some('\U{2019}')
      case 0x93 => Some('\U{201C}')
      case 0x94 => Some('\U{201D}')
      case 0x95 => Some('\U{2022}')
      case 0x96 => Some('\U{2013}')
      case 0x97 => Some('\U{2014}')
      case 0x98 => Some('\U{02DC}')
      case 0x99 => Some('\U{2122}')
      case 0x9A => Some('\U{0161}')
      case 0x9B => Some('\U{203A}')
      case 0x9C => Some('\U{0153}')
      case 0x9F => Some('\U{0178}')
      case 0xD0 => Some('\U{011E}')
      case 0xDD => Some('\U{0130}')
      case 0xDE => Some('\U{015E}')
      case 0xF0 => Some('\U{011F}')
      case 0xFD => Some('\U{0131}')
      case 0xFE => Some('\U{015F}')
      case _ => None
  }

  /** Bytes read as Windows-1254, one character per byte; None at an unassigned byte. */
  function Read1254(bs: seq<Byte>): (r: Option<string>)
    ensures r.Some? ==> |r.value| == |bs|
    ensures r.Some? <==> forall i :: 0 <= i < |bs| ==> Cp1254(bs[i]).Some?
  {
    if bs == [] then Some([])
    else
      var c, rest := Cp1254(bs[0]), Read1254(bs[1..]);
      if c.Some? && rest.Some? then Some([c.value] + rest.value) else None
  }

  /** Reading one more byte in front puts its character in front. */
  lemma Read1254Cons(b: Byte, bs: seq<Byte>)
    requires Cp1254(b).Some? && Read1254(bs).Some?
    ensures Read1254([b] + bs) == Some([Cp1254(b).value] + Read1254(bs).value)
  {
    assert ([b] + bs)[1..] == bs;
  }
}

/**
 White space twice: as characters, where names are trimmed, and as UTF-8 bytes, where event data is.
 */
module WhiteSpace {
  import Sse
  import Text

  /** The UTF-8 form of a character (section 3 of RFC 3629). */
  function Utf8(c: char): Sse.Bytes {
    var v := c as int;
    if v < 0x80 then [v as Sse.byte]
    else if v < 0x800 then [(0xC0 + v / 64) as Sse.byte, (0x80 + v % 64) as Sse.byte]
    else if v < 0x1_0000 then
      [(0xE0 + v / 4096) as Sse.byte, (0x80 + v / 64 % 64) as Sse.byte, (0x80 + v % 64) as Sse.byte]
    else
      [(0xF0 + v / 0x4_0000) as Sse.byte, (0x80 + v / 4096 % 64) as Sse.byte, (0x80 + v / 64 % 64) as Sse.byte, (0x80 + v % 64) as Sse.byte]
  }

  /** A character of three bytes is known by them. */
  lemma ThreeBytes(v: int, a: int, b: int, c: int)
    requires 0 <= v < 0x1_0000 && 0 <= b < 64 && 0 <= c < 64
    ensures v / 4096 == a && v / 64 % 64 == b && v % 64 == c <==> v == 4096 * a + 64 * b + c
  {
  }

  lemma TwoBytes(v: int, a: int, b: int)
    requires 0 <= b < 64
    ensures v / 64 == a && v % 64 == b <==> v == 64 * a + b
  {
  }

  /** Trimming names and trimming bytes agree on what white space is. */
  lemma SpaceIsSpace(c: char)
    ensures c as int < 0x80 ==> (Sse.IsSpace(c as int as Sse.byte) <==> Text.IsSpace(c))
    ensures c as int >= 0x80 ==> (Sse.IsWideSpace(Utf8(c)) <==> Text.IsSpace(c))
  {
    var v := c as int;
    TwoBytes(v, 2, 0x05);
    TwoBytes(v, 2, 0x20);
    if 0x800 <= v < 0x1_0000 {
      ThreeBytes(v, 1, 0x1A, 0);
      ThreeBytes(v, 2, 1, 0x1F);
      ThreeBytes(v, 3, 0, 0);
      ThreeBytes(v, 2, 0, v % 64);
    }
  }
}

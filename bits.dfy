/** Machine integers of the emulated CPU and the byte/word conversions
    that every component uses.  `u8` and `u16` are bit-vectors, so `+` and
    `-` on them wrap exactly like Rust's `wrapping_add`/`wrapping_sub`. */
module Bits {

  type Byte = bv8
  type Word = bv16

  /** `((val >> 8) & 0xff) as u8` */
  function Hi(w: Word): Byte
  {
    ((w >> 8) & 0xff) as Byte
  }

  /** `((val >> 0) & 0xff) as u8` */
  function Lo(w: Word): Byte
  {
    (w & 0xff) as Byte
  }

  /** `((h as u16) << 8) | (l as u16)`: the high byte goes to bits 8..15. */
  function Join(h: Byte, l: Byte): (w: Word)
    ensures Hi(w) == h && Lo(w) == l
  {
    ((h as Word) << 8) | (l as Word)
  }

  /** Splitting a word and joining the halves gives the word back. */
  lemma JoinSplit(w: Word)
    ensures Join(Hi(w), Lo(w)) == w
  {
  }

  /** Distinct words index distinct sequence positions. */
  lemma WordIndexInjective(x: Word, y: Word)
    requires x != y
    ensures x as int != y as int
  {
    assert (x as int) as Word == x;
    assert (y as int) as Word == y;
  }

  /** Distinct bytes index distinct sequence positions. */
  lemma ByteIndexInjective(x: Byte, y: Byte)
    requires x != y
    ensures x as int != y as int
  {
    assert (x as int) as Byte == x;
    assert (y as int) as Byte == y;
  }

  /** The value of a byte read as a two's-complement `i8`. */
  function Signed(b: Byte): (v: int)
    ensures -128 <= v < 128
    ensures v % 256 == b as int
  {
    if b < 0x80 then b as int else b as int - 256
  }

  /** Sign extension of a byte to 16 bits: the high byte is filled with
      copies of bit 7. */
  function SignExtend(b: Byte): (w: Word)
    ensures Lo(w) == b
    ensures Hi(w) == if b & 0x80 == 0 then 0x00 else 0xff
  {
    if b & 0x80 == 0 then b as Word else (b as Word) | 0xff00
  }

  /** A byte sign-extended to 32 bits: a two's-complement `i32` with the
      value of the signed byte. */
  function SignExtend32(b: Byte): bv32
  {
    if b & 0x80 == 0 then b as bv32 else (b as bv32) | 0xffff_ff00
  }

  /** As an unsigned number the extended word is the signed byte modulo 2^16. */
  lemma SignExtendValue(b: Byte)
    ensures SignExtend(b) as int == Signed(b) % 0x10000
  {
    if b < 0x80 {
      assert b & 0x80 == 0;
      assert SignExtend(b) as int == b as int;
    } else {
      assert b & 0x80 != 0;
      assert SignExtend(b) as int == b as int + 0xff00;
    }
  }
}

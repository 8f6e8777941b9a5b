/** The CPU register file: eight 8-bit registers, the 16-bit program counter `pc`
    and stack top `sp`, the pair views AF/BC/DE/HL, and the four flags held in
    the upper nibble of `f`. */
module Registers {
  import opened Bits

  /** An 8-bit register that an instruction can name directly. */
  datatype Reg8 = A | B | C | D | E | H | L

  /** A 16-bit register pair; the first letter is the high byte. */
  datatype Pair = AF | BC | DE | HL

  /** Bit positions of the flags in `f`. */
  const ZeroBit: nat := 7
  const SubtractBit: nat := 6
  const HalfCarryBit: nat := 5
  const CarryBit: nat := 4

  /** Whether bit `bit` of `f` is set. */
  function FlagBit(f: Byte, bit: nat): bool
    requires bit < 8
  {
    f & (1 << bit) != 0
  }

  /** `f` with bit `bit` set to `val`: or-ing the bit in, or and-ing with its
      complement. */
  function WithFlagBit(f: Byte, bit: nat, val: bool): (r: Byte)
    requires bit < 8
    ensures FlagBit(r, bit) == val
    ensures r & (0xff ^ (1 << bit)) == f & (0xff ^ (1 << bit))
  {
    if val then f | (1 << bit) else f & (0xff ^ (1 << bit))
  }

  /** Only the four upper bits of `f` are flags; setting one keeps the low
      nibble of `f` as it was. */
  lemma WithFlagBitKeepsLowNibble(f: Byte, bit: nat, val: bool)
    requires 4 <= bit < 8
    ensures WithFlagBit(f, bit, val) & 0x0f == f & 0x0f
  {
  }

  datatype RegisterFile = RegisterFile(
    pc: Word, sp: Word,
    a: Byte, f: Byte,
    b: Byte, c: Byte,
    d: Byte, e: Byte,
    h: Byte, l: Byte)
  {
    /** The flags are bits 7, 6, 5 and 4 of `f`. */
    predicate Z() ensures Z() <==> f & 0x80 != 0 { FlagBit(f, ZeroBit) }
    predicate N() ensures N() <==> f & 0x40 != 0 { FlagBit(f, SubtractBit) }
    predicate Hc() ensures Hc() <==> f & 0x20 != 0 { FlagBit(f, HalfCarryBit) }
    predicate Cy() ensures Cy() <==> f & 0x10 != 0 { FlagBit(f, CarryBit) }

    /** Each pair reads its first register as the high byte. */
    function Af(): (w: Word) ensures Hi(w) == a && Lo(w) == f { Join(a, f) }
    function Bc(): (w: Word) ensures Hi(w) == b && Lo(w) == c { Join(b, c) }
    function De(): (w: Word) ensures Hi(w) == d && Lo(w) == e { Join(d, e) }
    function Hl(): (w: Word) ensures Hi(w) == h && Lo(w) == l { Join(h, l) }

    /** Every 8-bit register is one half of its pair. */
    function Get(r: Reg8): (v: Byte)
      ensures r == A ==> v == Hi(Af())
      ensures r == B ==> v == Hi(Bc())
      ensures r == C ==> v == Lo(Bc())
      ensures r == D ==> v == Hi(De())
      ensures r == E ==> v == Lo(De())
      ensures r == H ==> v == Hi(Hl())
      ensures r == L ==> v == Lo(Hl())
    {
      match r
      case A => a
      case B => b
      case C => c
      case D => d
      case E => e
      case H => h
      case L => l
    }

    /** Assigning one 8-bit register. */
    function Set(r: Reg8, v: Byte): (s: RegisterFile)
      ensures s.Get(r) == v
      ensures forall q: Reg8 :: q != r ==> s.Get(q) == Get(q)
      ensures s.pc == pc && s.sp == sp && s.f == f
    {
      match r
      case A => this.(a := v)
      case B => this.(b := v)
      case C => this.(c := v)
      case D => this.(d := v)
      case E => this.(e := v)
      case H => this.(h := v)
      case L => this.(l := v)
    }

    /** The pair named by `p`, its first register high. */
    function GetPair(p: Pair): (w: Word)
      ensures p == AF ==> Hi(w) == a && Lo(w) == f
      ensures p == BC ==> Hi(w) == b && Lo(w) == c
      ensures p == DE ==> Hi(w) == d && Lo(w) == e
      ensures p == HL ==> Hi(w) == h && Lo(w) == l
    {
      match p
      case AF => Af()
      case BC => Bc()
      case DE => De()
      case HL => Hl()
    }

    /** Setting a pair stores the high byte in its first register and the
        low byte in its second, and keeps every other register. */
    function SetPair(p: Pair, v: Word): (s: RegisterFile)
      ensures s.GetPair(p) == v
      ensures s.pc == pc && s.sp == sp
      ensures forall q: Pair :: q != p ==> s.GetPair(q) == GetPair(q)
      ensures p == AF ==> s == this.(a := Hi(v), f := Lo(v))
      ensures p == BC ==> s == this.(b := Hi(v), c := Lo(v))
      ensures p == DE ==> s == this.(d := Hi(v), e := Lo(v))
      ensures p == HL ==> s == this.(h := Hi(v), l := Lo(v))
    {
      match p
      case AF => this.(a := Hi(v), f := Lo(v))
      case BC => this.(b := Hi(v), c := Lo(v))
      case DE => this.(d := Hi(v), e := Lo(v))
      case HL => this.(h := Hi(v), l := Lo(v))
    }

    /** `f` with one flag set or cleared. */
    function SetFlag(bit: nat, val: bool): (s: RegisterFile)
      requires bit < 8
      ensures FlagBit(s.f, bit) == val
      ensures s == this.(f := s.f)
    {
      this.(f := WithFlagBit(f, bit, val))
    }
  }

  /** The register file after reset. */
  const InitialRegisters := RegisterFile(0x0000, 0xfffe, 0, 0, 0, 0, 0, 0, 0, 0)

  /** Pair getters read back what the pair setter stored. */
  lemma PairRoundTrip(r: RegisterFile, p: Pair, v: Word)
    ensures r.SetPair(p, v).GetPair(p) == v
  {
  }

  /** Setting a pair to its own value changes nothing. */
  lemma SetPairOwnValue(r: RegisterFile, p: Pair)
    ensures r.SetPair(p, r.GetPair(p)) == r
  {
    JoinSplit(r.GetPair(p));
  }

  /** `set_af` keeps the whole low byte in `f`: the low nibble is not masked. */
  lemma SetAfKeepsLowNibble(r: RegisterFile, v: Word)
    ensures r.SetPair(AF, v).f & 0x0f == Lo(v) & 0x0f
    ensures r.SetPair(AF, v).GetPair(AF) == v
  {
  }

  class Registers {
    var pc: Word
    var sp: Word
    var a: Byte
    var f: Byte
    var b: Byte
    var c: Byte
    var d: Byte
    var e: Byte
    var h: Byte
    var l: Byte

    constructor Init()
      ensures pc == 0x0000 && sp == 0xfffe
      ensures a == 0 && f == 0 && b == 0 && c == 0 && d == 0 && e == 0 && h == 0 && l == 0
      ensures State() == InitialRegisters
    {
      pc, sp := 0x0000, 0xfffe;
      a, f := 0, 0;
      b, c := 0, 0;
      d, e := 0, 0;
      h, l := 0, 0;
    }

    function State(): RegisterFile
      reads this
    {
      RegisterFile(pc, sp, a, f, b, c, d, e, h, l)
    }

    method SetFlagBit(bit: nat, val: bool)
      requires bit < 8
      modifies this
      ensures State() == old(State()).SetFlag(bit, val)
    {
      if val {
        f := f | (1 << bit);
      } else {
        f := f & (0xff ^ (1 << bit));
      }
    }

    method SetZFlag(val: bool)
      modifies this
      ensures State() == old(State()).SetFlag(ZeroBit, val)
    {
      SetFlagBit(ZeroBit, val);
    }

    method SetNFlag(val: bool)
      modifies this
      ensures State() == old(State()).SetFlag(SubtractBit, val)
    {
      SetFlagBit(SubtractBit, val);
    }

    method SetHFlag(val: bool)
      modifies this
      ensures State() == old(State()).SetFlag(HalfCarryBit, val)
    {
      SetFlagBit(HalfCarryBit, val);
    }

    method SetCFlag(val: bool)
      modifies this
      ensures State() == old(State()).SetFlag(CarryBit, val)
    {
      SetFlagBit(CarryBit, val);
    }

    method SetAf(val: Word)
      modifies this
      ensures State() == old(State()).SetPair(AF, val)
    {
      a := ((val >> 8) & 0xff) as Byte;
      f := (val & 0xff) as Byte;
    }

    method SetBc(val: Word)
      modifies this
      ensures State() == old(State()).SetPair(BC, val)
    {
      b := ((val >> 8) & 0xff) as Byte;
      c := (val & 0xff) as Byte;
    }

    method SetDe(val: Word)
      modifies this
      ensures State() == old(State()).SetPair(DE, val)
    {
      d := ((val >> 8) & 0xff) as Byte;
      e := (val & 0xff) as Byte;
    }

    method SetHl(val: Word)
      modifies this
      ensures State() == old(State()).SetPair(HL, val)
    {
      h := ((val >> 8) & 0xff) as Byte;
      l := (val & 0xff) as Byte;
    }

    /** Assignment to the 8-bit register `r`, as the handlers' `cpu.reg.r = …`. */
    method Put(r: Reg8, v: Byte)
      modifies this
      ensures State() == old(State()).Set(r, v)
    {
      match r
      case A => a := v;
      case B => b := v;
      case C => c := v;
      case D => d := v;
      case E => e := v;
      case H => h := v;
      case L => l := v;
    }

    /** One of the four pair setters, chosen by `p`. */
    method PutPair(p: Pair, v: Word)
      modifies this
      ensures State() == old(State()).SetPair(p, v)
    {
      match p
      case AF => SetAf(v);
      case BC => SetBc(v);
      case DE => SetDe(v);
      case HL => SetHl(v);
    }
  }
}

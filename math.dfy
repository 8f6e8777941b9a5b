/** The 8-bit increment and decrement handlers and the ALU helpers they
    share with the loads: each helper computes its result and sets the
    flags in `f`. */
module Math {
  import opened Bits
  import opened Registers
  import opened MemoryBus
  import opened Cpu

  /** A result byte together with the register file whose flags the helper
      has set. */
  datatype AluResult = AluResult(value: Byte, regs: RegisterFile)

  /** A result word together with the register file whose flags the helper
      has set. */
  datatype WordResult = WordResult(value: Word, regs: RegisterFile)

  /** Whether adding the low nibbles of `x` and `y` carries out of bit 3. */
  predicate NibbleCarry(x: Word, y: Word)
  {
    (x & 0x000f) + (y & 0x000f) > 0x000f
  }

  /** Whether adding the low bytes of `x` and `y` carries out of bit 7. */
  predicate ByteCarry(x: Word, y: Word)
  {
    (x & 0x00ff) + (y & 0x00ff) > 0x00ff
  }

  /** `lhs` plus the sign-extended `rhs`, wrapping; Z and N cleared, H from
      the carry out of bit 3 and C from the carry out of bit 7 when the low
      byte of `lhs` and the byte `rhs` are added as unsigned numbers; only
      `f` changes. */
  function AddI8ToU16(r: RegisterFile, lhs: Word, rhs: Byte): (o: WordResult)
    ensures o.value == lhs + SignExtend(rhs)
    ensures !o.regs.Z() && !o.regs.N()
    ensures o.regs.Hc() <==> (lhs & 0x0f) as int + (rhs & 0x0f) as int > 0x0f
    ensures o.regs.Cy() <==> (lhs & 0xff) as int + rhs as int > 0xff
    ensures o.regs == r.(f := o.regs.f)
  {
    var regs := r.SetFlag(SubtractBit, false)
                 .SetFlag(ZeroBit, false)
                 .SetFlag(HalfCarryBit, NibbleCarry(lhs, SignExtend(rhs)))
                 .SetFlag(CarryBit, ByteCarry(lhs, SignExtend(rhs)));
    WordResult(lhs + SignExtend(rhs), regs)
  }


  /** `val + 1` wrapping; Z iff the result is 0, H iff its low nibble is 0,
      N cleared, C kept. */
  function Inc(r: RegisterFile, val: Byte): (o: AluResult)
    ensures o.value == val + 1
    ensures o.regs.Z() <==> o.value == 0
    ensures o.regs.Hc() <==> o.value & 0x0f == 0
    ensures !o.regs.N()
    ensures o.regs.Cy() == r.Cy()
    ensures o.regs == r.(f := o.regs.f)
  {
    var ret := val + 1;
    AluResult(ret, r.SetFlag(ZeroBit, ret == 0)
                    .SetFlag(HalfCarryBit, ret & 0x0f == 0x00)
                    .SetFlag(SubtractBit, false))
  }

  /** `val - 1` wrapping; Z iff the result is 0, H iff its low nibble is 0xF,
      N set, C kept. */
  function Dec(r: RegisterFile, val: Byte): (o: AluResult)
    ensures o.value == val - 1
    ensures o.regs.Z() <==> o.value == 0
    ensures o.regs.Hc() <==> o.value & 0x0f == 0x0f
    ensures o.regs.N()
    ensures o.regs.Cy() == r.Cy()
    ensures o.regs == r.(f := o.regs.f)
  {
    var ret := val - 1;
    AluResult(ret, r.SetFlag(ZeroBit, ret == 0)
                    .SetFlag(HalfCarryBit, ret & 0x0f == 0x0f)
                    .SetFlag(SubtractBit, true))
  }

  /** The increment wraps exactly at 0xFF and otherwise moves up; the
      decrement wraps exactly at 0x00 and otherwise moves down. */
  lemma IncDecWrap(r: RegisterFile, val: Byte)
    ensures Inc(r, val).value == 0x00 <==> val == 0xff
    ensures val != 0xff ==> Inc(r, val).value > val
    ensures Dec(r, val).value == 0xff <==> val == 0x00
    ensures val != 0x00 ==> Dec(r, val).value < val
  {
  }

  /** Decrementing undoes incrementing, and the flags in between do not
      matter. */
  lemma DecUndoesInc(r: RegisterFile, val: Byte)
    ensures Dec(Inc(r, val).regs, Inc(r, val).value).value == val
    ensures Inc(Dec(r, val).regs, Dec(r, val).value).value == val
  {
  }

  /** The boundary cases: a half carry out of the low nibble, the wrap to 0,
      and the decrement to 0. */
  lemma IncDecExamples(r: RegisterFile)
    ensures Inc(r, 0x0f).value == 0x10 && Inc(r, 0x0f).regs.Hc() && !Inc(r, 0x0f).regs.Z()
    ensures Inc(r, 0xff).value == 0x00 && Inc(r, 0xff).regs.Z() && Inc(r, 0xff).regs.Hc()
    ensures Dec(r, 0x01).value == 0x00 && Dec(r, 0x01).regs.Z() && Dec(r, 0x01).regs.N()
    ensures Dec(r, 0x00).value == 0xff && Dec(r, 0x00).regs.Hc() && !Dec(r, 0x00).regs.Z()
  {
  }

  /** `alu::add_i8_to_u16`: sets the four flags of `cpu.reg` and returns the
      sum. */
  method AluAddI8ToU16(cpu: Cpu, lhs: Word, rhs: Byte) returns (sum: Word)
    requires cpu.Valid()
    modifies cpu.reg
    ensures cpu.Valid()
    ensures sum == AddI8ToU16(old(cpu.State()).regs, lhs, rhs).value
    ensures cpu.State() == old(cpu.State()).(regs := AddI8ToU16(old(cpu.State()).regs, lhs, rhs).regs)
  {
    cpu.PutFlag(SubtractBit, false);
    cpu.PutFlag(ZeroBit, false);
    cpu.PutFlag(HalfCarryBit, NibbleCarry(lhs, SignExtend(rhs)));
    cpu.PutFlag(CarryBit, ByteCarry(lhs, SignExtend(rhs)));
    sum := lhs + SignExtend(rhs);
  }

  /** `alu::inc`: sets Z, H and N in `cpu.reg` and returns the sum. */
  method AluInc(cpu: Cpu, val: Byte) returns (ret: Byte)
    requires cpu.Valid()
    modifies cpu.reg
    ensures cpu.Valid()
    ensures ret == Inc(old(cpu.State()).regs, val).value
    ensures cpu.State() == old(cpu.State()).(regs := Inc(old(cpu.State()).regs, val).regs)
  {
    ret := val + 1;
    cpu.PutFlag(ZeroBit, ret == 0);
    cpu.PutFlag(HalfCarryBit, ret & 0x0f == 0x00);
    cpu.PutFlag(SubtractBit, false);
  }

  /** `alu::dec`: sets Z, H and N in `cpu.reg` and returns the difference. */
  method AluDec(cpu: Cpu, val: Byte) returns (ret: Byte)
    requires cpu.Valid()
    modifies cpu.reg
    ensures cpu.Valid()
    ensures ret == Dec(old(cpu.State()).regs, val).value
    ensures cpu.State() == old(cpu.State()).(regs := Dec(old(cpu.State()).regs, val).regs)
  {
    ret := val - 1;
    cpu.PutFlag(ZeroBit, ret == 0);
    cpu.PutFlag(HalfCarryBit, ret & 0x0f == 0x0f);
    cpu.PutFlag(SubtractBit, true);
  }

  /** `inc_b` … `inc_a`: the register gets its increment, `f` the flags of
      `Inc`, and nothing else changes; 4 cycles. */
  function IncREffect(s: CpuState, r: Reg8): (o: Outcome)
    requires s.Valid()
    ensures o.state.Valid() && o.cost == 4
    ensures o.state.regs.Get(r) == s.regs.Get(r) + 1
    ensures o.state.regs.f == Inc(s.regs, s.regs.Get(r)).regs.f
    ensures forall q: Reg8 :: q != r ==> o.state.regs.Get(q) == s.regs.Get(q)
    ensures o.state.regs.pc == s.regs.pc && o.state.regs.sp == s.regs.sp
    ensures o.state == s.(regs := o.state.regs)
  {
    var res := Inc(s.regs, s.regs.Get(r));
    Outcome(s.(regs := res.regs.Set(r, res.value)), 4)
  }

  /** `dec_b` … `dec_a`: the register gets its decrement, `f` the flags of
      `Dec`, and nothing else changes; 4 cycles. */
  function DecREffect(s: CpuState, r: Reg8): (o: Outcome)
    requires s.Valid()
    ensures o.state.Valid() && o.cost == 4
    ensures o.state.regs.Get(r) == s.regs.Get(r) - 1
    ensures o.state.regs.f == Dec(s.regs, s.regs.Get(r)).regs.f
    ensures forall q: Reg8 :: q != r ==> o.state.regs.Get(q) == s.regs.Get(q)
    ensures o.state.regs.pc == s.regs.pc && o.state.regs.sp == s.regs.sp
    ensures o.state == s.(regs := o.state.regs)
  {
    var res := Dec(s.regs, s.regs.Get(r));
    Outcome(s.(regs := res.regs.Set(r, res.value)), 4)
  }

  /** `inc_hl`: the byte at HL is read, incremented and written back; only
      `f` among the registers changes; 12 cycles. */
  function IncHlEffect(s: CpuState): (o: Outcome)
    requires s.Valid()
    ensures o.state.Valid() && o.cost == 12
    ensures o.state.bus == s.bus.WriteByte(s.regs.Hl(), s.bus.ReadByte(s.regs.Hl()) + 1)
    ensures o.state.regs == Inc(s.regs, s.bus.ReadByte(s.regs.Hl())).regs
    ensures o.state == s.(regs := o.state.regs, bus := o.state.bus)
  {
    var hl := s.regs.Hl();
    var res := Inc(s.regs, s.bus.ReadByte(hl));
    Outcome(s.(regs := res.regs, bus := s.bus.WriteByte(hl, res.value)), 12)
  }

  /** `dec_hl`: the byte at HL is read, decremented and written back; only
      `f` among the registers changes; 12 cycles. */
  function DecHlEffect(s: CpuState): (o: Outcome)
    requires s.Valid()
    ensures o.state.Valid() && o.cost == 12
    ensures o.state.bus == s.bus.WriteByte(s.regs.Hl(), s.bus.ReadByte(s.regs.Hl()) - 1)
    ensures o.state.regs == Dec(s.regs, s.bus.ReadByte(s.regs.Hl())).regs
    ensures o.state == s.(regs := o.state.regs, bus := o.state.bus)
  {
    var hl := s.regs.Hl();
    var res := Dec(s.regs, s.bus.ReadByte(hl));
    Outcome(s.(regs := res.regs, bus := s.bus.WriteByte(hl, res.value)), 12)
  }

  /** With HL in RAM, the byte at HL reads back incremented, and H and L are
      as they were. */
  lemma IncHlInRam(s: CpuState)
    requires s.Valid() && 0x8000 <= s.regs.Hl() <= 0xfdff
    ensures IncHlEffect(s).state.bus.ReadByte(s.regs.Hl()) == s.bus.ReadByte(s.regs.Hl()) + 1
    ensures IncHlEffect(s).state.regs.h == s.regs.h && IncHlEffect(s).state.regs.l == s.regs.l
  {
    RamByteRoundTrip(s.bus, s.regs.Hl(), s.bus.ReadByte(s.regs.Hl()) + 1);
  }

  /** `inc_hl` followed by `dec_hl` restores the byte at HL in RAM. */
  lemma DecHlUndoesIncHl(s: CpuState)
    requires s.Valid() && 0x8000 <= s.regs.Hl() <= 0xfdff
    ensures DecHlEffect(IncHlEffect(s).state).state.bus.ReadByte(s.regs.Hl()) == s.bus.ReadByte(s.regs.Hl())
  {
    var t := IncHlEffect(s).state;
    IncHlInRam(s);
    assert t.regs.Hl() == s.regs.Hl();
    RamByteRoundTrip(t.bus, s.regs.Hl(), t.bus.ReadByte(s.regs.Hl()) - 1);
  }

  method IncR(cpu: Cpu, r: Reg8) returns (cost: nat)
    requires cpu.Valid()
    modifies cpu.reg
    ensures cpu.Valid()
    ensures Outcome(cpu.State(), cost) == IncREffect(old(cpu.State()), r)
  {
    var v := AluInc(cpu, cpu.reg.State().Get(r));
    cpu.Put(r, v);
    cost := 4;
  }

  method DecR(cpu: Cpu, r: Reg8) returns (cost: nat)
    requires cpu.Valid()
    modifies cpu.reg
    ensures cpu.Valid()
    ensures Outcome(cpu.State(), cost) == DecREffect(old(cpu.State()), r)
  {
    var v := AluDec(cpu, cpu.reg.State().Get(r));
    cpu.Put(r, v);
    cost := 4;
  }

  method IncHl(cpu: Cpu) returns (cost: nat)
    requires cpu.Valid()
    modifies cpu.Repr()
    ensures cpu.Valid()
    ensures Outcome(cpu.State(), cost) == IncHlEffect(old(cpu.State()))
  {
    var hl := Join(cpu.reg.h, cpu.reg.l);
    var byte := cpu.bus.ReadByte(hl);
    var res := AluInc(cpu, byte);
    cpu.WriteByte(hl, res);
    cost := 12;
  }

  method DecHl(cpu: Cpu) returns (cost: nat)
    requires cpu.Valid()
    modifies cpu.Repr()
    ensures cpu.Valid()
    ensures Outcome(cpu.State(), cost) == DecHlEffect(old(cpu.State()))
  {
    var hl := Join(cpu.reg.h, cpu.reg.l);
    var byte := cpu.bus.ReadByte(hl);
    var res := AluDec(cpu, byte);
    cpu.WriteByte(hl, res);
    cost := 12;
  }
}

/** The load handlers: 16-bit immediates into a pair or `sp`, `sp` stored
    at an immediate address, `hl = sp + r8`, `sp = hl`, push and pop of a
    pair, stores of `a` through BC, DE and HL (with HL stepped up or down),
    the matching loads of `a`, and 8-bit immediates into B, C and D. */
module Loads {
  import opened Bits
  import opened Registers
  import opened MemoryBus
  import opened Cpu
  import opened Math

  /** The pairs with a `ld_xx_d16` handler. */
  type WidePair = p: Pair | p != AF witness BC

  /** The pairs through which `a` is stored and loaded. */
  type AddressPair = p: Pair | p == BC || p == DE witness BC

  /** The registers with a `ld_x_d8` handler. */
  type ImmReg = r: Reg8 | r == B || r == C || r == D witness B

  /** `ld_bc_d16`, `ld_de_d16`, `ld_hl_d16`: the pair gets the immediate word
      behind `pc`, no other register changes; 12 cycles. */
  function LdPairD16Effect(s: CpuState, p: WidePair): (o: Outcome)
    requires s.Valid() && s.regs.pc - 2 != 0xffff
    ensures o.state.Valid() && o.cost == 12
    ensures o.state.regs.GetPair(p) == s.ReadProgWord(2)
    ensures forall q: Pair :: q != p ==> o.state.regs.GetPair(q) == s.regs.GetPair(q)
    ensures o.state.regs.pc == s.regs.pc && o.state.regs.sp == s.regs.sp
    ensures o.state == s.(regs := o.state.regs)
  {
    Outcome(s.(regs := s.regs.SetPair(p, s.ReadProgWord(2))), 12)
  }

  /** `ld_sp_d16`: `sp` gets the immediate word; 12 cycles. */
  function LdSpD16Effect(s: CpuState): (o: Outcome)
    requires s.Valid() && s.regs.pc - 2 != 0xffff
    ensures o.state.Valid() && o.cost == 12
    ensures o.state == s.(regs := s.regs.(sp := s.ReadProgWord(2)))
  {
    Outcome(s.(regs := s.regs.(sp := s.ReadProgWord(2))), 12)
  }

  /** `ld_a16_sp`: `sp` is stored little-endian at the immediate address;
      the registers stay as they are; 20 cycles. */
  function LdA16SpEffect(s: CpuState): (o: Outcome)
    requires s.Valid() && s.regs.pc - 2 != 0xffff && s.ReadProgWord(2) < 0xffff
    ensures o.state.Valid() && o.cost == 20
    ensures o.state == s.(bus := s.bus.WriteWord(s.ReadProgWord(2), s.regs.sp))
  {
    Outcome(s.(bus := s.bus.WriteWord(s.ReadProgWord(2), s.regs.sp)), 20)
  }

  /** `ld_hl_sp_plus_r8`: HL gets the sum and `f` the flags that
      `add_i8_to_u16` computes from `sp` and the immediate byte; `sp` is
      unchanged; 12 cycles. */
  function LdHlSpPlusR8Effect(s: CpuState): (o: Outcome)
    requires s.Valid()
    ensures o.state.Valid() && o.cost == 12
    ensures o.state.regs.Hl() == AddI8ToU16(s.regs, s.regs.sp, s.ReadProgByte(1)).value
    ensures o.state.regs.f == AddI8ToU16(s.regs, s.regs.sp, s.ReadProgByte(1)).regs.f
    ensures o.state.regs.sp == s.regs.sp && o.state.regs.pc == s.regs.pc
    ensures o.state == s.(regs := o.state.regs)
  {
    Outcome(s.(regs := AddI8ToU16(s.regs, s.regs.sp, s.ReadProgByte(1)).regs
                         .SetPair(HL, AddI8ToU16(s.regs, s.regs.sp, s.ReadProgByte(1)).value)), 12)
  }

  /** The addition clears Z and N. */
  lemma LdHlSpPlusR8Flags(s: CpuState)
    requires s.Valid()
    ensures !LdHlSpPlusR8Effect(s).state.regs.Z() && !LdHlSpPlusR8Effect(s).state.regs.N()
  {
  }

  /** `ld_sp_hl`: `sp` gets HL; 8 cycles. */
  function LdSpHlEffect(s: CpuState): (o: Outcome)
    requires s.Valid()
    ensures o.state.Valid() && o.cost == 8
    ensures o.state == s.(regs := s.regs.(sp := s.regs.Hl()))
  {
    Outcome(s.(regs := s.regs.(sp := s.regs.Hl())), 8)
  }

  /** `pop_bc` … `pop_af`: the pair gets the word on top of the stack and
      `sp` moves up by 2; 12 cycles. */
  function PopPairEffect(s: CpuState, p: Pair): (o: Outcome)
    requires s.Valid() && s.regs.sp != 0xffff
    ensures o.state.Valid() && o.cost == 12
    ensures o.state.regs.GetPair(p) == s.TopWord()
    ensures o.state.regs.sp == s.regs.sp + 2
    ensures forall q: Pair :: q != p ==> o.state.regs.GetPair(q) == s.regs.GetPair(q)
    ensures o.state.regs.pc == s.regs.pc
    ensures o.state == s.(regs := o.state.regs)
  {
    var w := s.TopWord();
    PoppedPair(s.regs, p, w);
    Outcome(s.(regs := s.regs.(sp := s.regs.sp + 2).SetPair(p, w)), 12)
  }

  /** The register file after a pop into pair `p` of the word `w`. */
  lemma PoppedPair(r: RegisterFile, p: Pair, w: Word)
    ensures var t := r.(sp := r.sp + 2).SetPair(p, w);
            t.GetPair(p) == w && t.sp == r.sp + 2 && t.pc == r.pc &&
            forall q: Pair :: q != p ==> t.GetPair(q) == r.GetPair(q)
  {
  }

  /** `push_bc` … `push_af`: the pair is pushed as a word; 16 cycles. */
  function PushPairEffect(s: CpuState, p: Pair): (o: Outcome)
    requires s.Valid() && s.regs.sp != 1
    ensures o.state.Valid() && o.cost == 16
    ensures o.state == s.PushWord(s.regs.GetPair(p))
  {
    Outcome(s.PushWord(s.regs.GetPair(p)), 16)
  }

  /** `ld_bc_a`, `ld_de_a`: `a` is stored at the address in the pair; the
      registers stay as they are; 8 cycles. */
  function LdPairAEffect(s: CpuState, p: AddressPair): (o: Outcome)
    requires s.Valid()
    ensures o.state.Valid() && o.cost == 8
    ensures o.state == s.(bus := s.bus.WriteByte(s.regs.GetPair(p), s.regs.a))
  {
    Outcome(s.(bus := s.bus.WriteByte(s.regs.GetPair(p), s.regs.a)), 8)
  }

  /** `ld_hl_inc_a`: `a` is stored at HL, then HL moves up by one;
      8 cycles. */
  function LdHlIncAEffect(s: CpuState): (o: Outcome)
    requires s.Valid()
    ensures o.state.Valid() && o.cost == 8
    ensures o.state.bus == s.bus.WriteByte(s.regs.Hl(), s.regs.a)
    ensures o.state.regs.Hl() == s.regs.Hl() + 1
    ensures o.state.regs == s.regs.SetPair(HL, o.state.regs.Hl())
    ensures o.state == s.(regs := o.state.regs, bus := o.state.bus)
  {
    Outcome(s.(bus := s.bus.WriteByte(s.regs.Hl(), s.regs.a), regs := s.regs.SetPair(HL, s.regs.Hl() + 1)), 8)
  }

  /** `ld_hl_dec_a`: `a` is stored at HL, then HL moves down by one;
      8 cycles. */
  function LdHlDecAEffect(s: CpuState): (o: Outcome)
    requires s.Valid()
    ensures o.state.Valid() && o.cost == 8
    ensures o.state.bus == s.bus.WriteByte(s.regs.Hl(), s.regs.a)
    ensures o.state.regs.Hl() == s.regs.Hl() - 1
    ensures o.state.regs == s.regs.SetPair(HL, o.state.regs.Hl())
    ensures o.state == s.(regs := o.state.regs, bus := o.state.bus)
  {
    Outcome(s.(bus := s.bus.WriteByte(s.regs.Hl(), s.regs.a), regs := s.regs.SetPair(HL, s.regs.Hl() - 1)), 8)
  }

  /** `ld_a_bc`, `ld_a_de`: `a` gets the byte at the address in the pair;
      8 cycles. */
  function LdAPairEffect(s: CpuState, p: AddressPair): (o: Outcome)
    requires s.Valid()
    ensures o.state.Valid() && o.cost == 8
    ensures o.state == s.(regs := s.regs.(a := s.bus.ReadByte(s.regs.GetPair(p))))
  {
    Outcome(s.(regs := s.regs.(a := s.bus.ReadByte(s.regs.GetPair(p)))), 8)
  }

  /** `ld_a_hl_inc`: `a` gets the byte at HL, then HL moves up by one;
      8 cycles. */
  function LdAHlIncEffect(s: CpuState): (o: Outcome)
    requires s.Valid()
    ensures o.state.Valid() && o.cost == 8
    ensures o.state.regs.a == s.bus.ReadByte(s.regs.Hl())
    ensures o.state.regs.Hl() == s.regs.Hl() + 1
    ensures o.state.regs == s.regs.(a := o.state.regs.a, h := o.state.regs.h, l := o.state.regs.l)
    ensures o.state == s.(regs := o.state.regs)
  {
    var r := s.regs.(a := s.bus.ReadByte(s.regs.Hl()));
    Outcome(s.(regs := r.SetPair(HL, r.Hl() + 1)), 8)
  }

  /** `ld_a_hl_dec`: `a` gets the byte at HL, then HL moves down by one;
      8 cycles. */
  function LdAHlDecEffect(s: CpuState): (o: Outcome)
    requires s.Valid()
    ensures o.state.Valid() && o.cost == 8
    ensures o.state.regs.a == s.bus.ReadByte(s.regs.Hl())
    ensures o.state.regs.Hl() == s.regs.Hl() - 1
    ensures o.state.regs == s.regs.(a := o.state.regs.a, h := o.state.regs.h, l := o.state.regs.l)
    ensures o.state == s.(regs := o.state.regs)
  {
    var r := s.regs.(a := s.bus.ReadByte(s.regs.Hl()));
    Outcome(s.(regs := r.SetPair(HL, r.Hl() - 1)), 8)
  }

  /** `ld_b_d8`, `ld_c_d8`, `ld_d_d8`: the register gets the immediate byte
      behind `pc`; 8 cycles. */
  function LdRD8Effect(s: CpuState, r: ImmReg): (o: Outcome)
    requires s.Valid()
    ensures o.state.Valid() && o.cost == 8
    ensures o.state.regs.Get(r) == s.ReadProgByte(1)
    ensures forall q: Reg8 :: q != r ==> o.state.regs.Get(q) == s.regs.Get(q)
    ensures o.state.regs.pc == s.regs.pc && o.state.regs.sp == s.regs.sp && o.state.regs.f == s.regs.f
    ensures o.state == s.(regs := o.state.regs)
  {
    Outcome(s.(regs := s.regs.Set(r, s.ReadProgByte(1))), 8)
  }

  /** The registers after `pop_xx`, in terms of the pop. */
  lemma PopPairRegs(s: CpuState, p: Pair)
    requires s.Valid() && s.regs.sp != 0xffff
    ensures PopPairEffect(s, p).state.regs == s.Popped(2).regs.SetPair(p, s.TopWord())
  {
  }

  /** `pop_xx` puts the byte at `sp + 1` into the pair's first register and
      the byte at `sp` into its second; for AF the whole byte lands in `f`,
      low nibble included. */
  lemma PopPairBytes(s: CpuState, p: Pair)
    requires s.Valid() && s.regs.sp != 0xffff
    ensures var r := PopPairEffect(s, p).state.regs;
            var hi := s.bus.ReadByte(s.regs.sp + 1);
            var lo := s.bus.ReadByte(s.regs.sp);
            (p == AF ==> r.a == hi && r.f == lo) &&
            (p == BC ==> r.b == hi && r.c == lo) &&
            (p == DE ==> r.d == hi && r.e == lo) &&
            (p == HL ==> r.h == hi && r.l == lo)
  {
    var w := s.TopWord();
    PopPairRegs(s, p);
    PairBytes(s.Popped(2).regs, p, w);
  }

  /** Which register gets which byte of a pair assignment. */
  lemma PairBytes(r: RegisterFile, p: Pair, w: Word)
    ensures var t := r.SetPair(p, w);
            (p == AF ==> t.a == Hi(w) && t.f == Lo(w)) &&
            (p == BC ==> t.b == Hi(w) && t.c == Lo(w)) &&
            (p == DE ==> t.d == Hi(w) && t.e == Lo(w)) &&
            (p == HL ==> t.h == Hi(w) && t.l == Lo(w))
  {
  }

  /** A pushed pair pops back into the same pair: with both stack bytes in
      work RAM, `push_xx` then `pop_xx` leaves every register as it was. */
  lemma PushThenPopPair(s: CpuState, p: Pair)
    requires s.Valid() && 0xc002 <= s.regs.sp <= 0xe000
    ensures var t := PushPairEffect(s, p).state;
            t.regs.sp != 0xffff && PopPairEffect(t, p).state.regs == s.regs
  {
    PushPopWord(s, s.regs.GetPair(p));
    PopPairRegs(s.PushWord(s.regs.GetPair(p)), p);
    SetPairOwnValue(s.regs, p);
  }

  /** A byte stored through a pair into RAM loads back into `a`. */
  lemma StoreThenLoadA(s: CpuState, p: AddressPair)
    requires s.Valid() && 0x8000 <= s.regs.GetPair(p) <= 0xfdff
    ensures LdAPairEffect(LdPairAEffect(s, p).state, p).state.regs == s.regs
  {
    RamByteRoundTrip(s.bus, s.regs.GetPair(p), s.regs.a);
  }

  /** `ld_hl_inc_a` then `ld_a_hl_dec` brings HL back; `ld_hl_dec_a` then
      `ld_a_hl_inc` too. */
  lemma HlStepsCancel(s: CpuState)
    requires s.Valid()
    ensures LdAHlDecEffect(LdHlIncAEffect(s).state).state.regs.Hl() == s.regs.Hl()
    ensures LdAHlIncEffect(LdHlDecAEffect(s).state).state.regs.Hl() == s.regs.Hl()
  {
  }

  method LdPairD16(cpu: Cpu, p: WidePair) returns (cost: nat)
    requires cpu.Valid() && cpu.reg.pc - 2 != 0xffff
    modifies cpu.reg
    ensures cpu.Valid()
    ensures Outcome(cpu.State(), cost) == LdPairD16Effect(old(cpu.State()), p)
  {
    cpu.PutPair(p, cpu.ReadProgWord(2));
    cost := 12;
  }

  method LdSpD16(cpu: Cpu) returns (cost: nat)
    requires cpu.Valid() && cpu.reg.pc - 2 != 0xffff
    modifies cpu.reg
    ensures cpu.Valid()
    ensures Outcome(cpu.State(), cost) == LdSpD16Effect(old(cpu.State()))
  {
    cpu.PutSp(cpu.ReadProgWord(2));
    cost := 12;
  }

  method LdA16Sp(cpu: Cpu) returns (cost: nat)
    requires cpu.Valid() && cpu.reg.pc - 2 != 0xffff && cpu.ReadProgWord(2) < 0xffff
    modifies cpu.Repr()
    ensures cpu.Valid()
    ensures Outcome(cpu.State(), cost) == LdA16SpEffect(old(cpu.State()))
  {
    var addr := cpu.ReadProgWord(2);
    cpu.WriteWord(addr, cpu.reg.sp);
    cost := 20;
  }

  method LdHlSpPlusR8(cpu: Cpu) returns (cost: nat)
    requires cpu.Valid()
    modifies cpu.reg
    ensures cpu.Valid()
    ensures Outcome(cpu.State(), cost) == LdHlSpPlusR8Effect(old(cpu.State()))
  {
    var r8 := cpu.ReadProgByte(1);
    var sum := AluAddI8ToU16(cpu, cpu.reg.sp, r8);
    cpu.PutPair(HL, sum);
    cost := 12;
  }

  method LdSpHl(cpu: Cpu) returns (cost: nat)
    requires cpu.Valid()
    modifies cpu.reg
    ensures cpu.Valid()
    ensures Outcome(cpu.State(), cost) == LdSpHlEffect(old(cpu.State()))
  {
    cpu.PutSp(Join(cpu.reg.h, cpu.reg.l));
    cost := 8;
  }

  method PopPair(cpu: Cpu, p: Pair) returns (cost: nat)
    requires cpu.Valid() && cpu.reg.sp != 0xffff
    modifies cpu.reg
    ensures cpu.Valid()
    ensures Outcome(cpu.State(), cost) == PopPairEffect(old(cpu.State()), p)
  {
    var res := cpu.StackPopWord();
    cpu.PutPair(p, res);
    cost := 12;
  }

  method PushPair(cpu: Cpu, p: Pair) returns (cost: nat)
    requires cpu.Valid() && cpu.reg.sp != 1
    modifies cpu.Repr()
    ensures cpu.Valid()
    ensures Outcome(cpu.State(), cost) == PushPairEffect(old(cpu.State()), p)
  {
    cpu.StackPushWord(cpu.reg.State().GetPair(p));
    cost := 16;
  }

  method LdPairA(cpu: Cpu, p: AddressPair) returns (cost: nat)
    requires cpu.Valid()
    modifies cpu.Repr()
    ensures cpu.Valid()
    ensures Outcome(cpu.State(), cost) == LdPairAEffect(old(cpu.State()), p)
  {
    var addr := cpu.reg.State().GetPair(p);
    cpu.WriteByte(addr, cpu.reg.a);
    cost := 8;
  }

  method LdHlIncA(cpu: Cpu) returns (cost: nat)
    requires cpu.Valid()
    modifies cpu.Repr()
    ensures cpu.Valid()
    ensures Outcome(cpu.State(), cost) == LdHlIncAEffect(old(cpu.State()))
  {
    var addr := Join(cpu.reg.h, cpu.reg.l);
    cpu.WriteByte(addr, cpu.reg.a);
    cpu.PutPair(HL, Join(cpu.reg.h, cpu.reg.l) + 1);
    cost := 8;
  }

  method LdHlDecA(cpu: Cpu) returns (cost: nat)
    requires cpu.Valid()
    modifies cpu.Repr()
    ensures cpu.Valid()
    ensures Outcome(cpu.State(), cost) == LdHlDecAEffect(old(cpu.State()))
  {
    var addr := Join(cpu.reg.h, cpu.reg.l);
    cpu.WriteByte(addr, cpu.reg.a);
    cpu.PutPair(HL, Join(cpu.reg.h, cpu.reg.l) - 1);
    cost := 8;
  }

  method LdAPair(cpu: Cpu, p: AddressPair) returns (cost: nat)
    requires cpu.Valid()
    modifies cpu.reg
    ensures cpu.Valid()
    ensures Outcome(cpu.State(), cost) == LdAPairEffect(old(cpu.State()), p)
  {
    var addr := cpu.reg.State().GetPair(p);
    cpu.Put(A, cpu.bus.ReadByte(addr));
    cost := 8;
  }

  method LdAHlInc(cpu: Cpu) returns (cost: nat)
    requires cpu.Valid()
    modifies cpu.reg
    ensures cpu.Valid()
    ensures Outcome(cpu.State(), cost) == LdAHlIncEffect(old(cpu.State()))
  {
    var addr := Join(cpu.reg.h, cpu.reg.l);
    cpu.Put(A, cpu.bus.ReadByte(addr));
    cpu.PutPair(HL, Join(cpu.reg.h, cpu.reg.l) + 1);
    cost := 8;
  }

  method LdAHlDec(cpu: Cpu) returns (cost: nat)
    requires cpu.Valid()
    modifies cpu.reg
    ensures cpu.Valid()
    ensures Outcome(cpu.State(), cost) == LdAHlDecEffect(old(cpu.State()))
  {
    var addr := Join(cpu.reg.h, cpu.reg.l);
    cpu.Put(A, cpu.bus.ReadByte(addr));
    cpu.PutPair(HL, Join(cpu.reg.h, cpu.reg.l) - 1);
    cost := 8;
  }

  method LdRD8(cpu: Cpu, r: ImmReg) returns (cost: nat)
    requires cpu.Valid()
    modifies cpu.reg
    ensures cpu.Valid()
    ensures Outcome(cpu.State(), cost) == LdRD8Effect(old(cpu.State()), r)
  {
    cpu.Put(r, cpu.ReadProgByte(1));
    cost := 8;
  }
}

/** The jump handlers: relative jumps, returns, calls, absolute jumps and
    restarts, each with its conditional forms on Z and C.  A call or a
    restart pushes `pc` as it stands after the fetch, so a return comes
    back to the instruction after it. */
module Jumps {
  import opened Bits
  import opened Registers
  import opened MemoryBus
  import opened Cpu
  import Control

  /** The four branch conditions. */
  datatype Condition = IfNz | IfZ | IfNc | IfC
  {
    predicate Holds(r: RegisterFile)
    {
      match this
      case IfNz => !r.Z()
      case IfZ => r.Z()
      case IfNc => !r.Cy()
      case IfC => r.Cy()
    }
  }

  /** The restart targets 0x00, 0x08, …, 0x38. */
  type RstVector = v: Word | v & 0xffc7 == 0 witness 0

  /** The target of a relative jump as the source computes it: `pc`
      zero-extended to 32 bits plus the offset sign-extended to 32 bits,
      cut back to the low 16 bits. */
  function JrTarget(pc: Word, offset: Byte): Word
  {
    (((pc as bv32) + SignExtend32(offset)) & 0xffff) as Word
  }

  /** The 32-bit detour is plain wrapping 16-bit addition of the
      sign-extended offset. */
  lemma JrTargetWraps(pc: Word, offset: Byte)
    ensures JrTarget(pc, offset) == pc + SignExtend(offset)
  {
  }

  /** `jr_r8`: `pc` moves by the signed byte behind it; 12 cycles. */
  function JrR8Effect(s: CpuState): (o: Outcome)
    requires s.Valid()
    ensures o.state.Valid() && o.cost == 12
    ensures o.state == s.(regs := s.regs.(pc := JrTarget(s.regs.pc, s.ReadProgByte(1))))
  {
    Outcome(s.(regs := s.regs.(pc := JrTarget(s.regs.pc, s.ReadProgByte(1)))), 12)
  }

  /** `jr_nz_r8` … `jr_c_r8`: `jr_r8` when the condition holds, otherwise
      nothing changes and the cost is 8. */
  function JrCcEffect(s: CpuState, c: Condition): (o: Outcome)
    requires s.Valid()
    ensures o.state.Valid()
    ensures c.Holds(s.regs) ==> o == JrR8Effect(s)
    ensures !c.Holds(s.regs) ==> o == Outcome(s, 8)
  {
    if c.Holds(s.regs) then JrR8Effect(s) else Outcome(s, 8)
  }

  /** `ret`: `pc` gets the popped word and `sp` moves up by 2; 20 cycles. */
  function RetEffect(s: CpuState): (o: Outcome)
    requires s.Valid() && s.regs.sp != 0xffff
    ensures o.state.Valid() && o.cost == 20
    ensures o.state.regs == s.regs.(pc := s.TopWord(), sp := s.regs.sp + 2)
    ensures o.state == s.(regs := o.state.regs)
  {
    Outcome(s.(regs := s.regs.(pc := s.TopWord(), sp := s.regs.sp + 2)), 20)
  }

  /** `reti`: `ret`, then interrupts enabled; the cost is that of `ret`. */
  function RetiEffect(s: CpuState): (o: Outcome)
    requires s.Valid() && s.regs.sp != 0xffff
    ensures o.state.Valid() && o.cost == 20
    ensures o.state == RetEffect(s).state.(interrupts := true)
  {
    Outcome(Control.EiEffect(RetEffect(s).state).state, RetEffect(s).cost)
  }

  /** `ret_nz` … `ret_c`: `ret` when the condition holds, otherwise nothing
      changes and the cost is 8. */
  function RetCcEffect(s: CpuState, c: Condition): (o: Outcome)
    requires s.Valid() && (c.Holds(s.regs) ==> s.regs.sp != 0xffff)
    ensures o.state.Valid()
    ensures c.Holds(s.regs) ==> o == RetEffect(s)
    ensures !c.Holds(s.regs) ==> o == Outcome(s, 8)
  {
    if c.Holds(s.regs) then RetEffect(s) else Outcome(s, 8)
  }

  /** `call_a16`: `pc` is pushed, then `pc` gets the immediate word, read
      after the push; 24 cycles. */
  function CallA16Effect(s: CpuState): (o: Outcome)
    requires s.Valid() && s.regs.sp != 1 && s.regs.pc - 2 != 0xffff
    ensures o.state.Valid() && o.cost == 24
    ensures o.state.bus == s.PushWord(s.regs.pc).bus
    ensures o.state.regs == s.regs.(sp := s.regs.sp - 2, pc := s.PushWord(s.regs.pc).ReadProgWord(2))
    ensures o.state == s.(regs := o.state.regs, bus := o.state.bus)
  {
    var t := s.PushWord(s.regs.pc);
    Outcome(t.(regs := t.regs.(pc := t.ReadProgWord(2))), 24)
  }

  /** `call_nz_a16` … `call_c_a16`: `call_a16` when the condition holds,
      otherwise nothing changes and the cost is 12. */
  function CallCcEffect(s: CpuState, c: Condition): (o: Outcome)
    requires s.Valid() && (c.Holds(s.regs) ==> s.regs.sp != 1 && s.regs.pc - 2 != 0xffff)
    ensures o.state.Valid()
    ensures c.Holds(s.regs) ==> o == CallA16Effect(s)
    ensures !c.Holds(s.regs) ==> o == Outcome(s, 12)
  {
    if c.Holds(s.regs) then CallA16Effect(s) else Outcome(s, 12)
  }

  /** `jp_a16`: `pc` gets the immediate word; 16 cycles. */
  function JpA16Effect(s: CpuState): (o: Outcome)
    requires s.Valid() && s.regs.pc - 2 != 0xffff
    ensures o.state.Valid() && o.cost == 16
    ensures o.state == s.(regs := s.regs.(pc := s.ReadProgWord(2)))
  {
    Outcome(s.(regs := s.regs.(pc := s.ReadProgWord(2))), 16)
  }

  /** `jp_hl`: `pc` gets the word `HL` bytes behind `pc` (not HL itself);
      4 cycles. */
  function JpHlEffect(s: CpuState): (o: Outcome)
    requires s.Valid() && s.regs.pc - s.regs.Hl() != 0xffff
    ensures o.state.Valid() && o.cost == 4
    ensures o.state == s.(regs := s.regs.(pc := s.ReadProgWord(s.regs.Hl())))
  {
    Outcome(s.(regs := s.regs.(pc := s.ReadProgWord(s.regs.Hl()))), 4)
  }

  /** `jp_nz_a16` … `jp_c_a16`: `jp_a16` when the condition holds, otherwise
      nothing changes and the cost is 12. */
  function JpCcEffect(s: CpuState, c: Condition): (o: Outcome)
    requires s.Valid() && (c.Holds(s.regs) ==> s.regs.pc - 2 != 0xffff)
    ensures o.state.Valid()
    ensures c.Holds(s.regs) ==> o == JpA16Effect(s)
    ensures !c.Holds(s.regs) ==> o == Outcome(s, 12)
  {
    if c.Holds(s.regs) then JpA16Effect(s) else Outcome(s, 12)
  }

  /** `rst_00h` … `rst_38h`: `pc` is pushed, then `pc` gets the vector;
      32 cycles. */
  function RstEffect(s: CpuState, v: RstVector): (o: Outcome)
    requires s.Valid() && s.regs.sp != 1
    ensures o.state.Valid() && o.cost == 32
    ensures o.state.bus == s.PushWord(s.regs.pc).bus
    ensures o.state.regs == s.regs.(sp := s.regs.sp - 2, pc := v)
    ensures o.state == s.(regs := o.state.regs, bus := o.state.bus)
  {
    var t := s.PushWord(s.regs.pc);
    Outcome(t.(regs := t.regs.(pc := v)), 32)
  }

  /** The return address a call pushes is on top of the stack afterwards. */
  lemma CallPushesReturnAddress(s: CpuState)
    requires s.Valid() && 0xc002 <= s.regs.sp <= 0xe000 && s.regs.pc - 2 != 0xffff
    ensures CallA16Effect(s).state.regs.sp != 0xffff
    ensures CallA16Effect(s).state.TopWord() == s.regs.pc
  {
    PushPopWord(s, s.regs.pc);
  }

  /** With the stack in work RAM, `ret` after `call_a16` comes back to the
      address after the call and restores `sp`. */
  lemma CallThenRet(s: CpuState)
    requires s.Valid() && 0xc002 <= s.regs.sp <= 0xe000 && s.regs.pc - 2 != 0xffff
    ensures CallA16Effect(s).state.regs.sp != 0xffff
    ensures RetEffect(CallA16Effect(s).state).state.regs.pc == s.regs.pc
    ensures RetEffect(CallA16Effect(s).state).state.regs.sp == s.regs.sp
  {
    CallPushesReturnAddress(s);
  }

  /** The return address a restart pushes is on top of the stack afterwards. */
  lemma RstPushesReturnAddress(s: CpuState, v: RstVector)
    requires s.Valid() && 0xc002 <= s.regs.sp <= 0xe000
    ensures RstEffect(s, v).state.regs.sp != 0xffff
    ensures RstEffect(s, v).state.TopWord() == s.regs.pc
  {
    PushPopWord(s, s.regs.pc);
  }

  /** With the stack in work RAM, `ret` after `rst_xxh` comes back and
      restores `sp`; in between `pc` is the vector. */
  lemma RstThenRet(s: CpuState, v: RstVector)
    requires s.Valid() && 0xc002 <= s.regs.sp <= 0xe000
    ensures RstEffect(s, v).state.regs.pc == v
    ensures RstEffect(s, v).state.regs.sp != 0xffff
    ensures RetEffect(RstEffect(s, v).state).state.regs.pc == s.regs.pc
    ensures RetEffect(RstEffect(s, v).state).state.regs.sp == s.regs.sp
  {
    RstPushesReturnAddress(s, v);
  }

  /** The eight restart vectors are exactly the multiples of 8 below 0x40. */
  lemma RstVectors(v: Word)
    ensures v & 0xffc7 == 0 <==> v < 0x40 && v % 8 == 0
  {
  }

  method JrR8(cpu: Cpu) returns (cost: nat)
    requires cpu.Valid()
    modifies cpu.reg
    ensures cpu.Valid()
    ensures Outcome(cpu.State(), cost) == JrR8Effect(old(cpu.State()))
  {
    cpu.PutPc(JrTarget(cpu.reg.pc, cpu.ReadProgByte(1)));
    cost := 12;
  }

  method JrCc(cpu: Cpu, c: Condition) returns (cost: nat)
    requires cpu.Valid()
    modifies cpu.reg
    ensures cpu.Valid()
    ensures Outcome(cpu.State(), cost) == JrCcEffect(old(cpu.State()), c)
  {
    if c.Holds(cpu.reg.State()) {
      cost := JrR8(cpu);
    } else {
      cost := 8;
    }
  }

  method Ret(cpu: Cpu) returns (cost: nat)
    requires cpu.Valid() && cpu.reg.sp != 0xffff
    modifies cpu.reg
    ensures cpu.Valid()
    ensures Outcome(cpu.State(), cost) == RetEffect(old(cpu.State()))
  {
    var pc := cpu.StackPopWord();
    cpu.PutPc(pc);
    cost := 20;
  }

  method Reti(cpu: Cpu) returns (cost: nat)
    requires cpu.Valid() && cpu.reg.sp != 0xffff
    modifies cpu, cpu.reg
    ensures cpu.Valid()
    ensures Outcome(cpu.State(), cost) == RetiEffect(old(cpu.State()))
  {
    var o := Ret(cpu);
    var _ := Control.Ei(cpu);
    cost := o;
  }

  method RetCc(cpu: Cpu, c: Condition) returns (cost: nat)
    requires cpu.Valid() && (c.Holds(cpu.reg.State()) ==> cpu.reg.sp != 0xffff)
    modifies cpu.reg
    ensures cpu.Valid()
    ensures Outcome(cpu.State(), cost) == RetCcEffect(old(cpu.State()), c)
  {
    if c.Holds(cpu.reg.State()) {
      cost := Ret(cpu);
    } else {
      cost := 8;
    }
  }

  method CallA16(cpu: Cpu) returns (cost: nat)
    requires cpu.Valid() && cpu.reg.sp != 1 && cpu.reg.pc - 2 != 0xffff
    modifies cpu.Repr()
    ensures cpu.Valid()
    ensures Outcome(cpu.State(), cost) == CallA16Effect(old(cpu.State()))
  {
    cpu.StackPushWord(cpu.reg.pc);
    cpu.PutPc(cpu.ReadProgWord(2));
    cost := 24;
  }

  method CallCc(cpu: Cpu, c: Condition) returns (cost: nat)
    requires cpu.Valid() && (c.Holds(cpu.reg.State()) ==> cpu.reg.sp != 1 && cpu.reg.pc - 2 != 0xffff)
    modifies cpu.Repr()
    ensures cpu.Valid()
    ensures Outcome(cpu.State(), cost) == CallCcEffect(old(cpu.State()), c)
  {
    if c.Holds(cpu.reg.State()) {
      cost := CallA16(cpu);
    } else {
      cost := 12;
    }
  }

  method JpA16(cpu: Cpu) returns (cost: nat)
    requires cpu.Valid() && cpu.reg.pc - 2 != 0xffff
    modifies cpu.reg
    ensures cpu.Valid()
    ensures Outcome(cpu.State(), cost) == JpA16Effect(old(cpu.State()))
  {
    cpu.PutPc(cpu.ReadProgWord(2));
    cost := 16;
  }

  method JpHl(cpu: Cpu) returns (cost: nat)
    requires cpu.Valid() && cpu.reg.pc - cpu.reg.State().Hl() != 0xffff
    modifies cpu.reg
    ensures cpu.Valid()
    ensures Outcome(cpu.State(), cost) == JpHlEffect(old(cpu.State()))
  {
    cpu.PutPc(cpu.State().ReadProgWord(cpu.State().regs.Hl()));
    cost := 4;
  }

  method JpCc(cpu: Cpu, c: Condition) returns (cost: nat)
    requires cpu.Valid() && (c.Holds(cpu.reg.State()) ==> cpu.reg.pc - 2 != 0xffff)
    modifies cpu.reg
    ensures cpu.Valid()
    ensures Outcome(cpu.State(), cost) == JpCcEffect(old(cpu.State()), c)
  {
    if c.Holds(cpu.reg.State()) {
      cost := JpA16(cpu);
    } else {
      cost := 12;
    }
  }

  method Rst(cpu: Cpu, v: RstVector) returns (cost: nat)
    requires cpu.Valid() && cpu.reg.sp != 1
    modifies cpu.Repr()
    ensures cpu.Valid()
    ensures Outcome(cpu.State(), cost) == RstEffect(old(cpu.State()), v)
  {
    cpu.StackPushWord(cpu.reg.pc);
    cpu.PutPc(v);
    cost := 32;
  }
}

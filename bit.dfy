/** The bit-operation helpers: the nibble swap and its `swap_a` handler;
    every other helper is still a stub that answers 0. */
module Bit {
  import opened Bits
  import opened Registers
  import opened Cpu
  import opened Math

  /** The helpers the source declares but has not implemented yet. */
  datatype BluOp = Rlc | Rrc | Rl | Rr | Sla | Sra | Srl | BitB | ResB | SetB

  /** The low nibble shifted up, the high nibble shifted down. */
  function SwapNibbles(n: Byte): Byte
  {
    ((n & 0x0f) << 4) | ((n & 0xf0) >> 4)
  }

  /** `blu::swap_n`: the high nibble of the result is the low nibble of `n`
      and the other way round; Z is set exactly when `n` is 0, N, H and C
      end up clear and only `f` changes. */
  function Swap(r: RegisterFile, n: Byte): (o: AluResult)
    ensures o.value >> 4 == n & 0x0f && o.value & 0x0f == n >> 4
    ensures o.regs.Z() <==> n == 0
    ensures !o.regs.N() && !o.regs.Hc() && !o.regs.Cy()
    ensures o.regs == r.(f := o.regs.f)
  {
    var res := SwapNibbles(n);
    assert res == 0 <==> n == 0;
    AluResult(res, r.SetFlag(ZeroBit, res == 0)
                    .SetFlag(SubtractBit, false)
                    .SetFlag(HalfCarryBit, false)
                    .SetFlag(CarryBit, false))
  }

  /** Swapping twice gives the byte back. */
  lemma SwapInvolution(r: RegisterFile, q: RegisterFile, n: Byte)
    ensures Swap(q, Swap(r, n).value).value == n
  {
  }

  /** `blu::swap_n` on the CPU: sets the four flags and returns the swapped
      byte. */
  method AluSwap(cpu: Cpu, n: Byte) returns (res: Byte)
    requires cpu.Valid()
    modifies cpu.reg
    ensures cpu.Valid()
    ensures res == Swap(old(cpu.State()).regs, n).value
    ensures cpu.State() == old(cpu.State()).(regs := Swap(old(cpu.State()).regs, n).regs)
  {
    res := ((n & 0x0f) << 4) | ((n & 0xf0) >> 4);
    cpu.PutFlag(ZeroBit, res == 0);
    cpu.PutFlag(SubtractBit, false);
    cpu.PutFlag(HalfCarryBit, false);
    cpu.PutFlag(CarryBit, false);
  }

  /** `swap_a`: `a` gets its swapped value, `f` the flags of `Swap`, nothing
      else changes; 8 cycles. */
  function SwapAEffect(s: CpuState): (o: Outcome)
    requires s.Valid()
    ensures o.state.Valid() && o.cost == 8
    ensures o.state.regs.a == Swap(s.regs, s.regs.a).value
    ensures o.state.regs == Swap(s.regs, s.regs.a).regs.(a := o.state.regs.a)
    ensures o.state == s.(regs := o.state.regs)
  {
    var res := Swap(s.regs, s.regs.a);
    Outcome(s.(regs := res.regs.(a := res.value)), 8)
  }

  /** `swap_a` twice restores `a`. */
  lemma SwapATwice(s: CpuState)
    requires s.Valid()
    ensures SwapAEffect(SwapAEffect(s).state).state.regs.a == s.regs.a
  {
    SwapInvolution(s.regs, SwapAEffect(s).state.regs, s.regs.a);
  }

  method SwapA(cpu: Cpu) returns (cost: nat)
    requires cpu.Valid()
    modifies cpu.reg
    ensures cpu.Valid()
    ensures Outcome(cpu.State(), cost) == SwapAEffect(old(cpu.State()))
  {
    var v := AluSwap(cpu, cpu.reg.a);
    cpu.Put(A, v);
    cost := 8;
  }

  /** The unimplemented helpers: whatever the operand, the answer is 0, and
      the CPU, flags included, is left alone. */
  method BluStub(cpu: Cpu, op: BluOp, n: Byte) returns (res: Byte)
    requires cpu.Valid()
    ensures res == 0
  {
    res := 0;
  }
}

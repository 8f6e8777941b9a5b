/** The older handler set: its `nop`, `stop`, `halt`, `di` and `ei` only
    answer 4 cycles, so its `reti` is a plain `ret`.  Its jump, call, return
    and restart handlers are the ones of the newer set and are modelled once,
    in `Jumps`; its `prefix_cb` runs a CB-table handler and lives with the
    dispatcher. */
module LegacyOps {
  import opened Cpu
  import Control
  import Jumps

  method Nop(cpu: Cpu) returns (cost: nat)
    requires cpu.Valid()
    ensures Outcome(cpu.State(), cost) == Control.NopEffect(cpu.State())
  {
    cost := 4;
  }

  /** Unlike the newer `stop`, no latch rises. */
  method Stop(cpu: Cpu) returns (cost: nat)
    requires cpu.Valid()
    ensures Outcome(cpu.State(), cost) == Control.NopEffect(cpu.State())
  {
    cost := 4;
  }

  /** Unlike the newer `halt`, no latch rises. */
  method Halt(cpu: Cpu) returns (cost: nat)
    requires cpu.Valid()
    ensures Outcome(cpu.State(), cost) == Control.NopEffect(cpu.State())
  {
    cost := 4;
  }

  /** Unlike the newer `di`, the interrupt flag is left alone. */
  method Di(cpu: Cpu) returns (cost: nat)
    requires cpu.Valid()
    ensures Outcome(cpu.State(), cost) == Control.NopEffect(cpu.State())
  {
    cost := 4;
  }

  /** Unlike the newer `ei`, the interrupt flag is left alone. */
  method Ei(cpu: Cpu) returns (cost: nat)
    requires cpu.Valid()
    ensures Outcome(cpu.State(), cost) == Control.NopEffect(cpu.State())
  {
    cost := 4;
  }

  /** `reti`: `ret` followed by this set's `ei`, which does nothing. */
  method Reti(cpu: Cpu) returns (cost: nat)
    requires cpu.Valid() && cpu.reg.sp != 0xffff
    modifies cpu.reg
    ensures cpu.Valid()
    ensures Outcome(cpu.State(), cost) == Jumps.RetEffect(old(cpu.State()))
  {
    var o := Jumps.Ret(cpu);
    var _ := Ei(cpu);
    cost := o;
  }

  /** The two `reti` handlers agree exactly when interrupts were already
      enabled before the return. */
  lemma RetiVariantsAgree(s: CpuState)
    requires s.Valid() && s.regs.sp != 0xffff
    ensures Jumps.RetiEffect(s) == Jumps.RetEffect(s) <==> s.interrupts
  {
  }
}

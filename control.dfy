/** The control handlers: `nop`, the `stop` and `halt` latches that rise
    only while interrupts are enabled, and `di`/`ei`.  `prefix_cb` runs a
    handler of the CB table and lives with the dispatcher. */
module Control {
  import opened Cpu

  /** `nop`: nothing changes; 4 cycles. */
  function NopEffect(s: CpuState): (o: Outcome)
    ensures o.state == s && o.cost == 4
  {
    Outcome(s, 4)
  }

  /** `stop`: `stopped` rises iff interrupts are enabled, and is otherwise
      left as it was; nothing else changes; 4 cycles. */
  function StopEffect(s: CpuState): (o: Outcome)
    ensures o.cost == 4
    ensures o.state.stopped <==> s.stopped || s.interrupts
    ensures o.state == s.(stopped := o.state.stopped)
  {
    if s.interrupts then Outcome(s.(stopped := true), 4) else Outcome(s, 4)
  }

  /** `halt`: `halted` rises iff interrupts are enabled, and is otherwise
      left as it was; nothing else changes; 4 cycles. */
  function HaltEffect(s: CpuState): (o: Outcome)
    ensures o.cost == 4
    ensures o.state.halted <==> s.halted || s.interrupts
    ensures o.state == s.(halted := o.state.halted)
  {
    if s.interrupts then Outcome(s.(halted := true), 4) else Outcome(s, 4)
  }

  /** `di`: interrupts end up disabled; nothing else changes; 4 cycles. */
  function DiEffect(s: CpuState): (o: Outcome)
    ensures !o.state.interrupts && o.cost == 4
    ensures o.state == s.(interrupts := false)
  {
    Outcome(s.(interrupts := false), 4)
  }

  /** `ei`: interrupts end up enabled; nothing else changes; 4 cycles. */
  function EiEffect(s: CpuState): (o: Outcome)
    ensures o.state.interrupts && o.cost == 4
    ensures o.state == s.(interrupts := true)
  {
    Outcome(s.(interrupts := true), 4)
  }

  /** Running `di` or `ei` a second time changes nothing more. */
  lemma DiEiIdempotent(s: CpuState)
    ensures DiEffect(DiEffect(s).state) == DiEffect(s)
    ensures EiEffect(EiEffect(s).state) == EiEffect(s)
  {
  }

  /** With interrupts disabled, `stop` and `halt` are `nop`; after `ei` they
      always raise their latch. */
  lemma LatchesNeedInterrupts(s: CpuState)
    ensures !s.interrupts ==> StopEffect(s) == NopEffect(s) && HaltEffect(s) == NopEffect(s)
    ensures StopEffect(EiEffect(s).state).state.stopped
    ensures HaltEffect(EiEffect(s).state).state.halted
  {
  }

  method Nop(cpu: Cpu) returns (cost: nat)
    requires cpu.Valid()
    ensures Outcome(cpu.State(), cost) == NopEffect(cpu.State())
  {
    cost := 4;
  }

  method Stop(cpu: Cpu) returns (cost: nat)
    requires cpu.Valid()
    modifies cpu
    ensures cpu.Valid()
    ensures Outcome(cpu.State(), cost) == StopEffect(old(cpu.State()))
  {
    if cpu.interrupts {
      cpu.stopped := true;
    }
    cost := 4;
  }

  method Halt(cpu: Cpu) returns (cost: nat)
    requires cpu.Valid()
    modifies cpu
    ensures cpu.Valid()
    ensures Outcome(cpu.State(), cost) == HaltEffect(old(cpu.State()))
  {
    if cpu.interrupts {
      cpu.halted := true;
    }
    cost := 4;
  }

  method Di(cpu: Cpu) returns (cost: nat)
    requires cpu.Valid()
    modifies cpu
    ensures cpu.Valid()
    ensures Outcome(cpu.State(), cost) == DiEffect(old(cpu.State()))
  {
    cpu.interrupts := false;
    cost := 4;
  }

  method Ei(cpu: Cpu) returns (cost: nat)
    requires cpu.Valid()
    modifies cpu
    ensures cpu.Valid()
    ensures Outcome(cpu.State(), cost) == EiEffect(old(cpu.State()))
  {
    cpu.interrupts := true;
    cost := 4;
  }
}

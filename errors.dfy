/** The handlers for opcodes without an implementation: `unknown` answers
    the sentinel cycle count that the dispatcher recognises, `unused`
    answers 0; neither touches the CPU. */
module Errors {
  import opened Cpu

  /** `usize::MAX` on a 64-bit host. */
  const UnknownReturnCode: nat := 0xFFFF_FFFF_FFFF_FFFF

  /** The state is untouched and the cost is the sentinel. */
  function UnknownEffect(s: CpuState): (o: Outcome)
    ensures o.state == s && o.cost == UnknownReturnCode
  {
    Outcome(s, UnknownReturnCode)
  }

  /** The state is untouched and the cost is 0. */
  function UnusedEffect(s: CpuState): (o: Outcome)
    ensures o.state == s && o.cost == 0
  {
    Outcome(s, 0)
  }

  method Unknown(cpu: Cpu) returns (cost: nat)
    requires cpu.Valid()
    ensures Outcome(cpu.State(), cost) == UnknownEffect(cpu.State())
  {
    cost := UnknownReturnCode;
  }

  method Unused(cpu: Cpu) returns (cost: nat)
    requires cpu.Valid()
    ensures Outcome(cpu.State(), cost) == UnusedEffect(cpu.State())
  {
    cost := 0;
  }
}

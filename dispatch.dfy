/** Opcode dispatch: an opcode-table entry names its handler, the handler
    runs on the CPU and answers a cycle count, and one CPU step fetches the
    opcode at `pc`, moves `pc` past it, runs the handler and either counts
    its cycles or, for the unknown-opcode sentinel, skips one more byte.
    Both `prefix_cb` handlers run an entry of the CB table.  The contents of
    the two opcode tables are parameters. */
module Dispatch {
  import opened Bits
  import opened Registers
  import opened Cpu
  import Errors
  import Control
  import Math
  import Bit
  import Loads
  import Jumps
  import LegacyOps

  datatype ErrorOp = UnknownOp | UnusedOp
  datatype ControlOp = NopOp | StopOp | HaltOp | DiOp | EiOp
  datatype LegacyOp = LegacyNop | LegacyStop | LegacyHalt | LegacyDi | LegacyEi | LegacyReti
  datatype MathOp = IncROp(r: Reg8) | DecROp(r: Reg8) | IncHlOp | DecHlOp
  datatype LoadOp =
    | LdPairD16Op(wide: Loads.WidePair)
    | LdSpD16Op
    | LdA16SpOp
    | LdHlSpPlusR8Op
    | LdSpHlOp
    | PopOp(pair: Pair)
    | PushOp(pair: Pair)
    | LdPairAOp(ptr: Loads.AddressPair)
    | LdHlIncAOp
    | LdHlDecAOp
    | LdAPairOp(ptr: Loads.AddressPair)
    | LdAHlIncOp
    | LdAHlDecOp
    | LdRD8Op(reg: Loads.ImmReg)
  datatype JumpOp =
    | JrR8Op
    | JrCcOp(cond: Jumps.Condition)
    | RetOp
    | RetiOp
    | RetCcOp(cond: Jumps.Condition)
    | CallA16Op
    | CallCcOp(cond: Jumps.Condition)
    | JpA16Op
    | JpHlOp
    | JpCcOp(cond: Jumps.Condition)
    | RstOp(vector: Jumps.RstVector)

  /** The function an opcode-table entry points to. */
  datatype Handler =
    | ErrorHandler(e: ErrorOp)
    | ControlHandler(c: ControlOp)
    | LegacyHandler(l: LegacyOp)
    | MathHandler(m: MathOp)
    | SwapAHandler
    | LoadHandler(ld: LoadOp)
    | JumpHandler(j: JumpOp)
    | PrefixCb
    | LegacyPrefixCb
  {
    /** Handlers that do not run a further table entry. */
    predicate Simple() { !PrefixCb? && !LegacyPrefixCb? }
  }

  /** An opcode-table entry; its printable name is left out. */
  datatype OpCode = OpCode(code: Byte, size: Word, handler: Handler)

  /** A table has one entry per opcode byte. */
  predicate IsTable(t: seq<OpCode>) { |t| == 256 }

  /** The CB table: one entry per byte, none of them a prefix again. */
  predicate IsCbTable(cb: seq<OpCode>)
  {
    IsTable(cb) && forall i :: 0 <= i < |cb| ==> cb[i].handler.Simple()
  }

  /** The entry for the byte at `pc`. */
  function Fetch(s: CpuState, t: seq<OpCode>): OpCode
    requires s.Valid() && IsTable(t)
  {
    t[s.ReadProgByte(0) as int]
  }

  /** `pc` moved past an entry of `size` bytes, wrapping. */
  function Advance(s: CpuState, size: Word): (t: CpuState)
    ensures s.Valid() ==> t.Valid()
    ensures t.regs == s.regs.(pc := Past(s.regs.pc, size))
    ensures t == s.(regs := t.regs)
  {
    s.(regs := s.regs.(pc := Past(s.regs.pc, size)))
  }

  /** The address `size` bytes past `pc`, wrapping at 0x10000. */
  function Past(pc: Word, size: Word): Word
  {
    pc + size
  }

  function RunError(op: ErrorOp, s: CpuState): (o: Outcome)
    ensures o.state == s
    ensures o.cost == Errors.UnknownReturnCode <==> op == UnknownOp
    ensures op == UnusedOp ==> o.cost == 0
  {
    match op
    case UnknownOp => Errors.UnknownEffect(s)
    case UnusedOp => Errors.UnusedEffect(s)
  }

  function RunControl(op: ControlOp, s: CpuState): (o: Outcome)
    ensures o.cost == 4
    ensures o.state.regs == s.regs && o.state.bus == s.bus && o.state.cycles == s.cycles
  {
    match op
    case NopOp => Control.NopEffect(s)
    case StopOp => Control.StopEffect(s)
    case HaltOp => Control.HaltEffect(s)
    case DiOp => Control.DiEffect(s)
    case EiOp => Control.EiEffect(s)
  }

  predicate LegacyReady(op: LegacyOp, s: CpuState)
  {
    op == LegacyReti ==> s.regs.sp != 0xffff
  }

  function RunLegacy(op: LegacyOp, s: CpuState): (o: Outcome)
    requires s.Valid() && LegacyReady(op, s)
    ensures o.state.Valid() && o.state.cycles == s.cycles
    ensures op != LegacyReti ==> o == Outcome(s, 4)
    ensures op == LegacyReti ==> o.cost == 20 && o.state.interrupts == s.interrupts
  {
    match op
    case LegacyReti => Jumps.RetEffect(s)
    case _ => Control.NopEffect(s)
  }

  function RunMath(op: MathOp, s: CpuState): (o: Outcome)
    requires s.Valid()
    ensures o.state.Valid() && o.state.cycles == s.cycles
    ensures o.cost == if op.IncHlOp? || op.DecHlOp? then 12 else 4
  {
    match op
    case IncROp(r) => Math.IncREffect(s, r)
    case DecROp(r) => Math.DecREffect(s, r)
    case IncHlOp => Math.IncHlEffect(s)
    case DecHlOp => Math.DecHlEffect(s)
  }

  /** What the load handlers need to avoid a `u16` overflow panic. */
  predicate LoadReady(op: LoadOp, s: CpuState)
    requires s.Valid()
  {
    match op
    case LdPairD16Op(_) => s.regs.pc - 2 != 0xffff
    case LdSpD16Op => s.regs.pc - 2 != 0xffff
    case LdA16SpOp => s.regs.pc - 2 != 0xffff && s.ReadProgWord(2) < 0xffff
    case PopOp(_) => s.regs.sp != 0xffff
    case PushOp(_) => s.regs.sp != 1
    case _ => true
  }

  function RunLoad(op: LoadOp, s: CpuState): (o: Outcome)
    requires s.Valid() && LoadReady(op, s)
    ensures o.state.Valid() && o.state.cycles == s.cycles
    ensures 8 <= o.cost <= 20
  {
    match op
    case LdPairD16Op(p) => Loads.LdPairD16Effect(s, p)
    case LdSpD16Op => Loads.LdSpD16Effect(s)
    case LdA16SpOp => Loads.LdA16SpEffect(s)
    case LdHlSpPlusR8Op => Loads.LdHlSpPlusR8Effect(s)
    case LdSpHlOp => Loads.LdSpHlEffect(s)
    case PopOp(p) => Loads.PopPairEffect(s, p)
    case PushOp(p) => Loads.PushPairEffect(s, p)
    case LdPairAOp(p) => Loads.LdPairAEffect(s, p)
    case LdHlIncAOp => Loads.LdHlIncAEffect(s)
    case LdHlDecAOp => Loads.LdHlDecAEffect(s)
    case LdAPairOp(p) => Loads.LdAPairEffect(s, p)
    case LdAHlIncOp => Loads.LdAHlIncEffect(s)
    case LdAHlDecOp => Loads.LdAHlDecEffect(s)
    case LdRD8Op(r) => Loads.LdRD8Effect(s, r)
  }

  /** What the jump handlers need to avoid a `u16` overflow panic; a
      conditional handler needs it only when it branches. */
  predicate JumpReady(op: JumpOp, s: CpuState)
    requires s.Valid()
  {
    match op
    case RetOp => s.regs.sp != 0xffff
    case RetiOp => s.regs.sp != 0xffff
    case RetCcOp(c) => c.Holds(s.regs) ==> s.regs.sp != 0xffff
    case CallA16Op => s.regs.sp != 1 && s.regs.pc - 2 != 0xffff
    case CallCcOp(c) => c.Holds(s.regs) ==> s.regs.sp != 1 && s.regs.pc - 2 != 0xffff
    case JpA16Op => s.regs.pc - 2 != 0xffff
    case JpHlOp => s.regs.pc - s.regs.Hl() != 0xffff
    case JpCcOp(c) => c.Holds(s.regs) ==> s.regs.pc - 2 != 0xffff
    case RstOp(_) => s.regs.sp != 1
    case _ => true
  }

  function RunJump(op: JumpOp, s: CpuState): (o: Outcome)
    requires s.Valid() && JumpReady(op, s)
    ensures o.state.Valid() && o.state.cycles == s.cycles
    ensures 4 <= o.cost <= 32
  {
    match op
    case JrR8Op => Jumps.JrR8Effect(s)
    case JrCcOp(c) => Jumps.JrCcEffect(s, c)
    case RetOp => Jumps.RetEffect(s)
    case RetiOp => Jumps.RetiEffect(s)
    case RetCcOp(c) => Jumps.RetCcEffect(s, c)
    case CallA16Op => Jumps.CallA16Effect(s)
    case CallCcOp(c) => Jumps.CallCcEffect(s, c)
    case JpA16Op => Jumps.JpA16Effect(s)
    case JpHlOp => Jumps.JpHlEffect(s)
    case JpCcOp(c) => Jumps.JpCcEffect(s, c)
    case RstOp(v) => Jumps.RstEffect(s, v)
  }

  /** A handler that does not run a further entry can run in `s`. */
  predicate SimpleReady(h: Handler, s: CpuState)
    requires s.Valid()
  {
    match h
    case LegacyHandler(op) => LegacyReady(op, s)
    case LoadHandler(op) => LoadReady(op, s)
    case JumpHandler(op) => JumpReady(op, s)
    case PrefixCb => false
    case LegacyPrefixCb => false
    case _ => true
  }

  /** `op.exec(cpu)` for a handler that does not run a further entry. */
  function RunSimple(h: Handler, s: CpuState): (o: Outcome)
    requires s.Valid() && SimpleReady(h, s)
    ensures o.state.Valid() && o.state.cycles == s.cycles
    ensures o.cost == Errors.UnknownReturnCode <==> h == ErrorHandler(UnknownOp)
    ensures h != ErrorHandler(UnknownOp) ==> o.cost <= 32
  {
    match h
    case ErrorHandler(op) => RunError(op, s)
    case ControlHandler(op) => RunControl(op, s)
    case LegacyHandler(op) => RunLegacy(op, s)
    case MathHandler(op) => RunMath(op, s)
    case SwapAHandler => Bit.SwapAEffect(s)
    case LoadHandler(op) => RunLoad(op, s)
    case JumpHandler(op) => RunJump(op, s)
  }

  /** The newer `prefix_cb`: the CB entry for the byte at `pc` runs with
      `pc` where it is, and the answer is 4 cycles whatever it returned. */
  function PrefixCbEffect(s: CpuState, cb: seq<OpCode>): (o: Outcome)
    requires s.Valid() && IsCbTable(cb) && SimpleReady(Fetch(s, cb).handler, s)
    ensures o.state.Valid() && o.cost == 4
    ensures o.state == RunSimple(Fetch(s, cb).handler, s).state
  {
    Outcome(RunSimple(Fetch(s, cb).handler, s).state, 4)
  }

  /** The older `prefix_cb`: `pc` first moves past the CB entry for the
      byte at `pc`; the entry runs; an unknown entry costs 4 and skips one
      more byte, any other costs 4 more than the entry answered. */
  function LegacyPrefixCbEffect(s: CpuState, cb: seq<OpCode>): (o: Outcome)
    requires s.Valid() && IsCbTable(cb)
    requires SimpleReady(Fetch(s, cb).handler, Advance(s, Fetch(s, cb).size))
    ensures o.state.Valid() && o.state.cycles == s.cycles && 4 <= o.cost <= 36
  {
    PrefixRetire(RunSimple(Fetch(s, cb).handler, Advance(s, Fetch(s, cb).size)))
  }

  /** What the older `prefix_cb` answers once its entry has answered `r`. */
  function PrefixRetire(r: Outcome): (o: Outcome)
    ensures o.state.Valid() == r.state.Valid() && o.state.cycles == r.state.cycles
    ensures r.cost == Errors.UnknownReturnCode ==> o == Outcome(Advance(r.state, 1), 4)
    ensures r.cost != Errors.UnknownReturnCode ==> o == Outcome(r.state, 4 + r.cost)
  {
    if r.cost == Errors.UnknownReturnCode then Outcome(Advance(r.state, 1), 4)
    else Outcome(r.state, 4 + r.cost)
  }

  /** A handler, prefix handlers included, can run in `s`. */
  predicate Ready(h: Handler, s: CpuState, cb: seq<OpCode>)
    requires s.Valid() && IsCbTable(cb)
  {
    if h.PrefixCb? then SimpleReady(Fetch(s, cb).handler, s)
    else if h.LegacyPrefixCb? then SimpleReady(Fetch(s, cb).handler, Advance(s, Fetch(s, cb).size))
    else SimpleReady(h, s)
  }

  /** `op.exec(cpu)`: what a handler does and the cycles it answers. */
  function Run(h: Handler, s: CpuState, cb: seq<OpCode>): (o: Outcome)
    requires s.Valid() && IsCbTable(cb) && Ready(h, s, cb)
    ensures o.state.Valid()
    ensures o.state.cycles == s.cycles
    ensures o.cost == Errors.UnknownReturnCode <==> h == ErrorHandler(UnknownOp)
    ensures h != ErrorHandler(UnknownOp) ==> o.cost <= 36
  {
    if h.PrefixCb? then PrefixCbEffect(s, cb)
    else if h.LegacyPrefixCb? then LegacyPrefixCbEffect(s, cb)
    else RunSimple(h, s)
  }

  /** The opcode at `pc` can be fetched and its handler run. */
  predicate StepReady(s: CpuState, t: seq<OpCode>, cb: seq<OpCode>)
    requires s.Valid() && IsTable(t) && IsCbTable(cb)
  {
    Ready(Fetch(s, t).handler, Advance(s, Fetch(s, t).size), cb)
  }

  /** `CPU::step`: fetch, move `pc` past the entry, run it; the sentinel
      skips one more byte and counts nothing, any other answer is added to
      the cycle counter. */
  function StepState(s: CpuState, t: seq<OpCode>, cb: seq<OpCode>): (n: CpuState)
    requires s.Valid() && IsTable(t) && IsCbTable(cb) && StepReady(s, t, cb)
    ensures n.Valid()
  {
    Retire(Run(Fetch(s, t).handler, Advance(s, Fetch(s, t).size), cb))
  }

  /** Where `CPU::step` leaves the CPU once the handler has answered `o`. */
  function Retire(o: Outcome): (n: CpuState)
    ensures n.Valid() == o.state.Valid()
    ensures o.cost == Errors.UnknownReturnCode ==> n == Advance(o.state, 1)
    ensures o.cost != Errors.UnknownReturnCode ==> n == o.state.(cycles := o.state.cycles + o.cost)
  {
    if o.cost == Errors.UnknownReturnCode then Advance(o.state, 1)
    else o.state.(cycles := o.state.cycles + o.cost)
  }

  /** The unknown handler changes nothing and answers the sentinel. */
  lemma RunUnknown(s: CpuState, cb: seq<OpCode>)
    requires s.Valid() && IsCbTable(cb)
    ensures Run(ErrorHandler(UnknownOp), s, cb) == Outcome(s, Errors.UnknownReturnCode)
    ensures RunSimple(ErrorHandler(UnknownOp), s) == Outcome(s, Errors.UnknownReturnCode)
  {
  }

  /** An unknown opcode skips its entry and one more byte and changes
      nothing else, the cycle counter included. */
  lemma StepUnknown(s: CpuState, t: seq<OpCode>, cb: seq<OpCode>)
    requires s.Valid() && IsTable(t) && IsCbTable(cb)
    requires Fetch(s, t).handler == ErrorHandler(UnknownOp)
    ensures StepReady(s, t, cb)
    ensures StepState(s, t, cb) == Advance(Advance(s, Fetch(s, t).size), 1)
  {
    RunUnknown(Advance(s, Fetch(s, t).size), cb);
  }

  /** Any other opcode adds what its handler answered, at most 36, to the
      cycle counter. */
  lemma StepCounts(s: CpuState, t: seq<OpCode>, cb: seq<OpCode>)
    requires s.Valid() && IsTable(t) && IsCbTable(cb) && StepReady(s, t, cb)
    requires Fetch(s, t).handler != ErrorHandler(UnknownOp)
    ensures StepState(s, t, cb).cycles
         == s.cycles + Run(Fetch(s, t).handler, Advance(s, Fetch(s, t).size), cb).cost
    ensures s.cycles <= StepState(s, t, cb).cycles <= s.cycles + 36
  {
  }

  /** The older `prefix_cb` on an unknown CB entry skips the prefix's
      entry and one more byte, and costs 4. */
  lemma LegacyPrefixCbUnknown(s: CpuState, cb: seq<OpCode>)
    requires s.Valid() && IsCbTable(cb)
    requires Fetch(s, cb).handler == ErrorHandler(UnknownOp)
    ensures LegacyPrefixCbEffect(s, cb) == Outcome(Advance(Advance(s, Fetch(s, cb).size), 1), 4)
  {
    RunUnknown(Advance(s, Fetch(s, cb).size), cb);
  }

  /** The newer `prefix_cb` answers 4 even for an unknown CB entry, so the
      step counts it and does not skip. */
  lemma PrefixCbNeverSentinel(s: CpuState, cb: seq<OpCode>)
    requires s.Valid() && IsCbTable(cb) && SimpleReady(Fetch(s, cb).handler, s)
    ensures Run(PrefixCb, s, cb).cost == 4
  {
  }

  method ExecError(cpu: Cpu, op: ErrorOp) returns (cost: nat)
    requires cpu.Valid()
    ensures Outcome(cpu.State(), cost) == RunError(op, cpu.State())
  {
    match op
    case UnknownOp => cost := Errors.Unknown(cpu);
    case UnusedOp => cost := Errors.Unused(cpu);
  }

  method ExecControl(cpu: Cpu, op: ControlOp) returns (cost: nat)
    requires cpu.Valid()
    modifies cpu
    ensures cpu.Valid()
    ensures Outcome(cpu.State(), cost) == RunControl(op, old(cpu.State()))
  {
    match op
    case NopOp => cost := Control.Nop(cpu);
    case StopOp => cost := Control.Stop(cpu);
    case HaltOp => cost := Control.Halt(cpu);
    case DiOp => cost := Control.Di(cpu);
    case EiOp => cost := Control.Ei(cpu);
  }

  method ExecLegacy(cpu: Cpu, op: LegacyOp) returns (cost: nat)
    requires cpu.Valid() && LegacyReady(op, cpu.State())
    modifies cpu.reg
    ensures cpu.Valid()
    ensures Outcome(cpu.State(), cost) == RunLegacy(op, old(cpu.State()))
  {
    match op
    case LegacyNop => cost := LegacyOps.Nop(cpu);
    case LegacyStop => cost := LegacyOps.Stop(cpu);
    case LegacyHalt => cost := LegacyOps.Halt(cpu);
    case LegacyDi => cost := LegacyOps.Di(cpu);
    case LegacyEi => cost := LegacyOps.Ei(cpu);
    case LegacyReti => cost := LegacyOps.Reti(cpu);
  }

  method ExecMath(cpu: Cpu, op: MathOp) returns (cost: nat)
    requires cpu.Valid()
    modifies cpu.Repr()
    ensures cpu.Valid()
    ensures Outcome(cpu.State(), cost) == RunMath(op, old(cpu.State()))
  {
    match op
    case IncROp(r) => cost := Math.IncR(cpu, r);
    case DecROp(r) => cost := Math.DecR(cpu, r);
    case IncHlOp => cost := Math.IncHl(cpu);
    case DecHlOp => cost := Math.DecHl(cpu);
  }

  method ExecLoad(cpu: Cpu, op: LoadOp) returns (cost: nat)
    requires cpu.Valid() && LoadReady(op, cpu.State())
    modifies cpu.Repr()
    ensures cpu.Valid()
    ensures Outcome(cpu.State(), cost) == RunLoad(op, old(cpu.State()))
  {
    match op
    case LdPairD16Op(p) => cost := Loads.LdPairD16(cpu, p);
    case LdSpD16Op => cost := Loads.LdSpD16(cpu);
    case LdA16SpOp => cost := Loads.LdA16Sp(cpu);
    case LdHlSpPlusR8Op => cost := Loads.LdHlSpPlusR8(cpu);
    case LdSpHlOp => cost := Loads.LdSpHl(cpu);
    case PopOp(p) => cost := Loads.PopPair(cpu, p);
    case PushOp(p) => cost := Loads.PushPair(cpu, p);
    case LdPairAOp(p) => cost := Loads.LdPairA(cpu, p);
    case LdHlIncAOp => cost := Loads.LdHlIncA(cpu);
    case LdHlDecAOp => cost := Loads.LdHlDecA(cpu);
    case LdAPairOp(p) => cost := Loads.LdAPair(cpu, p);
    case LdAHlIncOp => cost := Loads.LdAHlInc(cpu);
    case LdAHlDecOp => cost := Loads.LdAHlDec(cpu);
    case LdRD8Op(r) => cost := Loads.LdRD8(cpu, r);
  }

  method ExecJump(cpu: Cpu, op: JumpOp) returns (cost: nat)
    requires cpu.Valid() && JumpReady(op, cpu.State())
    modifies cpu.Repr()
    ensures cpu.Valid()
    ensures Outcome(cpu.State(), cost) == RunJump(op, old(cpu.State()))
  {
    match op
    case JrR8Op => cost := Jumps.JrR8(cpu);
    case JrCcOp(c) => cost := Jumps.JrCc(cpu, c);
    case RetOp => cost := Jumps.Ret(cpu);
    case RetiOp => cost := Jumps.Reti(cpu);
    case RetCcOp(c) => cost := Jumps.RetCc(cpu, c);
    case CallA16Op => cost := Jumps.CallA16(cpu);
    case CallCcOp(c) => cost := Jumps.CallCc(cpu, c);
    case JpA16Op => cost := Jumps.JpA16(cpu);
    case JpHlOp => cost := Jumps.JpHl(cpu);
    case JpCcOp(c) => cost := Jumps.JpCc(cpu, c);
    case RstOp(v) => cost := Jumps.Rst(cpu, v);
  }

  method ExecSimple(cpu: Cpu, h: Handler) returns (cost: nat)
    requires cpu.Valid() && SimpleReady(h, cpu.State())
    modifies cpu.Repr()
    ensures cpu.Valid()
    ensures Outcome(cpu.State(), cost) == RunSimple(h, old(cpu.State()))
  {
    match h
    case ErrorHandler(op) => cost := ExecError(cpu, op);
    case ControlHandler(op) => cost := ExecControl(cpu, op);
    case LegacyHandler(op) => cost := ExecLegacy(cpu, op);
    case MathHandler(op) => cost := ExecMath(cpu, op);
    case SwapAHandler => cost := Bit.SwapA(cpu);
    case LoadHandler(op) => cost := ExecLoad(cpu, op);
    case JumpHandler(op) => cost := ExecJump(cpu, op);
  }

  /** The newer `prefix_cb`. */
  method PrefixCbOp(cpu: Cpu, cb: seq<OpCode>) returns (cost: nat)
    requires cpu.Valid() && IsCbTable(cb) && SimpleReady(Fetch(cpu.State(), cb).handler, cpu.State())
    modifies cpu.Repr()
    ensures cpu.Valid()
    ensures Outcome(cpu.State(), cost) == PrefixCbEffect(old(cpu.State()), cb)
  {
    var _ := ExecSimple(cpu, cb[cpu.ReadProgByte(0) as int].handler);
    cost := 4;
  }

  /** The older `prefix_cb`. */
  method LegacyPrefixCbOp(cpu: Cpu, cb: seq<OpCode>) returns (cost: nat)
    requires cpu.Valid() && IsCbTable(cb)
    requires SimpleReady(Fetch(cpu.State(), cb).handler, Advance(cpu.State(), Fetch(cpu.State(), cb).size))
    modifies cpu.Repr()
    ensures cpu.Valid()
    ensures Outcome(cpu.State(), cost) == LegacyPrefixCbEffect(old(cpu.State()), cb)
  {
    var op := FetchEntry(cpu, cb);
    var cycles := ExecSimple(cpu, op.handler);
    cost := PrefixFinish(cpu, cycles);
  }

  /** Reads the entry for the byte at `pc` and moves `pc` past it. */
  method FetchEntry(cpu: Cpu, t: seq<OpCode>) returns (op: OpCode)
    requires cpu.Valid() && IsTable(t)
    modifies cpu.reg
    ensures cpu.Valid()
    ensures op == Fetch(old(cpu.State()), t)
    ensures cpu.State() == Advance(old(cpu.State()), op.size)
  {
    op := t[cpu.ReadProgByte(0) as int];
    Skip(cpu, op.size);
  }

  /** Moves `pc` past an entry of `size` bytes. */
  method Skip(cpu: Cpu, size: Word)
    requires cpu.Valid()
    modifies cpu.reg
    ensures cpu.Valid()
    ensures cpu.State() == Advance(old(cpu.State()), size)
  {
    cpu.PutPc(Past(cpu.reg.pc, size));
  }

  /** The tail of the older `prefix_cb`. */
  method PrefixFinish(cpu: Cpu, cycles: nat) returns (cost: nat)
    requires cpu.Valid()
    modifies cpu.reg
    ensures cpu.Valid()
    ensures Outcome(cpu.State(), cost) == PrefixRetire(Outcome(old(cpu.State()), cycles))
  {
    if cycles == Errors.UnknownReturnCode {
      cpu.PutPc(Past(cpu.reg.pc, 1));
      cost := 4;
    } else {
      cost := 4 + cycles;
    }
  }

  method Exec(cpu: Cpu, h: Handler, cb: seq<OpCode>) returns (cost: nat)
    requires cpu.Valid() && IsCbTable(cb) && Ready(h, cpu.State(), cb)
    modifies cpu.Repr()
    ensures cpu.Valid()
    ensures Outcome(cpu.State(), cost) == Run(h, old(cpu.State()), cb)
  {
    match h
    case PrefixCb => cost := PrefixCbOp(cpu, cb);
    case LegacyPrefixCb => cost := LegacyPrefixCbOp(cpu, cb);
    case _ => cost := ExecSimple(cpu, h);
  }

  /** `CPU::step` on the CPU object. */
  method Step(cpu: Cpu, t: seq<OpCode>, cb: seq<OpCode>)
    requires cpu.Valid() && IsTable(t) && IsCbTable(cb) && StepReady(cpu.State(), t, cb)
    modifies cpu.Repr()
    ensures cpu.Valid()
    ensures cpu.State() == StepState(old(cpu.State()), t, cb)
  {
    var op := FetchEntry(cpu, t);
    var cycles := Exec(cpu, op.handler, cb);
    StepFinish(cpu, cycles);
  }

  /** The tail of `CPU::step`. */
  method StepFinish(cpu: Cpu, cycles: nat)
    requires cpu.Valid()
    modifies cpu, cpu.reg
    ensures cpu.Valid()
    ensures cpu.State() == Retire(Outcome(old(cpu.State()), cycles))
  {
    if cycles == Errors.UnknownReturnCode {
      cpu.PutPc(Past(cpu.reg.pc, 1));
    } else {
      cpu.cycles := cpu.cycles + cycles;
    }
  }
}

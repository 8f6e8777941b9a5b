/** The CPU: the register file, the memory bus, the cycle counter and the
    interrupt, halt and stop latches the control handlers use; stack pushes
    and pops through the bus; reads of immediate operands behind `pc`. */
module Cpu {
  import opened Bits
  import opened Registers
  import opened Cartridge
  import opened Gpu
  import opened WorkRam
  import opened IoRegisters
  import opened MemoryBus

  datatype CpuState = CpuState(
    regs: RegisterFile,
    bus: BusState,
    cycles: nat,
    interrupts: bool,
    halted: bool,
    stopped: bool)
  {
    predicate Valid() { bus.Valid() }

    /** The byte `delta` bytes behind `pc`, the subtraction wrapping. */
    function ReadProgByte(delta: Word): (v: Byte)
      requires Valid()
      ensures v == bus.ReadByte(regs.pc - delta)
    {
      bus.ReadByte(regs.pc - delta)
    }

    /** The little-endian word `delta` bytes behind `pc`. */
    function ReadProgWord(delta: Word): (v: Word)
      requires Valid() && regs.pc - delta != 0xffff
      ensures Hi(v) == bus.ReadByte(regs.pc - delta + 1)
      ensures Lo(v) == bus.ReadByte(regs.pc - delta)
    {
      bus.ReadWord(regs.pc - delta)
    }

    /** `sp` moves down one byte, then `v` is written at the new `sp`. */
    function PushByte(v: Byte): (s: CpuState)
      requires Valid()
      ensures s.Valid()
    {
      var sp := regs.sp - 1;
      this.(regs := regs.(sp := sp), bus := bus.WriteByte(sp, v))
    }

    /** `sp` moves down two bytes, then `v` is written little-endian at the
        new `sp`; the word write needs `sp - 2` below 0xFFFF. */
    function PushWord(v: Word): (s: CpuState)
      requires Valid() && regs.sp != 1
      ensures s.Valid()
    {
      var sp := regs.sp - 2;
      this.(regs := regs.(sp := sp), bus := bus.WriteWord(sp, v))
    }

    /** The byte a pop returns. */
    function TopByte(): (v: Byte)
      requires Valid()
      ensures v == bus.Value(bus.ReadLocation(regs.sp))
    {
      bus.ReadByte(regs.sp)
    }

    /** The word a pop returns; reading it needs `sp` below 0xFFFF. */
    function TopWord(): (w: Word)
      requires Valid() && regs.sp != 0xffff
      ensures Hi(w) == bus.ReadByte(regs.sp + 1) && Lo(w) == bus.ReadByte(regs.sp)
    {
      bus.ReadWord(regs.sp)
    }

    /** The state after a pop of `n` bytes: only `sp` moves up. */
    function Popped(n: Word): (s: CpuState)
      ensures s.regs == regs.(sp := regs.sp + n)
      ensures s.bus == bus && s.cycles == cycles && s.interrupts == interrupts
      ensures s.halted == halted && s.stopped == stopped
    {
      this.(regs := regs.(sp := regs.sp + n))
    }
  }

  /** What an opcode handler leaves behind: the new CPU state and the cycle
      count it returns. */
  datatype Outcome = Outcome(state: CpuState, cost: nat)

  /** A byte pushed where the bus stores it is the byte a pop reads next. */
  lemma PushByteThenTop(s: CpuState, v: Byte)
    requires s.Valid() && Stores(s.bus, s.regs.sp - 1)
    ensures s.PushByte(v).TopByte() == v
  {
    ByteRoundTrip(s.bus, s.regs.sp - 1, v);
  }

  /** A word pushed where the bus stores both of its bytes, in two distinct
      cells, is the word a pop reads next. */
  lemma PushWordThenTop(s: CpuState, v: Word)
    requires s.Valid() && s.regs.sp != 1
    requires Stores(s.bus, s.regs.sp - 2) && Stores(s.bus, s.regs.sp - 1)
    requires s.bus.ReadLocation(s.regs.sp - 2) != s.bus.ReadLocation(s.regs.sp - 1)
    ensures s.PushWord(v).regs.sp != 0xffff && s.PushWord(v).TopWord() == v
  {
    var q := s.regs.sp - 2;
    NextBelow(s.regs.sp);
    WordRoundTrip(s.bus, q, v);
    PushWordParts(s, v);
  }

  /** Where a word push leaves `sp` and the bus. */
  lemma PushWordParts(s: CpuState, v: Word)
    requires s.Valid() && s.regs.sp != 1
    ensures s.PushWord(v).regs.sp == s.regs.sp - 2
    ensures s.PushWord(v).bus == s.bus.WriteWord(s.regs.sp - 2, v)
  {
  }

  /** The byte after `sp - 2` is `sp - 1`. */
  lemma NextBelow(sp: Word)
    ensures sp - 2 + 1 == sp - 1
  {
  }

  /** A pop of `n` bytes undoes the move of `sp` of a push of `n` bytes. */
  lemma PopUndoesPush(s: CpuState, vb: Byte, vw: Word)
    requires s.Valid()
    ensures s.PushByte(vb).Popped(1).regs == s.regs
    ensures s.regs.sp != 1 ==> s.PushWord(vw).Popped(2).regs == s.regs
  {
  }

  /** A byte pushed into RAM or its echo pops back, and the pop restores `sp`. */
  lemma PushPopByte(s: CpuState, v: Byte)
    requires s.Valid() && 0x8001 <= s.regs.sp <= 0xfe00
    ensures s.PushByte(v).TopByte() == v
    ensures s.PushByte(v).Popped(1).regs == s.regs
  {
    RamStores(s.bus, s.regs.sp - 1);
    PushByteThenTop(s, v);
    PopUndoesPush(s, v, 0);
  }

  /** A word pushed with both stack bytes in work RAM pops back, and the pop
      restores `sp`. */
  lemma PushPopWord(s: CpuState, v: Word)
    requires s.Valid() && 0xc002 <= s.regs.sp <= 0xe000
    ensures s.PushWord(v).regs.sp != 0xffff && s.PushWord(v).TopWord() == v
    ensures s.PushWord(v).Popped(2).regs == s.regs
  {
    assert s.PushWord(v).TopWord() == s.bus.WriteWord(s.regs.sp - 2, v).ReadWord(s.regs.sp - 2);
    WramWordRoundTrip(s.bus, s.regs.sp - 2, v);
    PopUndoesPush(s, 0, v);
  }

  class Cpu {
    const bus: MemoryBus
    const reg: Registers
    var cycles: nat
    var interrupts: bool
    var halted: bool
    var stopped: bool

    /** Takes the loaded cartridge: registers at reset, no cycles counted,
        every latch clear. */
    constructor Init(cartridge: Cartridge)
      requires cartridge.State().Valid()
      ensures fresh(reg) && bus.rom == cartridge
      ensures Valid()
      ensures State() == CpuState(InitialRegisters,
                                  BusState(old(cartridge.State()), InitialVram(), InitialWorkRam(),
                                           InitialIo, seq(HighRamSize, _ => 0)),
                                  0, false, false, false)
    {
      bus := new MemoryBus.Init(cartridge);
      reg := new Registers.Init();
      cycles := 0;
      interrupts, halted, stopped := false, false, false;
    }

    function Repr(): set<object>
    {
      {this, reg} + bus.Repr()
    }

    function State(): CpuState
      reads Repr()
    {
      CpuState(reg.State(), bus.State(), cycles, interrupts, halted, stopped)
    }

    predicate Valid()
      reads Repr()
    {
      bus.Valid()
    }

    function ReadProgByte(delta: Word): Byte
      reads Repr()
      requires Valid()
    {
      bus.ReadByte(reg.pc - delta)
    }

    function ReadProgWord(delta: Word): Word
      reads Repr()
      requires Valid() && reg.pc - delta != 0xffff
    {
      bus.ReadWord(reg.pc - delta)
    }

    /** `bus.write_byte` as the handlers call it. */
    method WriteByte(idx: Word, val: Byte)
      requires Valid()
      modifies Repr()
      ensures Valid()
      ensures State() == old(State()).(bus := old(State()).bus.WriteByte(idx, val))
    {
      ghost var r := reg.State();
      bus.WriteByte(idx, val);
      assert reg.State() == r;
    }

    /** `bus.write_word` as the handlers call it. */
    method WriteWord(idx: Word, val: Word)
      requires Valid() && idx < 0xffff
      modifies Repr()
      ensures Valid()
      ensures State() == old(State()).(bus := old(State()).bus.WriteWord(idx, val))
    {
      ghost var r := reg.State();
      bus.WriteWord(idx, val);
      assert reg.State() == r;
    }

    /** A register-file update: the bus and the latches stay as they are. */
    method Put(r: Reg8, v: Byte)
      requires Valid()
      modifies reg
      ensures Valid()
      ensures State() == old(State()).(regs := old(State()).regs.Set(r, v))
    {
      ghost var b := bus.State();
      reg.Put(r, v);
      assert bus.State() == b;
    }

    method PutPair(p: Pair, v: Word)
      requires Valid()
      modifies reg
      ensures Valid()
      ensures State() == old(State()).(regs := old(State()).regs.SetPair(p, v))
    {
      ghost var b := bus.State();
      reg.PutPair(p, v);
      assert bus.State() == b;
    }

    method PutSp(v: Word)
      requires Valid()
      modifies reg
      ensures Valid()
      ensures State() == old(State()).(regs := old(State()).regs.(sp := v))
    {
      ghost var b := bus.State();
      reg.sp := v;
      assert bus.State() == b;
    }

    method PutPc(v: Word)
      requires Valid()
      modifies reg
      ensures Valid()
      ensures State() == old(State()).(regs := old(State()).regs.(pc := v))
    {
      ghost var b := bus.State();
      reg.pc := v;
      assert bus.State() == b;
    }

    method PutFlag(bit: nat, v: bool)
      requires Valid() && bit < 8
      modifies reg
      ensures Valid()
      ensures State() == old(State()).(regs := old(State()).regs.SetFlag(bit, v))
    {
      ghost var b := bus.State();
      reg.SetFlagBit(bit, v);
      assert bus.State() == b;
    }

    method StackPushByte(val: Byte)
      requires Valid()
      modifies Repr()
      ensures Valid()
      ensures State() == old(State()).PushByte(val)
    {
      var sp := reg.sp - 1;
      PutSp(sp);
      WriteByte(sp, val);
    }

    method StackPushWord(val: Word)
      requires Valid() && reg.sp != 1
      modifies Repr()
      ensures Valid()
      ensures State() == old(State()).PushWord(val)
    {
      var sp := reg.sp - 2;
      PutSp(sp);
      WriteWord(sp, val);
    }

    method StackPopByte() returns (o: Byte)
      requires Valid()
      modifies reg
      ensures Valid()
      ensures o == old(State()).TopByte()
      ensures State() == old(State()).Popped(1)
    {
      o := bus.ReadByte(reg.sp);
      PutSp(reg.sp + 1);
    }

    method StackPopWord() returns (o: Word)
      requires Valid() && reg.sp != 0xffff
      modifies reg
      ensures Valid()
      ensures o == old(State()).TopWord()
      ensures State() == old(State()).Popped(2)
    {
      o := bus.ReadWord(reg.sp);
      PutSp(reg.sp + 2);
    }
  }
}

/** The memory bus: decodes a 16-bit address to cartridge ROM, video RAM,
    cartridge RAM, work RAM, the echo of work RAM, the I/O registers and high
    RAM, and composes two byte accesses into a little-endian word access. */
module MemoryBus {
  import opened Bits
  import opened Cartridge
  import opened Gpu
  import opened WorkRam
  import opened IoRegisters

  const HighRamSize: nat := 128

  /** The storage cell behind an address. Banks are resolved when an
      address is decoded, so two different cells never share storage. */
  datatype Cell =
    | Rom(bank: Byte, offset: Word)
    | Vram(offset: Word)
    | ExtRam(offset: Word)
    | Wram(bank: Byte, offset: Word)
    | IoPort(addr: Word)
    | HighRam(offset: Word)
    | BankSelect
    | Nowhere
  {
    /** Cells whose value a store replaces. */
    predicate Storable()
    {
      match this
      case Vram(_) => true
      case ExtRam(_) => true
      case Wram(_, _) => true
      case IoPort(a) => a == SbAddr || a == ScAddr
      case HighRam(_) => true
      case BankSelect => true
      case _ => false
    }
  }

  datatype BusState = BusState(
    rom: CartridgeState,
    gpu: VramState,
    ram: WorkRamState,
    io: IoState,
    hram: seq<Byte>)
  {
    /** Component sizes as constructed, and the bank numbers the bus relies
        on: it never changes the VRAM or work-RAM bank itself. */
    predicate Valid()
    {
      && rom.Valid()
      && gpu.Valid() && gpu.vramBank < 2
      && ram.Valid() && ram.ramBank < 8
      && |hram| == HighRamSize
    }

    /** The byte `read_byte` answers: the value of the cell the address
        reads from. */
    function ReadByte(idx: Word): (v: Byte)
      requires Valid()
      ensures v == Value(ReadLocation(idx))
      decreases if idx >= 0xe000 then 1 else 0
    {
      if idx <= 0x3fff then rom.ReadByte(idx)
      else if idx <= 0x7fff then rom.ReadBankByte(idx - 0x4000)
      else if idx <= 0x9fff then gpu.ReadVramByte(idx - 0x8000)
      else if idx <= 0xbfff then rom.ReadRamByte(idx - 0xa000)
      else if idx <= 0xcfff then ram.ReadByte(idx - 0xc000)
      else if idx <= 0xdfff then ram.ReadBankByte(idx - 0xd000)
      else if idx <= 0xfdff then ReadByte(idx - 0x2000)
      else if 0xff00 <= idx <= 0xff7f then io.ReadByte(idx)
      else if idx == 0xffff then io.ReadByte(idx)
      else 0
    }

    function WriteByte(idx: Word, val: Byte): (s: BusState)
      requires Valid()
      ensures s.Valid()
      decreases if idx >= 0xe000 then 1 else 0
    {
      if idx == 0x2000 then this.(rom := rom.SetBank(val))
      else if 0x8000 <= idx <= 0x9fff then this.(gpu := gpu.WriteVramByte(idx - 0x8000, val))
      else if 0xa000 <= idx <= 0xbfff then this.(rom := rom.WriteRamByte(idx - 0xa000, val))
      else if 0xc000 <= idx <= 0xcfff then this.(ram := ram.WriteByte(idx - 0xc000, val))
      else if 0xd000 <= idx <= 0xdfff then this.(ram := ram.WriteBankByte(idx - 0xd000, val))
      else if 0xe000 <= idx <= 0xfdff then WriteByte(idx - 0x2000, val)
      else if 0xff00 <= idx <= 0xff7f then this.(io := io.WriteByte(idx, val))
      else if 0xff80 <= idx <= 0xfffe then this.(hram := hram[(idx - 0xff80) as int := val])
      else if idx == 0xffff then this.(io := io.WriteByte(idx, val))
      else this
    }

    /** High byte from `idx + 1`, low byte from `idx`; `idx + 1` is a
        checked `u16` addition, so `idx` must be below 0xFFFF. */
    function ReadWord(idx: Word): (w: Word)
      requires Valid() && idx < 0xffff
      ensures Hi(w) == ReadByte(idx + 1) && Lo(w) == ReadByte(idx)
    {
      Join(ReadByte(idx + 1), ReadByte(idx))
    }

    /** The high byte is written to `idx + 1` first, then the low byte to `idx`. */
    function WriteWord(idx: Word, val: Word): (s: BusState)
      requires Valid() && idx < 0xffff
      ensures s.Valid()
    {
      WriteByte(idx + 1, Hi(val)).WriteByte(idx, Lo(val))
    }

    /** Offsets and bank numbers of `c` are in range for this state. */
    predicate Fits(c: Cell)
    {
      match c
      case Rom(_, o) => o < 0x4000
      case Vram(o) => o < 0x2000
      case ExtRam(o) => o < 0x2000
      case Wram(b, o) => b < 8 && o < 0x4000
      case HighRam(o) => o < 0x80
      case _ => true
    }

    /** The cell a read of `idx` is answered from (`Nowhere` for reads
        that return the constant 0). */
    function ReadLocation(idx: Word): (c: Cell)
      requires Valid()
      ensures Fits(c) && c != BankSelect
      decreases if idx >= 0xe000 then 1 else 0
    {
      if idx <= 0x3fff then Rom(0, idx)
      else if idx <= 0x7fff then Rom(rom.romBank, idx - 0x4000)
      else if idx <= 0x9fff then Vram(idx - 0x8000)
      else if idx <= 0xbfff then ExtRam(idx - 0xa000)
      else if idx <= 0xcfff then Wram(0, idx - 0xc000)
      else if idx <= 0xdfff then Wram(ram.ramBank, idx - 0xd000)
      else if idx <= 0xfdff then ReadLocation(idx - 0x2000)
      else if 0xff00 <= idx <= 0xff7f || idx == 0xffff then IoPort(idx)
      else Nowhere
    }

    /** The cell a write to `idx` stores into (`Nowhere` for ignored writes). */
    function WriteLocation(idx: Word): (c: Cell)
      requires Valid()
      ensures Fits(c)
      decreases if idx >= 0xe000 then 1 else 0
    {
      if idx == 0x2000 then BankSelect
      else if 0x8000 <= idx <= 0x9fff then Vram(idx - 0x8000)
      else if 0xa000 <= idx <= 0xbfff then ExtRam(idx - 0xa000)
      else if 0xc000 <= idx <= 0xcfff then Wram(0, idx - 0xc000)
      else if 0xd000 <= idx <= 0xdfff then Wram(ram.ramBank, idx - 0xd000)
      else if 0xe000 <= idx <= 0xfdff then WriteLocation(idx - 0x2000)
      else if 0xff00 <= idx <= 0xff7f || idx == 0xffff then IoPort(idx)
      else if 0xff80 <= idx <= 0xfffe then HighRam(idx - 0xff80)
      else Nowhere
    }

    /** What cell `c` currently holds. */
    function Value(c: Cell): Byte
      requires Valid() && Fits(c)
    {
      match c
      case Rom(b, o) => rom.romBanks[b as int][o as int]
      case Vram(o) => gpu.ReadVramByte(o)
      case ExtRam(o) => rom.ReadRamByte(o)
      case Wram(b, o) => ram.ramBanks[b as int][o as int]
      case IoPort(a) => io.ReadByte(a)
      case HighRam(o) => hram[o as int]
      case BankSelect => rom.romBank
      case Nowhere => 0
    }

    /** The state with `val` stored into cell `c`. */
    function Store(c: Cell, val: Byte): (s: BusState)
      requires Valid() && Fits(c)
      ensures s.Valid()
      ensures !c.Wram? ==> s.ram == ram
      ensures !c.Vram? ==> s.gpu == gpu
    {
      match c
      case Rom(_, _) => this
      case Vram(o) => this.(gpu := gpu.WriteVramByte(o, val))
      case ExtRam(o) => this.(rom := rom.WriteRamByte(o, val))
      case Wram(b, o) => this.(ram := ram.Store(b as int, o, val))
      case IoPort(a) => this.(io := io.WriteByte(a, val))
      case HighRam(o) => this.(hram := hram[o as int := val])
      case BankSelect => this.(rom := rom.SetBank(val))
      case Nowhere => this
    }
  }

  /** Every write is a store into its write location. */
  lemma {:induction false} WriteIsStore(s: BusState, idx: Word, val: Byte)
    requires s.Valid()
    ensures s.WriteByte(idx, val) == s.Store(s.WriteLocation(idx), val)
    decreases if idx >= 0xe000 then 1 else 0
  {
    if 0xe000 <= idx <= 0xfdff {
      WriteIsStore(s, idx - 0x2000, val);
    }
  }

  /** A store changes the value of its own cell, when that cell is storable,
      and of no other cell. */
  lemma StoreThenValue(s: BusState, c: Cell, val: Byte, d: Cell)
    requires s.Valid() && s.Fits(c) && s.Fits(d)
    ensures s.Store(c, val).Value(d) == if d == c && c.Storable() then val else s.Value(d)
  {
    match d
    case Vram(o) => StoreThenVram(s, c, val, o);
    case ExtRam(o) => StoreThenExtRam(s, c, val, o);
    case Wram(b, o) => StoreThenWram(s, c, val, b, o);
    case HighRam(o) => StoreThenHighRam(s, c, val, o);
    case IoPort(a) => StoreThenIoPort(s, c, val, a);
    case _ =>
  }

  lemma StoreThenVram(s: BusState, c: Cell, val: Byte, o: Word)
    requires s.Valid() && s.Fits(c) && o < 0x2000
    ensures s.Store(c, val).Value(Vram(o)) == if c == Vram(o) then val else s.Value(Vram(o))
  {
    if c.Vram? && c.offset != o {
      WordIndexInjective(c.offset, o);
    }
  }

  lemma StoreThenExtRam(s: BusState, c: Cell, val: Byte, o: Word)
    requires s.Valid() && s.Fits(c) && o < 0x2000
    ensures s.Store(c, val).Value(ExtRam(o)) == if c == ExtRam(o) then val else s.Value(ExtRam(o))
  {
    if c.ExtRam? && c.offset != o {
      WordIndexInjective(c.offset, o);
    }
  }

  lemma StoreThenWram(s: BusState, c: Cell, val: Byte, b: Byte, o: Word)
    requires s.Valid() && s.Fits(c) && b < 8 && o < 0x4000
    ensures s.Store(c, val).Value(Wram(b, o)) == if c == Wram(b, o) then val else s.Value(Wram(b, o))
  {
    if c.Wram? {
      if c.bank != b {
        ByteIndexInjective(c.bank, b);
      } else if c.offset != o {
        WordIndexInjective(c.offset, o);
      }
    }
  }

  lemma StoreThenHighRam(s: BusState, c: Cell, val: Byte, o: Word)
    requires s.Valid() && s.Fits(c) && o < 0x80
    ensures s.Store(c, val).Value(HighRam(o)) == if c == HighRam(o) then val else s.Value(HighRam(o))
  {
    if c.HighRam? && c.offset != o {
      WordIndexInjective(c.offset, o);
    }
  }

  lemma StoreThenIoPort(s: BusState, c: Cell, val: Byte, a: Word)
    requires s.Valid() && s.Fits(c)
    ensures s.Store(c, val).Value(IoPort(a)) == if c == IoPort(a) && c.Storable() then val else s.Value(IoPort(a))
  {
  }

  /** Only a bank switch moves where reads are answered from. */
  lemma {:induction false} StoreKeepsReadLocation(s: BusState, c: Cell, val: Byte, idx: Word)
    requires s.Valid() && s.Fits(c) && c != BankSelect
    ensures s.Store(c, val).ReadLocation(idx) == s.ReadLocation(idx)
    decreases if idx >= 0xe000 then 1 else 0
  {
    if 0xe000 <= idx <= 0xfdff {
      StoreKeepsReadLocation(s, c, val, idx - 0x2000);
    }
  }

  /** Read after write, for every pair of addresses: the read sees the
      written byte exactly when it is answered from the cell the write
      stored into; otherwise it sees what that cell held before. */
  lemma ReadAfterWrite(s: BusState, a: Word, val: Byte, b: Word)
    requires s.Valid()
    ensures var t := s.WriteByte(a, val);
      t.ReadByte(b) ==
        if t.ReadLocation(b) == s.WriteLocation(a) && s.WriteLocation(a).Storable() then val
        else s.Value(t.ReadLocation(b))
  {
    var c := s.WriteLocation(a);
    var t := s.WriteByte(a, val);
    WriteIsStore(s, a, val);
    StoreThenValue(s, c, val, t.ReadLocation(b));
  }

  /** An address whose reads are answered from the cell its writes store into. */
  predicate Stores(s: BusState, idx: Word)
    requires s.Valid()
  {
    s.ReadLocation(idx) == s.WriteLocation(idx) && s.ReadLocation(idx).Storable()
  }

  /** Reading back a byte just written to an address that stores. */
  lemma ByteRoundTrip(s: BusState, idx: Word, val: Byte)
    requires s.Valid() && Stores(s, idx)
    ensures s.WriteByte(idx, val).ReadByte(idx) == val
  {
    ReadAfterWrite(s, idx, val, idx);
    StoreKeepsReadLocation(s, s.WriteLocation(idx), val, idx);
    WriteIsStore(s, idx, val);
  }

  /** A byte written to RAM or its echo reads back. */
  lemma RamByteRoundTrip(s: BusState, idx: Word, val: Byte)
    requires s.Valid() && 0x8000 <= idx <= 0xfdff
    ensures s.WriteByte(idx, val).ReadByte(idx) == val
  {
    RamStores(s, idx);
    ByteRoundTrip(s, idx, val);
  }

  /** Video RAM, cartridge RAM, both work-RAM windows and their echo store. */
  lemma RamStores(s: BusState, idx: Word)
    requires s.Valid() && 0x8000 <= idx <= 0xfdff
    ensures Stores(s, idx)
  {
  }

  /** The echo region 0xE000-0xFDFF reads and writes 0x2000 lower. */
  lemma EchoAliases(s: BusState, idx: Word, val: Byte)
    requires s.Valid() && 0xe000 <= idx <= 0xfdff
    ensures s.ReadByte(idx) == s.ReadByte(idx - 0x2000)
    ensures s.WriteByte(idx, val) == s.WriteByte(idx - 0x2000, val)
  {
  }

  /** A write to 0x2000 selects ROM bank `n` for the window at 0x4000. */
  lemma BankSwitch(s: BusState, n: Byte, i: Word)
    requires s.Valid() && i < 0x4000
    ensures s.WriteByte(0x2000, n).ReadByte(0x4000 + i) == s.rom.romBanks[n as int][i as int]
  {
  }

  /** ROM addresses other than 0x2000 and the range 0xFE00-0xFEFF ignore writes. */
  lemma IgnoredWrites(s: BusState, idx: Word, val: Byte)
    requires s.Valid()
    requires (idx <= 0x7fff && idx != 0x2000) || (0xfe00 <= idx <= 0xfeff)
    ensures s.WriteByte(idx, val) == s
  {
  }

  /** OAM, the unusable range and high RAM read as 0. */
  lemma UnmappedReadsZero(s: BusState, idx: Word)
    requires s.Valid() && 0xfe00 <= idx <= 0xfffe && !(0xff00 <= idx <= 0xff7f)
    ensures s.ReadByte(idx) == 0
  {
  }

  /** High RAM still records writes, though reads never see them. */
  lemma HighRamWrite(s: BusState, idx: Word, val: Byte)
    requires s.Valid() && 0xff80 <= idx <= 0xfffe
    ensures s.WriteByte(idx, val).hram[(idx - 0xff80) as int] == val
    ensures s.WriteByte(idx, val).ReadByte(idx) == 0
  {
  }

  /** No store moves where writes go: the work-RAM bank is never changed by the bus. */
  lemma {:induction false} StoreKeepsWriteLocation(s: BusState, c: Cell, val: Byte, idx: Word)
    requires s.Valid() && s.Fits(c)
    ensures s.Store(c, val).WriteLocation(idx) == s.WriteLocation(idx)
    decreases if idx >= 0xe000 then 1 else 0
  {
    if 0xe000 <= idx <= 0xfdff {
      StoreKeepsWriteLocation(s, c, val, idx - 0x2000);
    }
  }

  /** A word write is two stores: the high byte into the cell of `idx + 1`,
      then the low byte into the cell of `idx`. */
  lemma WordWriteIsStores(s: BusState, idx: Word, val: Word)
    requires s.Valid() && idx < 0xffff
    ensures var t := s.Store(s.WriteLocation(idx + 1), Hi(val));
      s.WriteWord(idx, val) == t.Store(s.WriteLocation(idx), Lo(val))
  {
    var c1 := s.WriteLocation(idx + 1);
    WriteIsStore(s, idx + 1, Hi(val));
    var t := s.Store(c1, Hi(val));
    WriteIsStore(t, idx, Lo(val));
    StoreKeepsWriteLocation(s, c1, Hi(val), idx);
  }

  /** Little-endian word round trip when both bytes store, in different cells. */
  lemma WordRoundTrip(s: BusState, idx: Word, val: Word)
    requires s.Valid() && idx < 0xffff
    requires Stores(s, idx) && Stores(s, idx + 1)
    requires s.ReadLocation(idx) != s.ReadLocation(idx + 1)
    ensures s.WriteWord(idx, val).ReadWord(idx) == val
  {
    var c0 := s.ReadLocation(idx);
    var c1 := s.ReadLocation(idx + 1);
    var t := s.Store(c1, Hi(val));
    var u := t.Store(c0, Lo(val));
    WordWriteIsStores(s, idx, val);
    assert s.WriteWord(idx, val) == u;
    StoreKeepsReadLocation(s, c1, Hi(val), idx);
    StoreKeepsReadLocation(s, c1, Hi(val), idx + 1);
    StoreKeepsReadLocation(t, c0, Lo(val), idx);
    StoreKeepsReadLocation(t, c0, Lo(val), idx + 1);
    StoreThenValue(t, c0, Lo(val), c0);
    StoreThenValue(t, c0, Lo(val), c1);
    StoreThenValue(s, c1, Hi(val), c1);
    JoinSplit(val);
  }

  /** Words written anywhere in work RAM, 0xC000-0xDFFE, read back. */
  lemma WramWordRoundTrip(s: BusState, idx: Word, val: Word)
    requires s.Valid() && 0xc000 <= idx <= 0xdffe
    ensures s.WriteWord(idx, val).ReadWord(idx) == val
  {
    RamStores(s, idx);
    RamStores(s, idx + 1);
    WordRoundTrip(s, idx, val);
  }

  class MemoryBus {
    const rom: Cartridge
    const gpu: Gpu
    const ram: WorkRam
    const io: IoRegisters
    const hram: array<Byte>

    /** Takes the loaded cartridge; every other component starts fresh. */
    constructor Init(cartridge: Cartridge)
      requires cartridge.State().Valid()
      ensures rom == cartridge && fresh(gpu) && fresh(ram) && fresh(io) && fresh(hram)
      ensures State() == BusState(old(cartridge.State()), InitialVram(), InitialWorkRam(),
                                  InitialIo, seq(HighRamSize, _ => 0))
      ensures Valid()
    {
      rom := cartridge;
      gpu := new Gpu.Init();
      ram := new WorkRam.Init();
      io := new IoRegisters.Init();
      hram := new Byte[HighRamSize](_ => 0);
    }

    function Repr(): set<object>
    {
      {this, rom, gpu, ram, io, hram}
    }

    function State(): BusState
      reads Repr()
    {
      BusState(rom.State(), gpu.State(), ram.State(), io.State(), hram[..])
    }

    predicate Valid()
      reads Repr()
    {
      State().Valid()
    }

    /** `read_byte`: the value of the cell the address reads from. */
    function ReadByte(idx: Word): (v: Byte)
      reads Repr()
      requires Valid()
      ensures v == State().Value(State().ReadLocation(idx))
    {
      State().ReadByte(idx)
    }

    /** `read_word`: the byte at `idx + 1` high, the byte at `idx` low. */
    function ReadWord(idx: Word): (w: Word)
      reads Repr()
      requires Valid() && idx < 0xffff
      ensures Hi(w) == ReadByte(idx + 1) && Lo(w) == ReadByte(idx)
    {
      State().ReadWord(idx)
    }

    method WriteByte(idx: Word, val: Byte)
      requires Valid()
      modifies Repr()
      ensures Valid()
      ensures State() == old(State()).WriteByte(idx, val)
      decreases if idx >= 0xe000 then 1 else 0
    {
      if idx == 0x2000 {
        rom.SetBank(val);
      } else if 0x8000 <= idx <= 0x9fff {
        gpu.WriteVramByte(idx - 0x8000, val);
      } else if 0xa000 <= idx <= 0xbfff {
        rom.WriteRamByte(idx - 0xa000, val);
      } else if 0xc000 <= idx <= 0xcfff {
        ram.WriteByte(idx - 0xc000, val);
      } else if 0xd000 <= idx <= 0xdfff {
        ram.WriteBankByte(idx - 0xd000, val);
      } else if 0xe000 <= idx <= 0xfdff {
        WriteByte(idx - 0x2000, val);
      } else if 0xff00 <= idx <= 0xff7f {
        io.WriteByte(idx, val);
      } else if 0xff80 <= idx <= 0xfffe {
        WriteHighRam(idx - 0xff80, val);
      } else if idx == 0xffff {
        io.WriteByte(idx, val);
      }
    }

    /** The store into high RAM, offset `o` past 0xFF80. */
    method WriteHighRam(o: Word, val: Byte)
      requires Valid() && o < 0x80
      modifies hram
      ensures Valid()
      ensures State() == old(State()).(hram := old(State()).hram[o as int := val])
    {
      hram[o as int] := val;
    }

    method WriteWord(idx: Word, val: Word)
      requires Valid() && idx < 0xffff
      modifies Repr()
      ensures Valid()
      ensures State() == old(State()).WriteWord(idx, val)
    {
      var h := ((val >> 8) & 0xff) as Byte;
      var l := (val & 0xff) as Byte;
      WriteByte(idx + 1, h);
      WriteByte(idx, l);
    }
  }
}

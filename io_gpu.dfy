/** The LCD controller: its I/O registers, the scanline counter it advances
    on every step, its interrupt latch, its own two VRAM banks, and the
    256x256 framebuffer it renders the background tile map into once per
    frame. The keypad byte the window library would poll is an input of
    `Step`. */
module IoGpu {
  import opened Bits
  import opened Banks = Gpu

  /** Cycles a scanline lasts before `ly` moves on. */
  const CyclesPerLine: nat := 6666
  /** `ly` reaching this value ends a frame. */
  const LinesPerFrame: Byte := 153

  /** The register an I/O address selects. */
  datatype LcdReg =
    | Keypad | Lcdc | Stat | Scy | Scx | Ly | Lyc | Bgp | Obp0 | Obp1 | Wy | Wx | BankSelect
    | Unmapped

  /** The address decoding shared by `read_io_byte` and `write_io_byte`. */
  function Decode(idx: Word): (r: LcdReg)
    ensures r == Unmapped <==> !Mapped(idx)
  {
    match idx
    case 0xff00 => Keypad
    case 0xff40 => Lcdc
    case 0xff41 => Stat
    case 0xff42 => Scy
    case 0xff43 => Scx
    case 0xff44 => Ly
    case 0xff45 => Lyc
    case 0xff47 => Bgp
    case 0xff48 => Obp0
    case 0xff49 => Obp1
    case 0xff4a => Wy
    case 0xff4b => Wx
    case 0xff4f => BankSelect
    case _ => Unmapped
  }

  /** Distinct mapped addresses select distinct registers. */
  lemma DecodeInjective(a: Word, b: Word)
    requires a != b && Mapped(a)
    ensures Decode(a) != Decode(b)
  {
  }

  /** The register file behind 0xFF00, 0xFF40-0xFF4B and 0xFF4F. */
  datatype LcdRegs = LcdRegs(
    keypad: Byte,
    ldcd: Byte, stat: Byte,
    scy: Byte, scx: Byte,
    ly: Byte, lyc: Byte,
    bgp: Byte,
    obp0: Byte, obp1: Byte,
    wy: Byte, wx: Byte,
    vramBank: Byte)
  {
    function Get(reg: LcdReg): Byte
    {
      match reg
      case Keypad => keypad
      case Lcdc => ldcd
      case Stat => stat
      case Scy => scy
      case Scx => scx
      case Ly => ly
      case Lyc => lyc
      case Bgp => bgp
      case Obp0 => obp0
      case Obp1 => obp1
      case Wy => wy
      case Wx => wx
      case BankSelect => vramBank
      case Unmapped => 0
    }

    /** Writes to the keypad keep its bits other than 4 and 5, writes to
        LCDC take bits 0-2 from the keypad, writes to LY clear it; the
        other registers store the value; unmapped writes change nothing. */
    function Put(reg: LcdReg, val: Byte): LcdRegs
    {
      match reg
      case Keypad => this.(keypad := KeypadMerge(keypad, val))
      case Lcdc => this.(ldcd := LcdcMerge(keypad, val))
      case Stat => this.(stat := val)
      case Scy => this.(scy := val)
      case Scx => this.(scx := val)
      case Ly => this.(ly := 0)
      case Lyc => this.(lyc := val)
      case Bgp => this.(bgp := val)
      case Obp0 => this.(obp0 := val)
      case Obp1 => this.(obp1 := val)
      case Wy => this.(wy := val)
      case Wx => this.(wx := val)
      case BankSelect => this.(vramBank := val)
      case Unmapped => this
    }

    function ReadIoByte(idx: Word): (v: Byte)
      ensures !Mapped(idx) ==> v == 0
    {
      Get(Decode(idx))
    }

    function WriteIoByte(idx: Word, val: Byte): (r: LcdRegs)
      ensures !Mapped(idx) ==> r == this
      ensures r.ly == if Decode(idx) == Ly then 0 else ly
    {
      Put(Decode(idx), val)
    }
  }

  /** A keypad write: bits 4 and 5 from `val`, the rest kept. */
  function KeypadMerge(keypad: Byte, val: Byte): Byte
  {
    (keypad & 0xcf) | (val & 0x30)
  }

  /** An LCDC write: bits 3-7 from `val`, bits 0-2 from the keypad. */
  function LcdcMerge(keypad: Byte, val: Byte): Byte
  {
    (keypad & 0x07) | (val & 0xf8)
  }

  /** The addresses the controller decodes. */
  predicate Mapped(idx: Word)
  {
    idx == 0xff00 || 0xff40 <= idx <= 0xff45 || 0xff47 <= idx <= 0xff4b || idx == 0xff4f
  }

  /** The registers that store what is written, unchanged. */
  predicate Plain(idx: Word)
  {
    Mapped(idx) && idx != 0xff00 && idx != 0xff40 && idx != 0xff44
  }

  /** A plain register reads back what was written. */
  lemma PlainRoundTrip(s: LcdRegs, idx: Word, val: Byte)
    requires Plain(idx)
    ensures s.WriteIoByte(idx, val).ReadIoByte(idx) == val
  {
  }

  /** A write to one register leaves every other register as it was. */
  lemma PutSparesOthers(s: LcdRegs, reg: LcdReg, val: Byte, other: LcdReg)
    requires other != reg
    ensures s.Put(reg, val).Get(other) == s.Get(other)
  {
  }

  /** A write changes no register but the one at its own address. */
  lemma WriteSparesOthers(s: LcdRegs, idx: Word, val: Byte, other: Word)
    requires other != idx
    ensures s.WriteIoByte(idx, val).ReadIoByte(other) == s.ReadIoByte(other)
  {
    if Mapped(idx) {
      DecodeInjective(idx, other);
      PutSparesOthers(s, Decode(idx), val, Decode(other));
    }
  }

  /** LY reads 0 after any write to it. */
  lemma LyWriteResets(s: LcdRegs, val: Byte)
    ensures s.WriteIoByte(0xff44, val).ReadIoByte(0xff44) == 0
  {
  }

  /** LCDC gets bits 3-7 from the value written and bits 0-2 from the keypad. */
  lemma LcdcWriteMerges(s: LcdRegs, val: Byte)
    ensures s.WriteIoByte(0xff40, val).ReadIoByte(0xff40) & 0xf8 == val & 0xf8
    ensures s.WriteIoByte(0xff40, val).ReadIoByte(0xff40) & 0x07 == s.keypad & 0x07
  {
  }

  /** A keypad write changes bits 4 and 5 only. */
  lemma KeypadWriteMerges(s: LcdRegs, val: Byte)
    ensures s.WriteIoByte(0xff00, val).ReadIoByte(0xff00) & 0x30 == val & 0x30
    ensures s.WriteIoByte(0xff00, val).ReadIoByte(0xff00) & 0xcf == s.keypad & 0xcf
  {
  }

  /** The controller's state apart from the framebuffer. */
  datatype LcdState = LcdState(io: LcdRegs, cycle: nat, interrupt: Byte, vramBanks: seq<seq<Byte>>)
  {
    function Vram(): VramState
    {
      VramState(io.vramBank, vramBanks)
    }

    /** The banks have their sizes and `ly` is below the frame length. */
    predicate Valid()
    {
      Vram().Valid() && io.ly < LinesPerFrame
    }
  }

  /** Keypad all ones, every other register and the counters zero. */
  function InitialLcd(): (s: LcdState)
    ensures s.Valid() && s.io.keypad == 0xff && s.io.ly == 0 && s.cycle == 0 && s.interrupt == 0
  {
    LcdState(LcdRegs(0xff, 0, 0, 0, 0, 0, 0, 0, 0, 0, 0, 0, 0), 0, 0, InitialVram().vramBanks)
  }

  /** `update_keypad` with the pressed keys `keys`: the keypad register takes
      them, and any key down raises interrupt bit 4. */
  function LatchKeys(s: LcdState, keys: Byte): (t: LcdState)
    ensures t.io == s.io.(keypad := keys) && t.cycle == s.cycle && t.vramBanks == s.vramBanks
    ensures t.interrupt & s.interrupt == s.interrupt
    ensures keys != 0 ==> t.interrupt & 0x10 == 0x10
    ensures keys == 0 ==> t.interrupt == s.interrupt
  {
    s.(io := s.io.(keypad := keys), interrupt := if keys != 0 then s.interrupt | 0x10 else s.interrupt)
  }

  /** The cycle count grows by `cycles`; past one line's worth it restarts
      at 0 and `ly` moves to the next line. */
  function Tick(s: LcdState, cycles: nat): (t: LcdState)
    requires s.Valid()
    ensures t.io.ly <= LinesPerFrame
    ensures t.io == s.io.(ly := t.io.ly) && t.interrupt == s.interrupt && t.vramBanks == s.vramBanks
    ensures s.cycle + cycles > CyclesPerLine ==> t.cycle == 0 && t.io.ly == s.io.ly + 1
    ensures s.cycle + cycles <= CyclesPerLine ==> t.cycle == s.cycle + cycles && t.io.ly == s.io.ly
  {
    if s.cycle + cycles > CyclesPerLine then s.(io := s.io.(ly := s.io.ly + 1), cycle := 0)
    else s.(cycle := s.cycle + cycles)
  }

  /** The step that moves `ly` to the frame length ends the frame. */
  predicate FrameEnds(s: LcdState, cycles: nat)
    requires s.Valid()
  {
    Tick(s, cycles).io.ly >= LinesPerFrame
  }

  /** A frame ends exactly when the last line runs out of cycles. */
  lemma FrameEndsOnLastLine(s: LcdState, cycles: nat)
    requires s.Valid()
    ensures FrameEnds(s, cycles) <==> s.io.ly == 152 && s.cycle + cycles > CyclesPerLine
  {
  }

  /** `GPU::step` apart from the framebuffer: keys latched, cycles counted;
      at the end of a frame `ly` restarts at 0 and interrupt bit 0 rises
      beside whatever the keys raised. */
  function StepState(s: LcdState, cycles: nat, keys: Byte): (t: LcdState)
    requires s.Valid()
    ensures t.Valid()
    ensures t.vramBanks == s.vramBanks
    ensures t.io == s.io.(keypad := keys, ly := t.io.ly)
    ensures FrameEnds(s, cycles) ==> t.io.ly == 0 && t.interrupt & 0x01 == 0x01
    ensures !FrameEnds(s, cycles) ==> t.io.ly == Tick(s, cycles).io.ly && t.interrupt == LatchKeys(s, keys).interrupt
  {
    var k := LatchKeys(s, keys);
    var c := Tick(k, cycles);
    if c.io.ly >= LinesPerFrame then c.(io := c.io.(ly := 0), interrupt := c.interrupt | 0x01)
    else c
  }

  /** A step moves the cycle counter as `Tick` does, and at the end of a
      frame the interrupt byte is the one the keys left with bit 0 added. */
  lemma StepCycleAndFrame(s: LcdState, cycles: nat, keys: Byte)
    requires s.Valid()
    ensures var t := StepState(s, cycles, keys);
            (s.cycle + cycles > CyclesPerLine ==> t.cycle == 0) &&
            (s.cycle + cycles <= CyclesPerLine ==> t.cycle == s.cycle + cycles) &&
            (FrameEnds(s, cycles) ==> t.interrupt == LatchKeys(s, keys).interrupt | 0x01)
  {
  }

  /** A step only raises interrupt bits; pressed keys raise bit 4. */
  lemma StepRaisesOnly(s: LcdState, cycles: nat, keys: Byte)
    requires s.Valid()
    ensures StepState(s, cycles, keys).interrupt & s.interrupt == s.interrupt
    ensures keys != 0 ==> StepState(s, cycles, keys).interrupt & 0x10 == 0x10
  {
  }

  // The framebuffer: 256x256 pixels of 32 bits, row-major.

  /** The slot of pixel (x, y); both coordinates wrap at 256, so the slot is
      always inside the framebuffer. */
  function PixelIndex(x: nat, y: nat): (i: nat)
    ensures i < 0x10000
    ensures i % 256 == x % 256 && i / 256 == y % 256
  {
    (y % 256) * 256 + x % 256
  }

  /** Every slot is the index of exactly the pixel its quotient and
      remainder by 256 name. */
  lemma PixelIndexOnto(i: nat)
    requires i < 0x10000
    ensures PixelIndex(i % 256, i / 256) == i
  {
  }

  /** Two in-range pixels share a slot only if they are the same pixel. */
  lemma PixelIndexInjective(x: nat, y: nat, px: nat, py: nat)
    requires px < 256 && py < 256
    ensures PixelIndex(x, y) == PixelIndex(px, py) <==> x % 256 == px && y % 256 == py
  {
  }

  /** How far coordinate `p` lies past `base`, both taken modulo 256. */
  function Offset(p: nat, base: nat): (d: nat)
    requires p < 256
    ensures d < 256
    ensures (base + d) % 256 == p
  {
    var b := base % 256;
    assert base == 256 * (base / 256) + b;
    if p >= b then p - b else p + 256 - b
  }

  /** The offset is the only one under 256 that reaches `p`. */
  lemma OffsetUnique(p: nat, base: nat, d: nat)
    requires p < 256 && d < 256
    ensures (base + d) % 256 == p <==> Offset(p, base) == d
  {
    var b := base % 256;
    assert base == 256 * (base / 256) + b;
    assert (base + d) % 256 == (b + d) % 256;
  }

  /** A VRAM byte at a numeric index of the selected bank. */
  function VramAt(v: VramState, i: nat): Byte
    requires v.Valid() && v.vramBank < 2 && i < 0x2000
  {
    v.vramBanks[v.vramBank as int][i]
  }

  /** `VramAt` reads what `read_vram_byte` reads. */
  lemma VramAtReads(v: VramState, idx: Word)
    requires v.Valid() && v.vramBank < 2 && idx < 0x2000
    ensures VramAt(v, idx as int) == v.ReadVramByte(idx)
  {
  }

  /** Row `y` of the tile whose 16 bytes start at `addr`: the first byte of
      the pair is the high half. */
  function TileRow(v: VramState, addr: nat, y: nat): (w: Word)
    requires v.Valid() && v.vramBank < 2 && y < 8 && addr + 16 <= 0x2000
    ensures Hi(w) == VramAt(v, addr + 2 * y) && Lo(w) == VramAt(v, addr + 2 * y + 1)
  {
    Join(VramAt(v, addr + 2 * y), VramAt(v, addr + 2 * y + 1))
  }

  /** Pixel `x` of a tile row: its 2-bit field, bits 2x and 2x+1, times
      0x0F, copied into all four bytes. */
  function Shade(row: Word, x: nat): bv32
    requires x < 8
  {
    Grey((row >> (2 * x)) & 0x03)
  }

  /** The colour for a 2-bit field: the field times 0x0F in all four bytes. */
  function Grey(field: Word): bv32
  {
    var bits := (field as bv32) * 0x0f;
    bits | (bits << 8) | (bits << 16) | (bits << 24)
  }

  /** A pixel is one of four grey levels, and black exactly when its field
      is zero. */
  lemma ShadeIsGrey(row: Word, x: nat)
    requires x < 8
    ensures Shade(row, x) == 0 || Shade(row, x) == 0x0f0f0f0f
         || Shade(row, x) == 0x1e1e1e1e || Shade(row, x) == 0x2d2d2d2d
    ensures Shade(row, x) == 0 <==> (row >> (2 * x)) & 0x03 == 0
  {
    var f := (row >> (2 * x)) & 0x03;
    assert f == 0 || f == 1 || f == 2 || f == 3;
  }

  function TilePixel(v: VramState, addr: nat, x: nat, y: nat): bv32
    requires v.Valid() && v.vramBank < 2 && x < 8 && y < 8 && addr + 16 <= 0x2000
  {
    Shade(TileRow(v, addr, y), x)
  }

  /** Pixels 0 to 3 of a tile row come from the row's second byte, pixels 4
      to 7 from its first. */
  lemma TilePixelHalves(v: VramState, addr: nat, x: nat, y: nat)
    requires v.Valid() && v.vramBank < 2 && x < 8 && y < 8 && addr + 16 <= 0x2000
    ensures x < 4 ==> TilePixel(v, addr, x, y) == Shade(VramAt(v, addr + 2 * y + 1) as Word, x)
    ensures x >= 4 ==> TilePixel(v, addr, x, y) == Shade(VramAt(v, addr + 2 * y) as Word, x - 4)
  {
    var h, l := VramAt(v, addr + 2 * y), VramAt(v, addr + 2 * y + 1);
    var row := TileRow(v, addr, y);
    assert row == Join(h, l);
    FieldOfJoin(h, l, x);
    if x < 4 {
      var f := (row >> (2 * x)) & 0x03;
      assert f == ((l as Word) >> (2 * x)) & 0x03;
    } else {
      var f := (row >> (2 * x)) & 0x03;
      assert f == ((h as Word) >> (2 * (x - 4))) & 0x03;
    }
  }

  /** Field `x` of a joined pair lies in the low byte for x < 4 and in the
      high byte otherwise. */
  lemma FieldOfJoin(h: Byte, l: Byte, x: nat)
    requires x < 8
    ensures x < 4 ==> (Join(h, l) >> (2 * x)) & 0x03 == ((l as Word) >> (2 * x)) & 0x03
    ensures x >= 4 ==> (Join(h, l) >> (2 * x)) & 0x03 == ((h as Word) >> (2 * (x - 4))) & 0x03
  {
  }

  /** LCDC bit 6 selects the map at 0x1800 with signed tile ids; clear, the
      map at 0x1C00 with unsigned ids. */
  predicate HighMap(ldcd: Byte)
  {
    ldcd & 0x40 != 0
  }

  /** Where the tile for map entry `t` starts; its 16 bytes always lie in
      the bank. */
  function TileAddr(v: VramState, ldcd: Byte, t: nat): (a: nat)
    requires v.Valid() && v.vramBank < 2 && t < 0x400
    ensures a + 16 <= 0x2000 && a % 32 == 0
    ensures !HighMap(ldcd) ==> a == 32 * VramAt(v, 0x1c00 + t) as nat
    ensures HighMap(ldcd) ==> a == 0x1000 + 32 * Signed(VramAt(v, 0x1800 + t))
  {
    if !HighMap(ldcd) then 32 * VramAt(v, 0x1c00 + t) as nat
    else 0x1000 + 32 * Signed(VramAt(v, 0x1800 + t))
  }

  /** The map entry that covers pixel (px, py): 32 tiles of 8x8 per row. */
  function TileOf(px: nat, py: nat): (t: nat)
    requires px < 256 && py < 256
    ensures t < 0x400
  {
    (py / 8) * 32 + px / 8
  }

  /** The colour the rendered background has at pixel (px, py). */
  function MapPixel(v: VramState, ldcd: Byte, px: nat, py: nat): bv32
    requires v.Valid() && v.vramBank < 2 && px < 256 && py < 256
  {
    TilePixel(v, TileAddr(v, ldcd, TileOf(px, py)), px % 8, py % 8)
  }

  /** The first `n` pixels of the tile at `addr`, in row-major order, are
      painted at (xpos, ypos); every other pixel is as in `fb0`. */
  ghost predicate TilePainted(fb: seq<bv32>, fb0: seq<bv32>, v: VramState, addr: nat, xpos: nat, ypos: nat, n: nat)
    requires |fb| == 0x10000 && |fb0| == 0x10000
    requires v.Valid() && v.vramBank < 2 && addr + 16 <= 0x2000
  {
    forall px, py :: 0 <= px < 256 && 0 <= py < 256 ==>
      fb[PixelIndex(px, py)] == PaintedPixel(fb0, v, addr, xpos, ypos, n, px, py)
  }

  ghost function PaintedPixel(fb0: seq<bv32>, v: VramState, addr: nat, xpos: nat, ypos: nat, n: nat,
                              px: nat, py: nat): bv32
    requires |fb0| == 0x10000 && px < 256 && py < 256
    requires v.Valid() && v.vramBank < 2 && addr + 16 <= 0x2000
  {
    var dx := Offset(px, xpos);
    var dy := Offset(py, ypos);
    if dx < 8 && dy < 8 && 8 * dy + dx < n then TilePixel(v, addr, dx, dy) else fb0[PixelIndex(px, py)]
  }

  /** Painting tile pixel (x, y) at slot PixelIndex(x + xpos, y + ypos)
      extends the painted prefix by one. */
  lemma {:induction false} PaintStep(fb: seq<bv32>, fb0: seq<bv32>, v: VramState, addr: nat,
                                     xpos: nat, ypos: nat, x: nat, y: nat)
    requires |fb| == 0x10000 && |fb0| == 0x10000
    requires v.Valid() && v.vramBank < 2 && addr + 16 <= 0x2000 && x < 8 && y < 8
    requires TilePainted(fb, fb0, v, addr, xpos, ypos, 8 * y + x)
    ensures TilePainted(fb[PixelIndex(x + xpos, y + ypos) := TilePixel(v, addr, x, y)], fb0, v, addr, xpos, ypos, 8 * y + x + 1)
  {
    var fb' := fb[PixelIndex(x + xpos, y + ypos) := TilePixel(v, addr, x, y)];
    forall px, py | 0 <= px < 256 && 0 <= py < 256
      ensures fb'[PixelIndex(px, py)] == PaintedPixel(fb0, v, addr, xpos, ypos, 8 * y + x + 1, px, py)
    {
      PixelIndexInjective(x + xpos, y + ypos, px, py);
      OffsetUnique(px, xpos, x);
      OffsetUnique(py, ypos, y);
    }
  }

  /** The first `k` map entries are rendered; every other pixel is as in
      `fb0`. */
  ghost predicate MapPainted(fb: seq<bv32>, fb0: seq<bv32>, v: VramState, ldcd: Byte, k: nat)
    requires |fb| == 0x10000 && |fb0| == 0x10000 && v.Valid() && v.vramBank < 2
  {
    forall px, py :: 0 <= px < 256 && 0 <= py < 256 ==>
      fb[PixelIndex(px, py)] == (if TileOf(px, py) < k then MapPixel(v, ldcd, px, py) else fb0[PixelIndex(px, py)])
  }

  /** Map entry `t` is drawn at x = 8t and y = 8 * (8t / 256): its pixels are
      exactly those it covers, at their offsets within the tile. */
  lemma TileCell(t: nat, px: nat, py: nat)
    requires t < 0x400 && px < 256 && py < 256
    ensures Offset(px, t * 8) < 8 && Offset(py, (t * 8 / 256) * 8) < 8 <==> TileOf(px, py) == t
    ensures TileOf(px, py) == t ==> Offset(px, t * 8) == px % 8 && Offset(py, (t * 8 / 256) * 8) == py % 8
  {
    TileCorner(t);
    CellOffset(t % 32, t * 8, px);
    CellOffset(t / 32, (t * 8 / 256) * 8, py);
    SplitUnique(t, py / 8, px / 8);
  }

  /** Where entry `t`'s corner lands, modulo 256. */
  lemma TileCorner(t: nat)
    requires t < 0x400
    ensures (t * 8) % 256 == (t % 32) * 8
    ensures (t * 8 / 256) * 8 == (t / 32) * 8 && t / 32 < 32
  {
    assert t == 32 * (t / 32) + t % 32;
    assert t * 8 == 256 * (t / 32) + (t % 32) * 8;
  }

  /** Coordinate `p` lies in the 8-pixel cell `c` whose corner is `base`
      exactly when `p / 8 == c`, and then at offset `p % 8`. */
  lemma CellOffset(c: nat, base: nat, p: nat)
    requires c < 32 && p < 256 && base % 256 == c * 8
    ensures Offset(p, base) < 8 <==> p / 8 == c
    ensures p / 8 == c ==> Offset(p, base) == p % 8
  {
    assert p == 8 * (p / 8) + p % 8;
  }

  /** A map entry number splits uniquely into its row and column. */
  lemma SplitUnique(t: nat, row: nat, col: nat)
    requires col < 32
    ensures row * 32 + col == t <==> row == t / 32 && col == t % 32
  {
    assert t == 32 * (t / 32) + t % 32;
  }

  /** Drawing entry `t` where `update_tile_map` draws it extends the
      rendered prefix by one entry. */
  lemma {:induction false} MapStep(before: seq<bv32>, after: seq<bv32>, fb0: seq<bv32>, v: VramState, ldcd: Byte, t: nat)
    requires |before| == 0x10000 && |after| == 0x10000 && |fb0| == 0x10000
    requires v.Valid() && v.vramBank < 2 && t < 0x400
    requires MapPainted(before, fb0, v, ldcd, t)
    requires TilePainted(after, before, v, TileAddr(v, ldcd, t), t * 8, (t * 8 / 256) * 8, 64)
    ensures MapPainted(after, fb0, v, ldcd, t + 1)
  {
    forall px, py | 0 <= px < 256 && 0 <= py < 256
      ensures after[PixelIndex(px, py)]
           == (if TileOf(px, py) < t + 1 then MapPixel(v, ldcd, px, py) else fb0[PixelIndex(px, py)])
    {
      TileCell(t, px, py);
    }
  }

  class Gpu {
    const fbuffer: array<bv32>
    /** The I/O registers, `ldcd` through `wx`, the keypad and the bank
        select, as one record. */
    var io: LcdRegs
    var cycle: nat
    var vramBanks: seq<seq<Byte>>
    var interrupt: Byte

    /** A black framebuffer and the initial registers; the window is not
        part of this model. */
    constructor Init()
      ensures Valid() && State() == InitialLcd() && fresh(fbuffer)
      ensures forall i :: 0 <= i < fbuffer.Length ==> fbuffer[i] == 0
    {
      fbuffer := new bv32[0x10000](_ => 0);
      io := InitialLcd().io;
      cycle := 0;
      vramBanks := InitialVram().vramBanks;
      interrupt := 0;
    }

    function State(): LcdState
      reads this
    {
      LcdState(io, cycle, interrupt, vramBanks)
    }

    function Vram(): VramState
      reads this
    {
      VramState(io.vramBank, vramBanks)
    }

    predicate Valid()
      reads this
    {
      fbuffer.Length == 0x10000 && State().Valid()
    }

    /** Answers the latched interrupt bits and clears the latch. */
    method GetInterrupt() returns (r: Byte)
      requires Valid()
      modifies this
      ensures Valid()
      ensures r == old(interrupt) && State() == old(State()).(interrupt := 0)
    {
      r := interrupt;
      interrupt := 0;
    }

    /** `write_io_byte`: the register the address selects takes its new
        value. */
    method WriteIoByte(idx: Word, val: Byte)
      requires Valid()
      modifies this
      ensures Valid()
      ensures State() == old(State()).(io := old(State()).io.WriteIoByte(idx, val))
    {
      io := io.WriteIoByte(idx, val);
    }

    method UpdateKeypad(keys: Byte)
      requires Valid()
      modifies this
      ensures Valid()
      ensures State() == LatchKeys(old(State()), keys)
    {
      io := io.(keypad := keys);
      if io.keypad != 0 {
        interrupt := interrupt | 0x10;
      }
    }

    function GetPixel(x: nat, y: nat): bv32
      reads fbuffer
      requires fbuffer.Length == 0x10000
    {
      fbuffer[PixelIndex(x, y)]
    }

    /** Stores one pixel; no other slot changes. */
    method SetPixel(x: nat, y: nat, val: bv32)
      requires fbuffer.Length == 0x10000
      modifies fbuffer
      ensures GetPixel(x, y) == val
      ensures fbuffer[..] == old(fbuffer[..])[PixelIndex(x, y) := val]
    {
      fbuffer[PixelIndex(x, y)] := val;
    }

    /** Paints the 8x8 tile whose 16 bytes start at `tileAddr` with its top
        left corner at (xpos, ypos), wrapping at the framebuffer's edges. */
    method WriteTile(xpos: nat, ypos: nat, tileAddr: nat)
      requires Valid() && io.vramBank < 2 && tileAddr + 16 <= 0x2000
      modifies fbuffer
      ensures TilePainted(fbuffer[..], old(fbuffer[..]), Vram(), tileAddr, xpos, ypos, 64)
    {
      ghost var fb0 := fbuffer[..];
      var addr := tileAddr;
      for y := 0 to 8
        invariant addr == tileAddr + 2 * y
        invariant TilePainted(fbuffer[..], fb0, Vram(), tileAddr, xpos, ypos, 8 * y)
      {
        var line := Join(VramAt(Vram(), addr), VramAt(Vram(), addr + 1));
        assert line == TileRow(Vram(), tileAddr, y);
        addr := addr + 2;
        for x := 0 to 8
          invariant TilePainted(fbuffer[..], fb0, Vram(), tileAddr, xpos, ypos, 8 * y + x)
        {
          PaintStep(fbuffer[..], fb0, Vram(), tileAddr, xpos, ypos, x, y);
          SetPixel(x + xpos, y + ypos, Shade(line, x));
        }
      }
    }

    /** Renders all 32x32 map entries; afterwards every pixel shows the
        background the map and the tiles describe. */
    method UpdateTileMap()
      requires Valid() && io.vramBank < 2
      modifies fbuffer
      ensures forall px, py :: 0 <= px < 256 && 0 <= py < 256 ==>
                fbuffer[PixelIndex(px, py)] == MapPixel(Vram(), io.ldcd, px, py)
    {
      if io.ldcd & 0x40 == 0 {
        PaintLowMap();
      } else {
        PaintHighMap();
      }
    }

    /** The loop of `update_tile_map` over the unsigned map at 0x1C00. */
    method PaintLowMap()
      requires Valid() && io.vramBank < 2 && !HighMap(io.ldcd)
      modifies fbuffer
      ensures forall px, py :: 0 <= px < 256 && 0 <= py < 256 ==>
                fbuffer[PixelIndex(px, py)] == MapPixel(Vram(), io.ldcd, px, py)
    {
      ghost var fb0 := fbuffer[..];
      for tile := 0 to 0x400
        invariant MapPainted(fbuffer[..], fb0, Vram(), io.ldcd, tile)
      {
        var tileId := VramAt(Vram(), tile + 0x1c00) as nat;
        var tileAddr := 32 * tileId;
        var x := tile * 8;
        var y := (tile * 8 / 256) * 8;
        ghost var before := fbuffer[..];
        WriteTile(x, y, tileAddr);
        MapStep(before, fbuffer[..], fb0, Vram(), io.ldcd, tile);
      }
    }

    /** The loop of `update_tile_map` over the signed map at 0x1800. */
    method PaintHighMap()
      requires Valid() && io.vramBank < 2 && HighMap(io.ldcd)
      modifies fbuffer
      ensures forall px, py :: 0 <= px < 256 && 0 <= py < 256 ==>
                fbuffer[PixelIndex(px, py)] == MapPixel(Vram(), io.ldcd, px, py)
    {
      ghost var fb0 := fbuffer[..];
      for tile := 0 to 0x400
        invariant MapPainted(fbuffer[..], fb0, Vram(), io.ldcd, tile)
      {
        var tileId := Signed(VramAt(Vram(), tile + 0x1800));
        var tileAddr := 0x1000 + 32 * tileId;
        var x := tile * 8;
        var y := (tile * 8 / 256) * 8;
        ghost var before := fbuffer[..];
        WriteTile(x, y, tileAddr);
        MapStep(before, fbuffer[..], fb0, Vram(), io.ldcd, tile);
      }
    }

    /** `GPU::step` with the pressed keys as input; the frame's end renders
        the background, and otherwise the framebuffer is untouched. */
    method Step(cycles: nat, keys: Byte)
      requires Valid()
      requires FrameEnds(State(), cycles) ==> io.vramBank < 2
      modifies this, fbuffer
      ensures Valid()
      ensures State() == StepState(old(State()), cycles, keys)
      ensures FrameEnds(old(State()), cycles) ==>
                forall px, py :: 0 <= px < 256 && 0 <= py < 256 ==>
                  fbuffer[PixelIndex(px, py)] == MapPixel(Vram(), io.ldcd, px, py)
      ensures !FrameEnds(old(State()), cycles) ==> fbuffer[..] == old(fbuffer[..])
    {
      UpdateKeypad(keys);
      CountCycles(cycles);
      if io.ly >= LinesPerFrame {
        EndFrame();
        UpdateTileMap();
      }
    }

    /** The cycle and line counting of `GPU::step`. */
    method CountCycles(cycles: nat)
      requires Valid()
      modifies this
      ensures State() == Tick(old(State()), cycles)
    {
      cycle := cycle + cycles;
      if cycle > CyclesPerLine {
        io := io.(ly := io.ly + 1);
        cycle := 0;
      }
    }

    /** `ly` back to 0 and interrupt bit 0 raised. */
    method EndFrame()
      modifies this
      ensures State() == old(State()).(io := old(io).(ly := 0), interrupt := old(interrupt) | 0x01)
    {
      io := io.(ly := 0);
      interrupt := interrupt | 0x01;
    }
  }
}

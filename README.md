# TheSamBoy core in Dafny

A Dafny model of the deterministic core of TheSamBoy, a Game Boy emulator written in Rust. It covers:

- **The CPU register file.** Eight 8-bit registers, `pc` and `sp`, the pair views AF/BC/DE/HL, and the Z/N/H/C flags in bits 7–4 of `f`.
- **The ALU helpers.** `inc`, `dec`, the signed add of a byte to a word, and the nibble swap.
- **The memory bus.** It decodes a 16-bit address to cartridge ROM (fixed bank 0 and a switchable bank), video RAM, cartridge RAM, two work-RAM windows, the echo region, the I/O register file and high RAM. It also provides little-endian word access and the bank-switch write at 0x2000.
- **The CPU step.** Fetch the opcode at `pc`, move `pc` past the entry, run the handler, and either count its cycles or, for the "unknown opcode" sentinel, skip one more byte. The stack pushes and pops go through the bus.
- **The opcode handlers.** Loads, jumps, calls, returns, restarts, increments and decrements, the control handlers, the error handlers and both versions of `prefix_cb`.
- **The peripheral register files.**
  - The LCD controller's registers, scanline counter, interrupt latch and background renderer, which draws the 32×32 tile map into a 256×256 framebuffer.
  - The timer registers.
  - The serial-port registers.

## Form

The model follows the form of the Rust code:

- **State the source mutates in place is a `class`.** Each such class pairs with a value datatype (`XState`) and a `State()` function. Every mutating method says `State() == old(State()).<pure update>`.
- **The pure updates carry the meaningful contracts.** Lemmas beside them state round trips, "only this field changes", and bounds.
- **Each opcode handler is a pure effect and a method.** The effect is `XEffect(s: CpuState): Outcome` (new state plus returned cycle count). The method on the `Cpu` object is proved equal to it.
- **Dispatch is pure and imperative.** `Dispatch.Run` is the pure dispatch and `Dispatch.Exec` the imperative one. `Dispatch.Step` is `CPU::step`.
- **The GPU's framebuffer is an `array<bv32>`.** `write_tile` and `update_tile_map` are the source's nested loops. Their invariants say which pixels are painted so far.
- **Integers keep the source's widths.** Bytes are `bv8` and words `bv16`, so `wrapping_add`/`wrapping_sub` and plain `u16` `+` behave as in the source. Cycle counts (`usize`) are `nat`.
- **A Rust panic becomes a `requires`.** Examples:
  - the `u16` overflow of `idx + 1` in `read_word`/`write_word` becomes `idx < 0xFFFF`;
  - an out-of-bounds index becomes a bank below 2 or 8.

## How the model reads the code

Where the source and its description differ, the model follows the code:

- **Tile map selection.** When LCDC bit 6 is clear, `update_tile_map` reads tile ids from the map at 0x1C00 as unsigned numbers. When it is set, it reads them from 0x1800 as signed offsets from 0x1000. The model does exactly this.
- **The bus does not reach the peripherals.** It decodes 0xFF00–0xFF7F and 0xFFFF through the small `IORegisters` file, which answers only SB and SC. It does not reach the LCD controller, the timer or the serial port. Those three stand on their own here, as in the code.
- **High RAM is write-only.** Writes to 0xFF80–0xFFFE are stored, but reads answer 0, because the high-RAM read arm is commented out.
- **No DMA.** There is no transfer at 0xFF46.

Some calls in the handlers name things `cpu.rs` does not declare. The model reads them as follows:

- `interrupts`, `halted` and `stopped` are boolean fields of the CPU.
- `exec` runs the handler.
- `stack_push` is `stack_push_word`, and `stack_pop` is `stack_pop_word`.

`src/gb/opcodes/opfuncs.rs` is an older handler set:

- Its jump, call, return and restart handlers (lines 65–217) are the same code as those of `src/gb/opcodes/ops/jumps.rs`. The `Jumps` members model both.
- Its `reti` differs, because its `ei` does nothing. `LegacyOps.Reti` models it.
- Its control handlers are constant returns (`LegacyOps`).
- Its `prefix_cb` is `Dispatch.LegacyPrefixCbEffect`.

The opcode tables are not modelled by content. `Dispatch.Step` takes the main table and the CB table as parameters: sequences of 256 `OpCode(code, size, handler)` records. No entry of the CB table may itself be a prefix handler.

## Model

| member | source | states |
|---|---|---|
| Bits.Join | src/gb/hardware/registers.rs:92-106 | the joined word has `h` as its high byte and `l` as its low byte |
| Bits.JoinSplit | src/gb/hardware/registers.rs:92-127 | splitting a word into its high and low byte and joining them gives the word back |
| Bits.Signed | src/gb/opcodes/ops/jumps.rs:6 | the `as i8` reading of a byte is in [-128, 128) and congruent to the byte modulo 256 |
| Bits.SignExtend | src/gb/opcodes/ops/math.rs:9 | `as i16 as u16` keeps the low byte and fills the high byte with copies of bit 7 |
| Bits.SignExtendValue | src/gb/opcodes/ops/math.rs:9 | the extended word, read unsigned, is the signed byte modulo 2^16 |
| Registers.WithFlagBit | src/gb/hardware/registers.rs:44-50 | after setting bit `b` to `v`, bit `b` reads `v` and every other bit of `f` is unchanged |
| Registers.WithFlagBitKeepsLowNibble | src/gb/hardware/registers.rs:44-50 | setting one of the four flags keeps the low nibble of `f` |
| Registers.RegisterFile.Set | src/gb/hardware/registers.rs:4-20 | assigning an 8-bit register: it reads the new value; every other register, `pc`, `sp` and `f` are unchanged |
| Registers.RegisterFile.SetPair | src/gb/hardware/registers.rs:109-127 | the pair reads back the value; its first register gets the high byte and its second the low byte; the other pairs, `pc` and `sp` are unchanged |
| Registers.RegisterFile.SetFlag | src/gb/hardware/registers.rs:44-50 | the flag reads the new value and only `f` changes |
| Registers.PairRoundTrip | src/gb/hardware/registers.rs:92-127 | `get_xx` after `set_xx(v)` returns `v` for AF, BC, DE and HL |
| Registers.SetPairOwnValue | src/gb/hardware/registers.rs:92-127 | setting a pair to its own value changes nothing |
| Registers.SetAfKeepsLowNibble | src/gb/hardware/registers.rs:109-112 | `set_af` stores the whole low byte in `f`, low nibble included, and AF reads back the value |
| Registers.RegisterFile.Z | src/gb/hardware/registers.rs:53-55 | Z is bit 7 of `f` |
| Registers.RegisterFile.N | src/gb/hardware/registers.rs:62-64 | N is bit 6 of `f` |
| Registers.RegisterFile.Hc | src/gb/hardware/registers.rs:71-73 | H is bit 5 of `f` |
| Registers.RegisterFile.Cy | src/gb/hardware/registers.rs:80-82 | C is bit 4 of `f` |
| Registers.RegisterFile.Af | src/gb/hardware/registers.rs:92-94 | `get_af`: `a` is the high byte and `f` the low byte |
| Registers.RegisterFile.Bc | src/gb/hardware/registers.rs:96-98 | `get_bc`: `b` is the high byte and `c` the low byte |
| Registers.RegisterFile.De | src/gb/hardware/registers.rs:100-102 | `get_de`: `d` is the high byte and `e` the low byte |
| Registers.RegisterFile.Hl | src/gb/hardware/registers.rs:104-106 | `get_hl`: `h` is the high byte and `l` the low byte |
| Registers.RegisterFile.GetPair | src/gb/hardware/registers.rs:92-106 | the named pair, its first register high and its second low |
| Registers.RegisterFile.Get | src/gb/hardware/registers.rs:8-19 | every 8-bit register is the matching half of its pair: A, B, D, H high, C, E, L low |
| Registers.Registers.Init | src/gb/hardware/registers.rs:23-36 | `pc` is 0, `sp` is 0xFFFE and every 8-bit register is 0 |
| Registers.Registers.SetFlagBit | src/gb/hardware/registers.rs:44-50 | the or/and-complement update is the flag update of the register file |
| Registers.Registers.SetZFlag | src/gb/hardware/registers.rs:57-59 | Z is bit 7 |
| Registers.Registers.SetNFlag | src/gb/hardware/registers.rs:66-68 | N is bit 6 |
| Registers.Registers.SetHFlag | src/gb/hardware/registers.rs:75-77 | H is bit 5 |
| Registers.Registers.SetCFlag | src/gb/hardware/registers.rs:84-86 | C is bit 4 |
| Registers.Registers.SetAf | src/gb/hardware/registers.rs:109-112 | the shift-and-mask assignment is the AF pair update |
| Registers.Registers.SetBc | src/gb/hardware/registers.rs:114-117 | the shift-and-mask assignment is the BC pair update |
| Registers.Registers.SetDe | src/gb/hardware/registers.rs:119-122 | the shift-and-mask assignment is the DE pair update |
| Registers.Registers.SetHl | src/gb/hardware/registers.rs:124-127 | the shift-and-mask assignment is the HL pair update |
| Registers.Registers.Put | src/gb/hardware/registers.rs:4-20 | a handler's assignment to one 8-bit register field |
| Registers.Registers.PutPair | src/gb/hardware/registers.rs:109-127 | the four pair setters, chosen by the pair |
| Math.AddI8ToU16 | src/gb/opcodes/ops/math.rs:8-15 | the sum is `lhs` plus the sign-extended byte, wrapping; Z and N are cleared; H iff the low nibbles sum past 0xF; C iff the low bytes sum past 0xFF; only `f` changes |
| Math.Inc | src/gb/opcodes/ops/math.rs:17-23 | result `v + 1` wrapping; Z iff the result is 0; H iff its low nibble is 0; N cleared; C and every other register kept |
| Math.Dec | src/gb/opcodes/ops/math.rs:25-31 | result `v - 1` wrapping; Z iff the result is 0; H iff its low nibble is 0xF; N set; C and every other register kept |
| Math.IncDecWrap | src/gb/opcodes/ops/math.rs:17-31 | the increment wraps to 0 exactly at 0xFF and otherwise grows; the decrement wraps to 0xFF exactly at 0 and otherwise shrinks |
| Math.DecUndoesInc | src/gb/opcodes/ops/math.rs:17-31 | `dec(inc(v)) == v` and `inc(dec(v)) == v` for every byte |
| Math.IncDecExamples | src/gb/opcodes/ops/math.rs:17-31 | 0x0F→0x10 with H; 0xFF→0x00 with Z and H; 0x01→0x00 with Z and N; 0x00→0xFF with H |
| Math.AluAddI8ToU16 | src/gb/opcodes/ops/math.rs:8-15 | the method returns the sum and sets the flags exactly as `AddI8ToU16` |
| Math.AluInc | src/gb/opcodes/ops/math.rs:17-23 | the method returns the increment and sets the flags exactly as `Inc` |
| Math.AluDec | src/gb/opcodes/ops/math.rs:25-31 | the method returns the decrement and sets the flags exactly as `Dec` |
| Math.IncREffect | src/gb/opcodes/ops/math.rs:37-78 | `inc_x`: the register is incremented, `f` gets the flags of `inc`, every other register, `pc`, `sp`, the bus and the latches are unchanged; 4 cycles |
| Math.DecREffect | src/gb/opcodes/ops/math.rs:81-122 | `dec_x`: the register is decremented, `f` gets the flags of `dec`, nothing else changes; 4 cycles |
| Math.IncHlEffect | src/gb/opcodes/ops/math.rs:67-73 | the byte at HL is read, incremented and written back through the bus; only the bus and the flags change; 12 cycles |
| Math.DecHlEffect | src/gb/opcodes/ops/math.rs:111-117 | the byte at HL is read, decremented and written back; only the bus and the flags change; 12 cycles |
| Math.IncHlInRam | src/gb/opcodes/ops/math.rs:67-73 | with HL in RAM the byte at HL reads back incremented, and H and L are unchanged |
| Math.DecHlUndoesIncHl | src/gb/opcodes/ops/math.rs:67-117 | `inc_hl` then `dec_hl` restores the byte at HL in RAM |
| Math.IncR | src/gb/opcodes/ops/math.rs:37-78 | the handler on the CPU object has exactly the effect `IncREffect` |
| Math.DecR | src/gb/opcodes/ops/math.rs:81-122 | the handler on the CPU object has exactly the effect `DecREffect` |
| Math.IncHl | src/gb/opcodes/ops/math.rs:67-73 | the handler on the CPU object has exactly the effect `IncHlEffect` |
| Math.DecHl | src/gb/opcodes/ops/math.rs:111-117 | the handler on the CPU object has exactly the effect `DecHlEffect` |
| Bit.Swap | src/gb/opcodes/ops/bit.rs:30-39 | the result's high nibble is the operand's low nibble and the other way round; Z iff the operand is 0; N, H and C cleared; only `f` changes |
| Bit.SwapInvolution | src/gb/opcodes/ops/bit.rs:30-39 | swapping twice gives the byte back |
| Bit.AluSwap | src/gb/opcodes/ops/bit.rs:30-39 | the method returns the swapped byte and sets the four flags as `Swap` |
| Bit.SwapAEffect | src/gb/opcodes/ops/bit.rs:59-62 | `a` gets the swapped value and `f` the swap's flags; no other register, the bus or a latch changes; 8 cycles |
| Bit.SwapATwice | src/gb/opcodes/ops/bit.rs:59-62 | `swap_a` twice restores `a` |
| Bit.SwapA | src/gb/opcodes/ops/bit.rs:59-62 | the handler on the CPU object has exactly the effect `SwapAEffect` |
| Bit.BluStub | src/gb/opcodes/ops/bit.rs:6-55 | the unimplemented helpers answer 0 and modify nothing, flags included |
| Cartridge.CartridgeState.SetBank | src/gb/cartridge.rs:52-54 | the bank register takes the value; ROM and RAM are unchanged |
| Cartridge.CartridgeState.WriteRamByte | src/gb/cartridge.rs:66-72 | `read_ram_byte(i)` then returns the value; every other RAM byte, all ROM and the bank are unchanged |
| Cartridge.CartridgeState.Name | src/gb/cartridge.rs:75-80 | the name is the 15 bytes 0x0134..=0x0142 of bank 0 |
| Cartridge.Unloaded | src/gb/cartridge.rs:29-34 | bank 1 selected; 256 zeroed ROM banks of 0x4000 bytes; 0x2000 zeroed RAM bytes |
| Cartridge.CartridgeState.GetBank | src/gb/cartridge.rs:48-50 | a plain field read with no contract of its own; `SetBank` states that it returns what was stored, for every `u8` including 0 |
| Cartridge.CartridgeState.ReadByte | src/gb/cartridge.rs:57-59 | a plain read of bank 0 with no contract of its own; `ReadByteIgnoresBank` states that the bank register does not affect it |
| Cartridge.CartridgeState.ReadBankByte | src/gb/cartridge.rs:61-63 | in bounds for every `u8` bank number; with bank 0 selected it reads what `read_byte` reads |
| Cartridge.CartridgeState.ReadRamByte | src/gb/cartridge.rs:66-68 | a plain read of cartridge RAM with no contract of its own; `WriteRamByte` states that it reads back what was written |
| Cartridge.ReadByteIgnoresBank | src/gb/cartridge.rs:57-59 | `read_byte` reads bank 0 whatever bank is selected |
| Cartridge.ReadBankByteSelects | src/gb/cartridge.rs:61-63 | after selecting bank `n`, `read_bank_byte(i)` is byte `i` of bank `n`, in bounds for every `u8` |
| Cartridge.Cartridge.Blank | src/gb/cartridge.rs:29-34 | the object is the unloaded cartridge |
| Cartridge.Cartridge.SetBank | src/gb/cartridge.rs:52-54 | the in-place update is `CartridgeState.SetBank` |
| Cartridge.Cartridge.WriteRamByte | src/gb/cartridge.rs:70-72 | the in-place update is `CartridgeState.WriteRamByte` |
| WorkRam.WorkRamState.SetBank | src/gb/hardware/work_ram.rs:34-36 | the bank register takes the value; the banks are unchanged |
| WorkRam.WorkRamState.WriteByte | src/gb/hardware/work_ram.rs:43-45 | `read_byte(i)` then returns the value; every other byte of bank 0 and every other bank are unchanged |
| WorkRam.WorkRamState.WriteBankByte | src/gb/hardware/work_ram.rs:52-54 | `read_bank_byte(i)` then returns the value; every other byte of the selected bank and every other bank are unchanged |
| WorkRam.InitialWorkRam | src/gb/hardware/work_ram.rs:19-24 | eight zeroed banks of 0x4000 bytes, bank 1 selected |
| WorkRam.SelectedBankReads | src/gb/hardware/work_ram.rs:34-50 | after `set_bank(n)` for any of the eight banks, `read_bank_byte(i)` is byte `i` of bank `n` |
| WorkRam.WorkRamState.GetBank | src/gb/hardware/work_ram.rs:30-32 | a plain field read with no contract of its own; `SetBank` states that it returns what was stored |
| WorkRam.WorkRamState.ReadByte | src/gb/hardware/work_ram.rs:39-41 | a plain read of bank 0 with no contract of its own; `WriteByte` and `BankWriteSparesBankZero` state what it then reads |
| WorkRam.BankWriteSparesBankZero | src/gb/hardware/work_ram.rs:43-54 | with a bank other than 0 selected, `write_bank_byte` leaves every byte of bank 0 as it was |
| WorkRam.WorkRamState.ReadBankByte | src/gb/hardware/work_ram.rs:48-50 | with bank 0 selected, `read_bank_byte(i) == read_byte(i)` |
| WorkRam.WorkRam.Init | src/gb/hardware/work_ram.rs:19-24 | the object is the initial work RAM |
| WorkRam.WorkRam.SetBank | src/gb/hardware/work_ram.rs:34-36 | the in-place update is `WorkRamState.SetBank` |
| WorkRam.WorkRam.WriteByte | src/gb/hardware/work_ram.rs:43-45 | the in-place update is `WorkRamState.WriteByte` |
| WorkRam.WorkRam.WriteBankByte | src/gb/hardware/work_ram.rs:52-54 | the in-place update is `WorkRamState.WriteBankByte` |
| Gpu.VramState.SetBank | src/gb/gpu.rs:29-31 | the bank register takes the value; the banks are unchanged |
| Gpu.VramState.WriteVramByte | src/gb/gpu.rs:38-40 | `read_vram_byte(i)` then returns the value; every other byte of the selected bank and the other bank are unchanged |
| Gpu.InitialVram | src/gb/gpu.rs:17-22 | two zeroed banks of 0x2000 bytes, bank 0 selected |
| Gpu.SelectedBankReads | src/gb/gpu.rs:29-36 | after `set_bank(n)` with `n` 0 or 1, `read_vram_byte(i)` is byte `i` of bank `n` |
| Gpu.VramState.GetBank | src/gb/gpu.rs:25-27 | a plain field read with no contract of its own; `SetBank` states that it returns what was stored |
| Gpu.VramState.ReadVramByte | src/gb/gpu.rs:34-36 | a plain read of the selected bank with no contract of its own; `WriteVramByte` and `WriteSparesOtherBank` state what it then reads |
| Gpu.WriteSparesOtherBank | src/gb/gpu.rs:38-40 | a write to the selected bank is invisible through the other bank |
| Gpu.Gpu.Init | src/gb/gpu.rs:17-22 | the object is the initial VRAM |
| Gpu.Gpu.SetBank | src/gb/gpu.rs:29-31 | the in-place update is `VramState.SetBank` |
| Gpu.Gpu.WriteVramByte | src/gb/gpu.rs:38-40 | the in-place update is `VramState.WriteVramByte` |
| IoRegisters.IoState.ReadByte | src/gb/hardware/io_registers.rs:83-95 | 0xFF01 answers `sb`, 0xFF02 answers `sc`, every other address answers 0 |
| IoRegisters.IoState.WriteByte | src/gb/hardware/io_registers.rs:97-108 | 0xFF01 sets `sb`, 0xFF02 sets `sc`, every other address changes nothing |
| IoRegisters.SerialRoundTrip | src/gb/hardware/io_registers.rs:83-108 | SB and SC read back what was written |
| IoRegisters.SerialIndependent | src/gb/hardware/io_registers.rs:97-108 | a write leaves every other address reading as before |
| IoRegisters.InterruptEnableUnobservable | src/gb/hardware/io_registers.rs:89-92 | 0xFFFF reads 0 and a write to it changes nothing, so `ienable` is never observable |
| IoRegisters.IoRegisters.Init | src/gb/hardware/io_registers.rs:42-78 | every register is 0 |
| IoRegisters.IoRegisters.WriteByte | src/gb/hardware/io_registers.rs:97-108 | the in-place update is `IoState.WriteByte` |
| MemoryBus.BusState.WriteByte | src/gb/hardware/memory_bus.rs:85-124 | the write keeps the component sizes and bank ranges; what it stores is `WriteIsStore` |
| MemoryBus.BusState.WriteWord | src/gb/hardware/memory_bus.rs:137-143 | the word write keeps the component sizes and bank ranges; what it stores is `WordWriteIsStores` |
| MemoryBus.BusState.ReadLocation | src/gb/hardware/memory_bus.rs:39-82 | the cell each range is read from: ROM bank 0, the selected ROM bank at `idx - 0x4000`, VRAM, cartridge RAM, work-RAM bank 0, the selected work-RAM bank, the echo 0x2000 lower, the I/O file, or nothing |
| MemoryBus.BusState.WriteLocation | src/gb/hardware/memory_bus.rs:85-124 | the cell each range is written to: the bank register at 0x2000, VRAM, cartridge RAM, the two work-RAM windows, the echo, the I/O file, high RAM, or nothing |
| MemoryBus.BusState.Store | src/gb/hardware/memory_bus.rs:88-118 | storing into one cell keeps the bus well formed; a cell outside work RAM leaves work RAM as it was, and one outside VRAM leaves VRAM |
| MemoryBus.BusState.ReadByte | src/gb/hardware/memory_bus.rs:39-82 | every read answers the value of the cell `ReadLocation` gives for the address |
| MemoryBus.BusState.ReadWord | src/gb/hardware/memory_bus.rs:130-135 | the byte at `idx + 1` is the high byte and the byte at `idx` the low byte |
| MemoryBus.WriteIsStore | src/gb/hardware/memory_bus.rs:85-124 | every write is a store into its write location |
| MemoryBus.StoreThenValue | src/gb/hardware/memory_bus.rs:85-124 | a store changes its own cell, when storable, and no other cell |
| MemoryBus.StoreThenVram | src/gb/hardware/memory_bus.rs:91 | a store changes VRAM byte `o` only when it is that cell |
| MemoryBus.StoreThenExtRam | src/gb/hardware/memory_bus.rs:94 | a store changes cartridge RAM byte `o` only when it is that cell |
| MemoryBus.StoreThenWram | src/gb/hardware/memory_bus.rs:97-100 | a store changes work-RAM byte `o` of bank `b` only when it is that cell |
| MemoryBus.StoreThenHighRam | src/gb/hardware/memory_bus.rs:115 | a store changes high-RAM byte `o` only when it is that cell |
| MemoryBus.StoreThenIoPort | src/gb/hardware/memory_bus.rs:112 | a store changes an I/O port only when it is that port and the port stores |
| MemoryBus.StoreKeepsReadLocation | src/gb/hardware/memory_bus.rs:39-88 | only a bank switch moves where reads are answered from |
| MemoryBus.ReadAfterWrite | src/gb/hardware/memory_bus.rs:39-124 | for every pair of addresses: a read after a write answers the written byte when it reads the storable cell the write stored into, and otherwise the old value of the cell it now reads |
| MemoryBus.ByteRoundTrip | src/gb/hardware/memory_bus.rs:39-124 | a byte written to an address that stores reads back |
| MemoryBus.RamByteRoundTrip | src/gb/hardware/memory_bus.rs:48-60 | a byte written anywhere in 0x8000–0xFDFF reads back |
| MemoryBus.RamStores | src/gb/hardware/memory_bus.rs:91-103 | video RAM, cartridge RAM, both work-RAM windows and the echo read from where they write |
| MemoryBus.EchoAliases | src/gb/hardware/memory_bus.rs:60-103 | in 0xE000–0xFDFF, reads and writes act as at the address 0x2000 lower |
| MemoryBus.BankSwitch | src/gb/hardware/memory_bus.rs:45-88 | after writing `n` to 0x2000, `read_byte(0x4000 + i)` is byte `i` of ROM bank `n` |
| MemoryBus.IgnoredWrites | src/gb/hardware/memory_bus.rs:85-124 | writes to ROM other than 0x2000 and to 0xFE00–0xFEFF change no state |
| MemoryBus.UnmappedReadsZero | src/gb/hardware/memory_bus.rs:62-80 | OAM, the unusable range and high RAM read 0 |
| MemoryBus.HighRamWrite | src/gb/hardware/memory_bus.rs:115 | a high-RAM write is stored in `hram`, yet the address still reads 0 |
| MemoryBus.StoreKeepsWriteLocation | src/gb/hardware/memory_bus.rs:85-124 | no store moves where writes go |
| MemoryBus.WordWriteIsStores | src/gb/hardware/memory_bus.rs:137-143 | a word write stores the high byte at `idx + 1`, then the low byte at `idx` |
| MemoryBus.WordRoundTrip | src/gb/hardware/memory_bus.rs:130-143 | a word written where both bytes store, in different cells, reads back little-endian |
| MemoryBus.WramWordRoundTrip | src/gb/hardware/memory_bus.rs:130-143 | a word written anywhere in 0xC000–0xDFFE reads back |
| MemoryBus.MemoryBus.Init | src/gb/hardware/memory_bus.rs:25-33 | the bus takes the loaded cartridge, and every other component starts in its initial state |
| MemoryBus.MemoryBus.ReadByte | src/gb/hardware/memory_bus.rs:39-82 | a read on the bus object is the value of the cell the address reads from |
| MemoryBus.MemoryBus.ReadWord | src/gb/hardware/memory_bus.rs:130-135 | a word read on the bus object: high byte from `idx + 1`, low byte from `idx` |
| MemoryBus.MemoryBus.WriteByte | src/gb/hardware/memory_bus.rs:85-124 | the in-place dispatch to the components is `BusState.WriteByte` |
| MemoryBus.MemoryBus.WriteHighRam | src/gb/hardware/memory_bus.rs:115 | the in-place high-RAM store changes exactly that byte |
| MemoryBus.MemoryBus.WriteWord | src/gb/hardware/memory_bus.rs:137-143 | the two in-place byte writes are `BusState.WriteWord` |
| Cpu.CpuState.ReadProgByte | src/gb/cpu.rs:67-69 | the byte at `pc - d`, wrapping |
| Cpu.CpuState.ReadProgWord | src/gb/cpu.rs:71-73 | the word at `pc - d`: high byte from `pc - d + 1`, low byte from `pc - d` |
| Cpu.CpuState.TopByte | src/gb/cpu.rs:52-53 | the byte a pop reads is the value of the cell the bus reads at `sp` |
| Cpu.CpuState.TopWord | src/gb/cpu.rs:58-59 | the word a pop reads: high byte from `sp + 1`, low byte from `sp` |
| Cpu.CpuState.PushByte | src/gb/cpu.rs:42-45 | the push keeps the bus well formed; what it writes and how it moves `sp` are stated by `PushByteThenTop`, `PopUndoesPush` and `PushPopByte` |
| Cpu.CpuState.PushWord | src/gb/cpu.rs:47-50 | the push keeps the bus well formed; what it writes and how it moves `sp` are stated by `PushWordThenTop`, `PopUndoesPush` and `PushPopWord` |
| Cpu.CpuState.Popped | src/gb/cpu.rs:52-62 | a pop moves only `sp`, up by the byte count |
| Cpu.PushByteThenTop | src/gb/cpu.rs:42-56 | wherever the bus stores the byte at `sp - 1`, a pushed byte is the byte a pop reads next |
| Cpu.PushWordThenTop | src/gb/cpu.rs:47-62 | wherever the bus stores both bytes below `sp` in two distinct cells, a pushed word is the word a pop reads next |
| Cpu.PopUndoesPush | src/gb/cpu.rs:42-62 | a pop of one or two bytes restores the registers a push of the same size moved |
| Cpu.PushPopByte | src/gb/cpu.rs:42-56 | with the stack byte in RAM, a pushed byte pops back and `sp` is restored |
| Cpu.PushPopWord | src/gb/cpu.rs:47-62 | with both stack bytes in work RAM, a pushed word pops back and `sp` is restored |
| Cpu.Cpu.Init | src/gb/cpu.rs:16-22 | a fresh bus over the loaded cartridge, registers at reset, no cycles, every latch clear |
| Cpu.Cpu.WriteByte | src/gb/hardware/memory_bus.rs:85-124 | a bus byte write through the CPU changes only the bus |
| Cpu.Cpu.WriteWord | src/gb/hardware/memory_bus.rs:137-143 | a bus word write through the CPU changes only the bus |
| Cpu.Cpu.Put | src/gb/hardware/registers.rs:4-20 | a register assignment through the CPU changes only that register |
| Cpu.Cpu.PutPair | src/gb/hardware/registers.rs:109-127 | a pair assignment through the CPU changes only that pair |
| Cpu.Cpu.PutSp | src/gb/cpu.rs:43 | an `sp` assignment changes only `sp` |
| Cpu.Cpu.PutPc | src/gb/cpu.rs:26 | a `pc` assignment changes only `pc` |
| Cpu.Cpu.PutFlag | src/gb/hardware/registers.rs:44-50 | a flag update through the CPU changes only `f` |
| Cpu.Cpu.StackPushByte | src/gb/cpu.rs:42-45 | the in-place push is `CpuState.PushByte` |
| Cpu.Cpu.StackPushWord | src/gb/cpu.rs:47-50 | the in-place push is `CpuState.PushWord` |
| Cpu.Cpu.StackPopByte | src/gb/cpu.rs:52-56 | returns the byte at `sp`; then only `sp` moves up by one |
| Cpu.Cpu.StackPopWord | src/gb/cpu.rs:58-62 | returns the word at `sp`; then only `sp` moves up by two |
| Errors.UnknownEffect | src/gb/opcodes/ops/errors.rs:3-8 | the state is untouched and the answer is the sentinel `usize::MAX` |
| Errors.UnusedEffect | src/gb/opcodes/ops/errors.rs:10-13 | the state is untouched and the answer is 0 |
| Errors.Unknown | src/gb/opcodes/opfuncs.rs:7-12 | the handler has exactly the effect `UnknownEffect` |
| Errors.Unused | src/gb/opcodes/opfuncs.rs:14-17 | the handler has exactly the effect `UnusedEffect` |
| Control.NopEffect | src/gb/opcodes/ops/control.rs:4-6 | nothing changes; 4 cycles |
| Control.StopEffect | src/gb/opcodes/ops/control.rs:8-14 | `stopped` rises iff interrupts are enabled; nothing else changes; 4 cycles |
| Control.HaltEffect | src/gb/opcodes/ops/control.rs:16-23 | `halted` rises iff interrupts are enabled; nothing else changes; 4 cycles |
| Control.DiEffect | src/gb/opcodes/ops/control.rs:34-37 | interrupts are disabled; nothing else changes; 4 cycles |
| Control.EiEffect | src/gb/opcodes/ops/control.rs:39-42 | interrupts are enabled; nothing else changes; 4 cycles |
| Control.DiEiIdempotent | src/gb/opcodes/ops/control.rs:34-42 | running `di` or `ei` twice is running it once |
| Control.LatchesNeedInterrupts | src/gb/opcodes/ops/control.rs:8-42 | with interrupts disabled `stop` and `halt` are `nop`; after `ei` they raise their latch |
| Control.Nop | src/gb/opcodes/ops/control.rs:4-6 | the handler has exactly the effect `NopEffect` |
| Control.Stop | src/gb/opcodes/ops/control.rs:8-14 | the handler has exactly the effect `StopEffect` |
| Control.Halt | src/gb/opcodes/ops/control.rs:16-23 | the handler has exactly the effect `HaltEffect` |
| Control.Di | src/gb/opcodes/ops/control.rs:34-37 | the handler has exactly the effect `DiEffect` |
| Control.Ei | src/gb/opcodes/ops/control.rs:39-42 | the handler has exactly the effect `EiEffect` |
| Loads.LdPairD16Effect | src/gb/opcodes/ops/loads.rs:7-20 | the pair gets the word at `pc - 2`; the other pairs, `pc`, `sp`, the bus and the latches are unchanged; 12 cycles |
| Loads.LdSpD16Effect | src/gb/opcodes/ops/loads.rs:22-25 | `sp` gets the word at `pc - 2` and nothing else changes; 12 cycles |
| Loads.LdA16SpEffect | src/gb/opcodes/ops/loads.rs:28-32 | `sp` is written little-endian at the word read from `pc - 2`; only the bus changes; 20 cycles |
| Loads.LdHlSpPlusR8Effect | src/gb/opcodes/ops/loads.rs:34-39 | HL gets `add_i8_to_u16(sp, byte at pc - 1)` and `f` its flags; `sp`, `pc` and the bus are unchanged; 12 cycles |
| Loads.LdHlSpPlusR8Flags | src/gb/opcodes/ops/loads.rs:34-39 | the load leaves Z and N clear |
| Loads.LdSpHlEffect | src/gb/opcodes/ops/loads.rs:41-44 | `sp` gets HL and nothing else changes; 8 cycles |
| Loads.PopPairEffect | src/gb/opcodes/ops/loads.rs:47-70 | the pair gets the word on top of the stack and `sp` moves up by 2; the other pairs and `pc` are unchanged; 12 cycles |
| Loads.PushPairEffect | src/gb/opcodes/ops/loads.rs:73-91 | the pair is pushed as a word: `sp` down by 2 and the word written there; 16 cycles |
| Loads.LdPairAEffect | src/gb/opcodes/ops/loads.rs:96-106 | `a` is written at the address in BC or DE; only the bus changes; 8 cycles |
| Loads.LdHlIncAEffect | src/gb/opcodes/ops/loads.rs:108-113 | `a` is written at the old HL, then HL moves up by one; 8 cycles |
| Loads.LdHlDecAEffect | src/gb/opcodes/ops/loads.rs:115-120 | `a` is written at the old HL, then HL moves down by one; 8 cycles |
| Loads.LdAPairEffect | src/gb/opcodes/ops/loads.rs:123-133 | `a` gets the byte at the address in BC or DE and nothing else changes; 8 cycles |
| Loads.LdAHlIncEffect | src/gb/opcodes/ops/loads.rs:135-140 | `a` gets the byte at the old HL, then HL moves up by one; only `a`, `h` and `l` change; 8 cycles |
| Loads.LdAHlDecEffect | src/gb/opcodes/ops/loads.rs:142-147 | `a` gets the byte at the old HL, then HL moves down by one; only `a`, `h` and `l` change; 8 cycles |
| Loads.LdRD8Effect | src/gb/opcodes/ops/loads.rs:151-164 | the register gets the byte at `pc - 1`; every other register, `f`, `pc` and `sp` are unchanged; 8 cycles |
| Loads.PopPairBytes | src/gb/opcodes/ops/loads.rs:47-70 | `pop_xx` puts the byte at `sp + 1` into the pair's first register and the byte at `sp` into its second; for AF the whole byte, low nibble included, goes into `f` |
| Loads.PushThenPopPair | src/gb/opcodes/ops/loads.rs:47-91 | with the stack in work RAM, `push_xx` then `pop_xx` leaves the pair and `sp` as they were |
| Loads.StoreThenLoadA | src/gb/opcodes/ops/loads.rs:96-133 | `a` stored through BC or DE into RAM loads back: the registers are as before |
| Loads.HlStepsCancel | src/gb/opcodes/ops/loads.rs:108-147 | `ld_hl_inc_a` then `ld_a_hl_dec`, or the other pairing, brings HL back |
| Loads.LdPairD16 | src/gb/opcodes/ops/loads.rs:7-20 | the handler has exactly the effect `LdPairD16Effect` |
| Loads.LdSpD16 | src/gb/opcodes/ops/loads.rs:22-25 | the handler has exactly the effect `LdSpD16Effect` |
| Loads.LdA16Sp | src/gb/opcodes/ops/loads.rs:28-32 | the handler has exactly the effect `LdA16SpEffect` |
| Loads.LdHlSpPlusR8 | src/gb/opcodes/ops/loads.rs:34-39 | the handler has exactly the effect `LdHlSpPlusR8Effect` |
| Loads.LdSpHl | src/gb/opcodes/ops/loads.rs:41-44 | the handler has exactly the effect `LdSpHlEffect` |
| Loads.PopPair | src/gb/opcodes/ops/loads.rs:47-70 | the handler has exactly the effect `PopPairEffect` |
| Loads.PushPair | src/gb/opcodes/ops/loads.rs:73-91 | the handler has exactly the effect `PushPairEffect` |
| Loads.LdPairA | src/gb/opcodes/ops/loads.rs:96-106 | the handler has exactly the effect `LdPairAEffect` |
| Loads.LdHlIncA | src/gb/opcodes/ops/loads.rs:108-113 | the handler has exactly the effect `LdHlIncAEffect` |
| Loads.LdHlDecA | src/gb/opcodes/ops/loads.rs:115-120 | the handler has exactly the effect `LdHlDecAEffect` |
| Loads.LdAPair | src/gb/opcodes/ops/loads.rs:123-133 | the handler has exactly the effect `LdAPairEffect` |
| Loads.LdAHlInc | src/gb/opcodes/ops/loads.rs:135-140 | the handler has exactly the effect `LdAHlIncEffect` |
| Loads.LdAHlDec | src/gb/opcodes/ops/loads.rs:142-147 | the handler has exactly the effect `LdAHlDecEffect` |
| Loads.LdRD8 | src/gb/opcodes/ops/loads.rs:151-164 | the handler has exactly the effect `LdRD8Effect` |
| Jumps.JrTargetWraps | src/gb/opcodes/ops/jumps.rs:5-9 | the 32-bit detour `((pc as i32) + r8) as u16` is `pc` plus the sign-extended byte, wrapping at 16 bits |
| Jumps.JrTarget | src/gb/opcodes/ops/jumps.rs:7 | the source's 32-bit computation, with no contract of its own; `JrTargetWraps` states that it is wrapping 16-bit addition |
| Jumps.JrR8Effect | src/gb/opcodes/ops/jumps.rs:5-9 | `pc` moves by the signed byte at `pc - 1` and nothing else changes; 12 cycles |
| Jumps.JrCcEffect | src/gb/opcodes/ops/jumps.rs:11-29 | the jump is `jr_r8` iff the condition holds; otherwise nothing changes and the cost is 8 |
| Jumps.RetEffect | src/gb/opcodes/ops/jumps.rs:32-34 | `pc` gets the word on top of the stack and `sp` moves up by 2; nothing else changes; 20 cycles |
| Jumps.RetiEffect | src/gb/opcodes/ops/jumps.rs:36-39 | `ret`, then interrupts enabled; 20 cycles |
| Jumps.RetCcEffect | src/gb/opcodes/ops/jumps.rs:41-59 | the return is `ret` iff the condition holds; otherwise nothing changes and the cost is 8 |
| Jumps.CallA16Effect | src/gb/opcodes/ops/jumps.rs:62-66 | `pc` is pushed, then `pc` gets the word at `pc - 2` as the bus reads after the push; only `sp`, `pc` and the bus change; 24 cycles |
| Jumps.CallCcEffect | src/gb/opcodes/ops/jumps.rs:68-86 | the call is `call_a16` iff the condition holds; otherwise nothing changes and the cost is 12 |
| Jumps.JpA16Effect | src/gb/opcodes/ops/jumps.rs:89-91 | `pc` gets the word at `pc - 2` and nothing else changes; 16 cycles |
| Jumps.JpHlEffect | src/gb/opcodes/ops/jumps.rs:93-96 | `pc` gets the word at `pc - HL`, as written, and nothing else changes; 4 cycles |
| Jumps.JpCcEffect | src/gb/opcodes/ops/jumps.rs:98-116 | the jump is `jp_a16` iff the condition holds; otherwise nothing changes and the cost is 12 |
| Jumps.RstEffect | src/gb/opcodes/ops/jumps.rs:119-157 | `pc` is pushed, then `pc` gets the vector; only `sp`, `pc` and the bus change; 32 cycles |
| Jumps.CallPushesReturnAddress | src/gb/opcodes/ops/jumps.rs:62-66 | with the stack in work RAM, the word on top of the stack after a call is the old `pc` |
| Jumps.CallThenRet | src/gb/opcodes/ops/jumps.rs:32-66 | with the stack in work RAM, `ret` after `call_a16` returns to the old `pc` with the old `sp` |
| Jumps.RstPushesReturnAddress | src/gb/opcodes/ops/jumps.rs:119-157 | with the stack in work RAM, the word on top of the stack after a restart is the old `pc` |
| Jumps.RstThenRet | src/gb/opcodes/ops/jumps.rs:32-157 | a restart lands on its vector, and `ret` after it returns to the old `pc` with the old `sp` |
| Jumps.RstVectors | src/gb/opcodes/ops/jumps.rs:119-157 | the restart vectors 0x00, 0x08, …, 0x38 are exactly the multiples of 8 below 0x40 |
| Jumps.JrR8 | src/gb/opcodes/ops/jumps.rs:5-9 | the handler has exactly the effect `JrR8Effect` |
| Jumps.JrCc | src/gb/opcodes/ops/jumps.rs:11-29 | the handler has exactly the effect `JrCcEffect` |
| Jumps.Ret | src/gb/opcodes/ops/jumps.rs:32-34 | the handler has exactly the effect `RetEffect` |
| Jumps.Reti | src/gb/opcodes/ops/jumps.rs:36-39 | the handler has exactly the effect `RetiEffect` |
| Jumps.RetCc | src/gb/opcodes/ops/jumps.rs:41-59 | the handler has exactly the effect `RetCcEffect` |
| Jumps.CallA16 | src/gb/opcodes/ops/jumps.rs:62-66 | the handler has exactly the effect `CallA16Effect` |
| Jumps.CallCc | src/gb/opcodes/ops/jumps.rs:68-86 | the handler has exactly the effect `CallCcEffect` |
| Jumps.JpA16 | src/gb/opcodes/ops/jumps.rs:89-91 | the handler has exactly the effect `JpA16Effect` |
| Jumps.JpHl | src/gb/opcodes/ops/jumps.rs:93-96 | the handler has exactly the effect `JpHlEffect` |
| Jumps.JpCc | src/gb/opcodes/ops/jumps.rs:98-116 | the handler has exactly the effect `JpCcEffect` |
| Jumps.Rst | src/gb/opcodes/ops/jumps.rs:119-157 | the handler has exactly the effect `RstEffect` |
| LegacyOps.Nop | src/gb/opcodes/opfuncs.rs:20-22 | nothing changes; 4 cycles |
| LegacyOps.Stop | src/gb/opcodes/opfuncs.rs:24-27 | nothing changes, no latch rises; 4 cycles |
| LegacyOps.Halt | src/gb/opcodes/opfuncs.rs:29-33 | nothing changes, no latch rises; 4 cycles |
| LegacyOps.Di | src/gb/opcodes/opfuncs.rs:53-56 | nothing changes, the interrupt flag included; 4 cycles |
| LegacyOps.Ei | src/gb/opcodes/opfuncs.rs:58-61 | nothing changes, the interrupt flag included; 4 cycles |
| LegacyOps.Reti | src/gb/opcodes/opfuncs.rs:96-99 | this `reti` has exactly the effect of `ret` |
| LegacyOps.RetiVariantsAgree | src/gb/opcodes/opfuncs.rs:96-99 | the older and newer `reti` agree exactly when interrupts were already enabled |
| Dispatch.Advance | src/gb/cpu.rs:26 | moving `pc` past an entry changes only `pc` |
| Dispatch.RunError | src/gb/opcodes/ops/errors.rs:3-13 | the error handlers leave the state alone; the answer is the sentinel exactly for `unknown`, and 0 for `unused` |
| Dispatch.RunControl | src/gb/opcodes/ops/control.rs:4-42 | a control handler costs 4 and changes neither registers, bus nor cycle counter |
| Dispatch.RunLegacy | src/gb/opcodes/opfuncs.rs:20-99 | the older control handlers are `nop`; the older `reti` costs 20 and leaves the interrupt flag alone |
| Dispatch.RunMath | src/gb/opcodes/ops/math.rs:37-122 | the register forms cost 4, the `(HL)` forms 12 |
| Dispatch.RunLoad | src/gb/opcodes/ops/loads.rs:7-164 | every load costs between 8 and 20 and leaves the cycle counter alone |
| Dispatch.RunJump | src/gb/opcodes/ops/jumps.rs:5-157 | every jump costs between 4 and 32 and leaves the cycle counter alone |
| Dispatch.RunSimple | src/gb/opcodes/opcode.rs:16-18 | a non-prefix handler answers the sentinel exactly when it is `unknown`, and otherwise at most 32 cycles |
| Dispatch.PrefixCbEffect | src/gb/opcodes/ops/control.rs:25-32 | the CB entry for the byte at `pc` runs with `pc` unmoved, and the answer is 4 whatever the entry answered |
| Dispatch.LegacyPrefixCbEffect | src/gb/opcodes/opfuncs.rs:35-51 | the state stays well formed and the cycle counter is kept; the answer is between 4 and 36, the 4 added to the entry's own cycles or charged for an unknown entry (whose skip is `LegacyPrefixCbUnknown`) |
| Dispatch.PrefixRetire | src/gb/opcodes/opfuncs.rs:44-50 | an unknown CB entry skips one more byte and costs 4; any other costs 4 more than it answered |
| Dispatch.Run | src/gb/opcodes/opcode.rs:16-18 | any handler leaves the cycle counter alone and answers the sentinel exactly when it is `unknown`; any other answer is at most 36 |
| Dispatch.StepState | src/gb/cpu.rs:24-37 | the state after one step is well formed |
| Dispatch.Retire | src/gb/cpu.rs:30-35 | after the sentinel `pc` moves one more byte and `cycles` is kept; otherwise `cycles` grows by the answer |
| Dispatch.RunUnknown | src/gb/opcodes/ops/errors.rs:5-8 | the unknown handler changes nothing and answers the sentinel |
| Dispatch.StepUnknown | src/gb/cpu.rs:24-37 | an unknown opcode moves `pc` past its entry and one more byte and changes nothing else, the cycle counter included |
| Dispatch.StepCounts | src/gb/cpu.rs:24-37 | any other opcode adds what its handler answered, at most 36, to the cycle counter |
| Dispatch.LegacyPrefixCbUnknown | src/gb/opcodes/opfuncs.rs:35-51 | the older `prefix_cb` on an unknown CB entry skips the entry and one more byte, and costs 4 |
| Dispatch.PrefixCbNeverSentinel | src/gb/opcodes/ops/control.rs:25-32 | the newer `prefix_cb` answers 4 even for an unknown CB entry |
| Dispatch.ExecError | src/gb/opcodes/ops/errors.rs:3-13 | running an error handler on the CPU is `RunError` |
| Dispatch.ExecControl | src/gb/opcodes/ops/control.rs:4-42 | running a control handler on the CPU is `RunControl` |
| Dispatch.ExecLegacy | src/gb/opcodes/opfuncs.rs:20-99 | running an older control handler on the CPU is `RunLegacy` |
| Dispatch.ExecMath | src/gb/opcodes/ops/math.rs:37-122 | running an increment or decrement handler on the CPU is `RunMath` |
| Dispatch.ExecLoad | src/gb/opcodes/ops/loads.rs:7-164 | running a load handler on the CPU is `RunLoad` |
| Dispatch.ExecJump | src/gb/opcodes/ops/jumps.rs:5-157 | running a jump handler on the CPU is `RunJump` |
| Dispatch.ExecSimple | src/gb/opcodes/opcode.rs:16-18 | running a non-prefix handler on the CPU is `RunSimple` |
| Dispatch.PrefixCbOp | src/gb/opcodes/ops/control.rs:25-32 | the newer `prefix_cb` on the CPU is `PrefixCbEffect` |
| Dispatch.LegacyPrefixCbOp | src/gb/opcodes/opfuncs.rs:35-51 | the older `prefix_cb` on the CPU is `LegacyPrefixCbEffect` |
| Dispatch.FetchEntry | src/gb/cpu.rs:25-26 | returns the table entry for the byte at `pc` and moves `pc` past it |
| Dispatch.Fetch | src/gb/cpu.rs:25 | the table entry for the byte at `pc`, with no contract of its own; `FetchEntry` states it |
| Dispatch.Skip | src/gb/cpu.rs:26 | moves only `pc`, by the entry size, wrapping |
| Dispatch.PrefixFinish | src/gb/opcodes/opfuncs.rs:44-50 | the tail of the older `prefix_cb` is `PrefixRetire` |
| Dispatch.Exec | src/gb/opcodes/opcode.rs:16-18 | running any handler on the CPU is `Run` |
| Dispatch.Step | src/gb/cpu.rs:24-37 | one step on the CPU object is `StepState` |
| Dispatch.StepFinish | src/gb/cpu.rs:30-35 | the tail of `CPU::step` is `Retire` |
| IoGpu.Decode | src/gb/hardware/io/gpu.rs:146-197 | an address selects no register exactly when it is unmapped |
| IoGpu.DecodeInjective | src/gb/hardware/io/gpu.rs:146-197 | distinct mapped addresses select distinct registers |
| IoGpu.LcdRegs.ReadIoByte | src/gb/hardware/io/gpu.rs:146-171 | an unmapped address reads 0 |
| IoGpu.LcdRegs.WriteIoByte | src/gb/hardware/io/gpu.rs:173-197 | an unmapped write changes nothing; a write to LY leaves it 0, any other write leaves LY alone |
| IoGpu.PlainRoundTrip | src/gb/hardware/io/gpu.rs:146-197 | STAT, SCY, SCX, LYC, BGP, OBP0, OBP1, WY, WX and the bank select read back what was written |
| IoGpu.PutSparesOthers | src/gb/hardware/io/gpu.rs:173-197 | a write to one register leaves every other register as it was |
| IoGpu.WriteSparesOthers | src/gb/hardware/io/gpu.rs:146-197 | a write changes no address's reading but its own |
| IoGpu.LyWriteResets | src/gb/hardware/io/gpu.rs:181 | LY reads 0 after any write to 0xFF44 |
| IoGpu.LcdcWriteMerges | src/gb/hardware/io/gpu.rs:177 | LCDC takes bits 3–7 from the value and bits 0–2 from the keypad register |
| IoGpu.KeypadWriteMerges | src/gb/hardware/io/gpu.rs:175 | a keypad write changes bits 4 and 5 only |
| IoGpu.InitialLcd | src/gb/hardware/io/gpu.rs:50-89 | keypad 0xFF, LY 0, cycle 0, no interrupt bits, the banks sized |
| IoGpu.LatchKeys | src/gb/hardware/io/gpu.rs:202-216 | the keypad register gets the keys; interrupt bits only rise; bit 4 rises when a key is pressed; no key, no change |
| IoGpu.Tick | src/gb/hardware/io/gpu.rs:97-102 | `cycle` grows by the cycles; past 6666 LY moves up by one and `cycle` restarts at 0 |
| IoGpu.FrameEndsOnLastLine | src/gb/hardware/io/gpu.rs:97-107 | a frame ends exactly when line 152 runs past 6666 cycles |
| IoGpu.StepState | src/gb/hardware/io/gpu.rs:94-114 | the keypad gets the keys; LY stays below 153; at a frame's end LY is 0 and interrupt bit 0 is set; otherwise LY moves as `Tick` and the interrupt byte is the one `LatchKeys` leaves |
| IoGpu.StepCycleAndFrame | src/gb/hardware/io/gpu.rs:94-107 | the cycle counter restarts at 0 once it passes 6666 and otherwise grows by `cycles`; at a frame's end the interrupt byte is the one the keypad latch left, with bit 0 added and no other bit |
| IoGpu.StepRaisesOnly | src/gb/hardware/io/gpu.rs:94-114 | a step only raises interrupt bits, and a pressed key raises bit 4 |
| IoGpu.PixelIndex | src/gb/hardware/io/gpu.rs:222-228 | the slot is below 65536 and decodes back to `x % 256`, `y % 256` |
| IoGpu.PixelIndexOnto | src/gb/hardware/io/gpu.rs:222-228 | every slot is the index of the pixel its quotient and remainder name |
| IoGpu.PixelIndexInjective | src/gb/hardware/io/gpu.rs:222-228 | two pixels share a slot exactly when their coordinates agree modulo 256 |
| IoGpu.Offset | src/gb/hardware/io/gpu.rs:240-243 | the offset is below 256 and reaches `p` from `base` modulo 256 |
| IoGpu.OffsetUnique | src/gb/hardware/io/gpu.rs:240-243 | that offset is the only one below 256 that does |
| IoGpu.VramAtReads | src/gb/hardware/io/gpu.rs:135-137 | the numeric VRAM index reads what `read_vram_byte` reads |
| IoGpu.TileRow | src/gb/hardware/io/gpu.rs:233-236 | the row word has the first byte of the pair high and the second low |
| IoGpu.Shade | src/gb/hardware/io/gpu.rs:241-242 | a plain definition with no contract of its own; `ShadeIsGrey` states its four grey levels |
| IoGpu.ShadeIsGrey | src/gb/hardware/io/gpu.rs:240-243 | a pixel is one of the four grey levels 0x00, 0x0F, 0x1E, 0x2D in all four bytes, and black exactly when its 2-bit field is 0 |
| IoGpu.TilePixel | src/gb/hardware/io/gpu.rs:240-243 | a plain definition with no contract of its own; `TilePixelHalves` states where its bits come from |
| IoGpu.TilePixelHalves | src/gb/hardware/io/gpu.rs:232-244 | pixels 0 to 3 of a tile row take their 2-bit fields from the row's second byte, pixels 4 to 7 from its first |
| IoGpu.TileAddr | src/gb/hardware/io/gpu.rs:248-269 | LCDC bit 6 clear: 32 × unsigned id from 0x1C00; set: 0x1000 + 32 × signed id from 0x1800; either way the tile's 16 bytes lie below 0x2000 |
| IoGpu.TileOf | src/gb/hardware/io/gpu.rs:252-265 | the map entry covering a pixel is one of the 0x400 entries |
| IoGpu.PaintStep | src/gb/hardware/io/gpu.rs:240-243 | painting one tile pixel extends the painted prefix of the tile by that pixel and touches no other slot |
| IoGpu.TileCell | src/gb/hardware/io/gpu.rs:252-265 | entry `t` is drawn at x = 8t, y = 8·(8t/256): its 8×8 cell covers exactly the pixels whose entry is `t`, at their offsets within the tile |
| IoGpu.TileCorner | src/gb/hardware/io/gpu.rs:253-254 | entry `t`'s corner lands at column 8·(t % 32) and row 8·(t / 32) modulo 256 |
| IoGpu.MapPixel | src/gb/hardware/io/gpu.rs:230-269 | the reference colour of a background pixel, with no contract of its own; `UpdateTileMap` is proved to paint it at every pixel |
| IoGpu.CellOffset | src/gb/hardware/io/gpu.rs:240-243 | a coordinate lies in the 8-pixel cell at `base` exactly when it belongs to that cell, and then at its remainder by 8 |
| IoGpu.SplitUnique | src/gb/hardware/io/gpu.rs:252-265 | a map entry number splits uniquely into row and column |
| IoGpu.MapStep | src/gb/hardware/io/gpu.rs:248-269 | drawing entry `t` where the loop draws it extends the rendered prefix of the map by that entry |
| IoGpu.Gpu.Init | src/gb/hardware/io/gpu.rs:50-89 | a zeroed 65536-slot framebuffer and the initial registers |
| IoGpu.Gpu.GetInterrupt | src/gb/hardware/io/gpu.rs:116-120 | answers the latched bits and clears the latch; nothing else changes |
| IoGpu.Gpu.WriteIoByte | src/gb/hardware/io/gpu.rs:173-197 | the in-place register update is `LcdRegs.WriteIoByte` |
| IoGpu.Gpu.UpdateKeypad | src/gb/hardware/io/gpu.rs:202-216 | the in-place update is `LatchKeys` |
| IoGpu.Gpu.SetPixel | src/gb/hardware/io/gpu.rs:226-228 | the pixel reads back the value and no other slot changes |
| IoGpu.Gpu.GetPixel | src/gb/hardware/io/gpu.rs:222-224 | a plain read of the pixel's slot, with no contract of its own; `SetPixel` states that it reads back what was stored |
| IoGpu.Gpu.WriteTile | src/gb/hardware/io/gpu.rs:230-246 | all 64 pixels of the tile at the address are painted at their offsets from (xpos, ypos), wrapping at 256, and every other slot is as before |
| IoGpu.Gpu.UpdateTileMap | src/gb/hardware/io/gpu.rs:248-269 | every pixel of the framebuffer shows the pixel of the tile its map entry selects |
| IoGpu.Gpu.PaintLowMap | src/gb/hardware/io/gpu.rs:250-257 | the loop over the unsigned map at 0x1C00 renders every pixel |
| IoGpu.Gpu.PaintHighMap | src/gb/hardware/io/gpu.rs:259-266 | the loop over the signed map at 0x1800 renders every pixel |
| IoGpu.Gpu.Step | src/gb/hardware/io/gpu.rs:94-114 | the registers and latch move as `StepState`; at a frame's end every pixel is rendered, otherwise the framebuffer is untouched |
| IoGpu.Gpu.CountCycles | src/gb/hardware/io/gpu.rs:97-102 | the in-place counting is `Tick` |
| IoGpu.Gpu.EndFrame | src/gb/hardware/io/gpu.rs:104-107 | LY goes back to 0 and interrupt bit 0 is raised |
| Timer.TimerState.ReadIoByte | src/gb/hardware/io/timer.rs:45-58 | an unmapped address reads 0 |
| Timer.TimerState.WriteIoByte | src/gb/hardware/io/timer.rs:60-71 | an unmapped write changes nothing, and no write touches the interrupt latch |
| Timer.DivWriteClears | src/gb/hardware/io/timer.rs:62 | DIV reads 0 after any write to it |
| Timer.TimerRoundTrip | src/gb/hardware/io/timer.rs:45-71 | TIMA, TMA and TAC read back what was written |
| Timer.TimerWriteSparesOthers | src/gb/hardware/io/timer.rs:45-71 | a write changes no address's reading but its own |
| Timer.Timer.Init | src/gb/hardware/io/timer.rs:16-25 | every field is 0 |
| Timer.Timer.Step | src/gb/hardware/io/timer.rs:31-33 | the step changes nothing |
| Timer.Timer.GetInterrupt | src/gb/hardware/io/timer.rs:36-40 | the answer is 0, since nothing raises the latch, and the state stays as it was |
| Timer.Timer.WriteIoByte | src/gb/hardware/io/timer.rs:60-71 | the in-place update is `TimerState.WriteIoByte` |
| Serial.SerialState.ReadIoByte | src/gb/hardware/io/serial.rs:41-51 | an unmapped address reads 0 |
| Serial.SerialState.WriteIoByte | src/gb/hardware/io/serial.rs:53-62 | an unmapped write changes nothing, and no write touches the interrupt latch |
| Serial.SerialRoundTrip | src/gb/hardware/io/serial.rs:41-62 | SB and SC read back what was written |
| Serial.SerialWriteSparesOthers | src/gb/hardware/io/serial.rs:41-62 | a write changes no address's reading but its own |
| Serial.Serial.Init | src/gb/hardware/io/serial.rs:14-21 | every field is 0 |
| Serial.Serial.Step | src/gb/hardware/io/serial.rs:27-29 | the step changes nothing |
| Serial.Serial.GetInterrupt | src/gb/hardware/io/serial.rs:31-35 | the answer is 0, since nothing raises the latch, and the state stays as it was |
| Serial.Serial.WriteIoByte | src/gb/hardware/io/serial.rs:53-62 | the in-place update is `SerialState.WriteIoByte` |

## Left out

- `println!` diagnostics are not modelled; they have no effect on state.
- The minifb window is not modelled: window creation, `update_with_buffer` and the `is_key_down` polling in `update_keypad`. It is a foreign UI library. The pressed keys are a byte parameter of `IoGpu.Gpu.Step` and `IoGpu.Gpu.UpdateKeypad`.
- `Cartridge::load` reads the ROM image from a file, which is file I/O. Only the blank cartridge it allocates is modelled (`Cartridge.Unloaded`).
- The UTF-8 validation of `get_name` is a library call. The name is the 15-byte slice.
- `src/main.rs` is not part of this model. It opens a file and drives the loop.
- The contents of `OP_TABLE` and `CB_OP_TABLE` are not shown, so the tables are parameters of the dispatch step. An entry's printable name and its `Display` format are left out.
- Cycle counts are `nat`. The `usize` overflow of `CPU::cycles` and of the LCD `cycle` counter is not modelled, since it happens after 2^64 cycles.
- Rust panics are preconditions rather than modelled aborts:
  - a `u16` overflow in `read_word`/`write_word`, and so in `read_prog_word`, pushes and pops;
  - a VRAM bank above 1 or a work-RAM bank above 7 indexing out of bounds.
- `BusState.Valid` requires the VRAM bank below 2 and the work-RAM bank below 8. The bus itself never changes either bank, and both start in range.
- Interrupt dispatch, halt and stop wake-up, DMA and timer counting do not exist in the code, so they are not modelled.
- IoGpu.Gpu.WriteTile: the tile address is a `nat` whose 16 bytes lie below 0x2000, rather than a `u16` that could wrap. `TileAddr` proves this bound holds for every address `update_tile_map` passes.
- IoGpu.Gpu.Step: the keypad polling is replaced by the `keys` parameter, and the window update at the end of a frame is left out.
- IoGpu.StepState: at a frame's end, the render itself is stated by `IoGpu.Gpu.Step`, not by this function.
- Dispatch.StepState: its own contract only keeps the state well formed. What a step does is stated by `Dispatch.StepUnknown`, `Dispatch.StepCounts` and `Dispatch.Retire`.
- MemoryBus.BusState.WriteByte: its own contract only keeps the state well formed. What it stores is stated by `MemoryBus.WriteIsStore` and the lemmas after it.
- MemoryBus.BusState.WriteWord: its own contract only keeps the state well formed. What it stores is stated by `MemoryBus.WordWriteIsStores` and `MemoryBus.WordRoundTrip`.
- Cpu.CpuState.PushByte: its own contract only keeps the state well formed. `Cpu.PushByteThenTop` states that the pushed byte is what a pop reads, wherever the bus stores it; `Cpu.PopUndoesPush` states how `sp` moves.
- Cpu.CpuState.PushWord: its own contract only keeps the state well formed. `Cpu.PushWordThenTop` states that the pushed word is what a pop reads, wherever the bus stores both bytes in distinct cells; `Cpu.PopUndoesPush` states how `sp` moves.
- Jumps.JpHlEffect: it reads the word at `pc - HL`, as the code does, and not HL itself.

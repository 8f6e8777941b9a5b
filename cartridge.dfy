/** The game cartridge: 256 ROM banks of 16 KiB, a selected bank for the
    switchable window, and 8 KiB of external RAM. */
module Cartridge {
  import opened Bits

  const BankCount: nat := 256
  const BankSize: nat := 0x4000
  const ExtRamSize: nat := 0x2000

  /** Offset of the first and one past the last title byte in bank 0. */
  const NameStart: nat := 0x0134
  const NameEnd: nat := 0x0143

  function Zeroes(n: nat): (z: seq<Byte>)
    ensures |z| == n && forall i :: 0 <= i < n ==> z[i] == 0
  {
    seq(n, _ => 0)
  }

  datatype CartridgeState = CartridgeState(romBank: Byte, romBanks: seq<seq<Byte>>, extRam: seq<Byte>)
  {
    /** The sizes the source's arrays have by construction. */
    predicate Valid()
    {
      && |romBanks| == BankCount
      && (forall i :: 0 <= i < |romBanks| ==> |romBanks[i]| == BankSize)
      && |extRam| == ExtRamSize
    }

    function GetBank(): Byte { romBank }

    function SetBank(n: Byte): (s: CartridgeState)
      ensures s.GetBank() == n
      ensures s.romBanks == romBanks && s.extRam == extRam
    {
      this.(romBank := n)
    }

    /** Byte `idx` of bank 0, whichever bank is selected. */
    function ReadByte(idx: Word): Byte
      requires Valid() && idx < 0x4000
    {
      romBanks[0][idx as int]
    }

    /** Byte `idx` of the selected bank; every `u8` bank number is in range,
        and with bank 0 selected it is the byte the fixed window reads. */
    function ReadBankByte(idx: Word): (v: Byte)
      requires Valid() && idx < 0x4000
      ensures romBank == 0 ==> v == ReadByte(idx)
    {
      romBanks[romBank as int][idx as int]
    }

    function ReadRamByte(idx: Word): Byte
      requires Valid() && idx < 0x2000
    {
      extRam[idx as int]
    }

    function WriteRamByte(idx: Word, val: Byte): (s: CartridgeState)
      requires Valid() && idx < 0x2000
      ensures s.Valid()
      ensures s.ReadRamByte(idx) == val
      ensures var i := idx as int; forall j :: 0 <= j < ExtRamSize && j != i ==> s.extRam[j] == extRam[j]
      ensures s.romBanks == romBanks && s.romBank == romBank
    {
      var ram := extRam[idx as int := val];
      assert |ram| == ExtRamSize;
      this.(extRam := ram)
    }

    /** The title slice `0x0134..=0x0142` of bank 0. */
    function Name(): (n: seq<Byte>)
      requires Valid()
      ensures |n| == NameEnd - NameStart == 15
      ensures forall i :: 0 <= i < |n| ==> n[i] == romBanks[0][NameStart + i]
    {
      romBanks[0][NameStart..NameEnd]
    }
  }

  /** All 256 banks and the external RAM zeroed, bank 1 selected. */
  function Unloaded(): (s: CartridgeState)
    ensures s.Valid() && s.romBank == 1
    ensures forall i, j :: 0 <= i < BankCount && 0 <= j < BankSize ==> s.romBanks[i][j] == 0
    ensures forall j :: 0 <= j < ExtRamSize ==> s.extRam[j] == 0
  {
    CartridgeState(1, seq(BankCount, _ => Zeroes(BankSize)), Zeroes(ExtRamSize))
  }

  /** The fixed window does not depend on the bank register. */
  lemma ReadByteIgnoresBank(s: CartridgeState, n: Byte, idx: Word)
    requires s.Valid() && idx < 0x4000
    ensures s.SetBank(n).Valid()
    ensures s.SetBank(n).ReadByte(idx) == s.ReadByte(idx)
  {
  }

  /** After selecting bank `n`, the switchable window shows bank `n`. */
  lemma ReadBankByteSelects(s: CartridgeState, n: Byte, idx: Word)
    requires s.Valid() && idx < 0x4000
    ensures s.SetBank(n).Valid()
    ensures s.SetBank(n).ReadBankByte(idx) == s.romBanks[n as int][idx as int]
  {
  }

  class Cartridge {
    var romBank: Byte
    var romBanks: seq<seq<Byte>>
    var extRam: seq<Byte>

    /** The cartridge as `load` allocates it, before the image is read. */
    constructor Blank()
      ensures State() == Unloaded()
    {
      romBank := 1;
      romBanks := seq(BankCount, _ => Zeroes(BankSize));
      extRam := Zeroes(ExtRamSize);
    }

    function State(): CartridgeState
      reads this
    {
      CartridgeState(romBank, romBanks, extRam)
    }

    method SetBank(n: Byte)
      modifies this
      ensures State() == old(State()).SetBank(n)
    {
      romBank := n;
    }

    method WriteRamByte(idx: Word, val: Byte)
      requires State().Valid() && idx < 0x2000
      modifies this
      ensures State() == old(State()).WriteRamByte(idx, val)
    {
      extRam := extRam[idx as int := val];
    }
  }
}

/** The video RAM that the memory bus maps at 0x8000: two banks of 8 KiB
    and a bank register. */
module Gpu {
  import opened Bits

  const VramBankCount: nat := 2
  const VramBankSize: nat := 0x2000

  datatype VramState = VramState(vramBank: Byte, vramBanks: seq<seq<Byte>>)
  {
    predicate Valid()
    {
      && |vramBanks| == VramBankCount
      && forall i :: 0 <= i < |vramBanks| ==> |vramBanks[i]| == VramBankSize
    }

    function GetBank(): Byte { vramBank }

    function SetBank(n: Byte): (s: VramState)
      ensures s.GetBank() == n && s.vramBanks == vramBanks
    {
      this.(vramBank := n)
    }

    /** The bank that VRAM accesses use. */
    function Selected(): seq<Byte>
      requires Valid() && vramBank < 2
    {
      vramBanks[vramBank as int]
    }

    /** In bounds only for bank 0 or 1 and an index below 0x2000. */
    function ReadVramByte(idx: Word): Byte
      requires Valid() && vramBank < 2 && idx < 0x2000
    {
      vramBanks[vramBank as int][idx as int]
    }

    function WriteVramByte(idx: Word, val: Byte): (s: VramState)
      requires Valid() && vramBank < 2 && idx < 0x2000
      ensures s.Valid() && s.vramBank == vramBank
      ensures s.ReadVramByte(idx) == val
      ensures var i := idx as int; forall j :: 0 <= j < VramBankSize && j != i ==> s.Selected()[j] == Selected()[j]
      ensures forall k :: 0 <= k < VramBankCount && k != vramBank as int ==> s.vramBanks[k] == vramBanks[k]
    {
      var bank := vramBanks[vramBank as int][idx as int := val];
      var banks := vramBanks[vramBank as int := bank];
      assert forall i :: 0 <= i < |banks| ==> |banks[i]| == VramBankSize;
      this.(vramBanks := banks)
    }
  }

  /** Two zeroed banks, bank 0 selected. */
  function InitialVram(): (s: VramState)
    ensures s.Valid() && s.vramBank == 0
    ensures forall i, j :: 0 <= i < VramBankCount && 0 <= j < VramBankSize ==> s.vramBanks[i][j] == 0
  {
    VramState(0, seq(VramBankCount, _ => seq(VramBankSize, _ => 0)))
  }

  /** After `set_bank(n)` with `n` 0 or 1, VRAM reads come from bank `n`. */
  lemma SelectedBankReads(s: VramState, n: Byte, idx: Word)
    requires s.Valid() && n < 2 && idx < 0x2000
    ensures s.SetBank(n).Valid() && s.SetBank(n).ReadVramByte(idx) == s.vramBanks[n as int][idx as int]
  {
  }

  /** A write to the selected bank is invisible through the other bank. */
  lemma WriteSparesOtherBank(s: VramState, idx: Word, val: Byte, j: Word)
    requires s.Valid() && s.vramBank < 2 && idx < 0x2000
    requires j < 0x2000
    ensures s.WriteVramByte(idx, val).SetBank(1 - s.vramBank).ReadVramByte(j)
         == s.SetBank(1 - s.vramBank).ReadVramByte(j)
  {
  }

  class Gpu {
    var vramBank: Byte
    var vramBanks: seq<seq<Byte>>

    constructor Init()
      ensures State() == InitialVram()
    {
      vramBank := 0;
      vramBanks := seq(VramBankCount, _ => seq(VramBankSize, _ => 0));
    }

    function State(): VramState
      reads this
    {
      VramState(vramBank, vramBanks)
    }

    method SetBank(n: Byte)
      modifies this
      ensures State() == old(State()).SetBank(n)
    {
      vramBank := n;
    }

    method WriteVramByte(idx: Word, val: Byte)
      requires State().Valid() && vramBank < 2 && idx < 0x2000
      modifies this
      ensures State() == old(State()).WriteVramByte(idx, val)
    {
      var n := vramBank as int;
      vramBanks := vramBanks[n := vramBanks[n][idx as int := val]];
    }
  }
}

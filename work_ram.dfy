/** Work RAM: eight banks of 16 KiB; bank 0 is fixed, the other window shows
    the selected bank. */
module WorkRam {
  import opened Bits

  const RamBankCount: nat := 8
  const RamBankSize: nat := 0x4000

  datatype WorkRamState = WorkRamState(ramBank: Byte, ramBanks: seq<seq<Byte>>)
  {
    predicate Valid()
    {
      && |ramBanks| == RamBankCount
      && forall i :: 0 <= i < |ramBanks| ==> |ramBanks[i]| == RamBankSize
    }

    function GetBank(): Byte { ramBank }

    function SetBank(n: Byte): (s: WorkRamState)
      ensures s.GetBank() == n && s.ramBanks == ramBanks
    {
      this.(ramBank := n)
    }

    function ReadByte(idx: Word): Byte
      requires Valid() && idx < 0x4000
    {
      ramBanks[0][idx as int]
    }

    /** Byte `idx` of bank `n` replaced by `val`. */
    function Store(n: nat, idx: Word, val: Byte): (s: WorkRamState)
      requires Valid() && n < RamBankCount && idx < 0x4000
      ensures s.Valid() && s.ramBank == ramBank
      ensures s.ramBanks[n][idx as int] == val
      ensures var i := idx as int; forall j :: 0 <= j < RamBankSize && j != i ==> s.ramBanks[n][j] == ramBanks[n][j]
      ensures forall k :: 0 <= k < RamBankCount && k != n ==> s.ramBanks[k] == ramBanks[k]
    {
      var bank := ramBanks[n][idx as int := val];
      var banks := ramBanks[n := bank];
      assert forall i :: 0 <= i < |banks| ==> |banks[i]| == RamBankSize;
      this.(ramBanks := banks)
    }

    function WriteByte(idx: Word, val: Byte): (s: WorkRamState)
      requires Valid() && idx < 0x4000
      ensures s.Valid() && s.ramBank == ramBank
      ensures s.ReadByte(idx) == val
      ensures var i := idx as int; forall j :: 0 <= j < RamBankSize && j != i ==> s.ramBanks[0][j] == ramBanks[0][j]
      ensures forall k :: 0 < k < RamBankCount ==> s.ramBanks[k] == ramBanks[k]
    {
      Store(0, idx, val)
    }

    /** The bank the switchable window shows. */
    function Selected(): seq<Byte>
      requires Valid() && ramBank < 8
    {
      ramBanks[ramBank as int]
    }

    /** Indexing the bank vector panics unless the selected bank exists. */
    /** Byte `idx` of the selected bank; with bank 0 selected it is the
        byte the fixed window reads. */
    function ReadBankByte(idx: Word): (v: Byte)
      requires Valid() && ramBank < 8 && idx < 0x4000
      ensures ramBank == 0 ==> v == ReadByte(idx)
    {
      ramBanks[ramBank as int][idx as int]
    }

    function WriteBankByte(idx: Word, val: Byte): (s: WorkRamState)
      requires Valid() && ramBank < 8 && idx < 0x4000
      ensures s.Valid() && s.ramBank == ramBank
      ensures s.ReadBankByte(idx) == val
      ensures var i := idx as int; forall j :: 0 <= j < RamBankSize && j != i ==> s.Selected()[j] == Selected()[j]
      ensures forall k :: 0 <= k < RamBankCount && k != ramBank as int ==> s.ramBanks[k] == ramBanks[k]
    {
      Store(ramBank as int, idx, val)
    }
  }

  /** Eight zeroed banks, bank 1 selected. */
  function InitialWorkRam(): (s: WorkRamState)
    ensures s.Valid() && s.ramBank == 1
    ensures forall i, j :: 0 <= i < RamBankCount && 0 <= j < RamBankSize ==> s.ramBanks[i][j] == 0
  {
    WorkRamState(1, seq(RamBankCount, _ => seq(RamBankSize, _ => 0)))
  }

  /** After `set_bank(n)` with `n` a bank that exists, banked reads come
      from bank `n`. */
  lemma SelectedBankReads(s: WorkRamState, n: Byte, idx: Word)
    requires s.Valid() && n < 8 && idx < 0x4000
    ensures s.SetBank(n).Valid() && s.SetBank(n).ReadBankByte(idx) == s.ramBanks[n as int][idx as int]
  {
  }

  /** With a bank other than 0 selected, banked writes never reach bank 0. */
  lemma BankWriteSparesBankZero(s: WorkRamState, idx: Word, val: Byte, j: Word)
    requires s.Valid() && 0 < s.ramBank < 8
    requires idx < 0x4000 && j < 0x4000
    ensures s.WriteBankByte(idx, val).ReadByte(j) == s.ReadByte(j)
  {
  }

  class WorkRam {
    var ramBank: Byte
    var ramBanks: seq<seq<Byte>>

    constructor Init()
      ensures State() == InitialWorkRam()
    {
      ramBank := 1;
      ramBanks := seq(RamBankCount, _ => seq(RamBankSize, _ => 0));
    }

    function State(): WorkRamState
      reads this
    {
      WorkRamState(ramBank, ramBanks)
    }

    method SetBank(n: Byte)
      modifies this
      ensures State() == old(State()).SetBank(n)
    {
      ramBank := n;
    }

    method WriteByte(idx: Word, val: Byte)
      requires State().Valid() && idx < 0x4000
      modifies this
      ensures State() == old(State()).WriteByte(idx, val)
    {
      ramBanks := ramBanks[0 := ramBanks[0][idx as int := val]];
    }

    method WriteBankByte(idx: Word, val: Byte)
      requires State().Valid() && ramBank < 8 && idx < 0x4000
      modifies this
      ensures State() == old(State()).WriteBankByte(idx, val)
    {
      var n := ramBank as int;
      ramBanks := ramBanks[n := ramBanks[n][idx as int := val]];
    }
  }
}

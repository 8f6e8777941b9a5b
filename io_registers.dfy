/** The I/O register file the memory bus maps at 0xFF00-0xFF7F and 0xFFFF.
    Only the serial registers SB (0xFF01) and SC (0xFF02) are decoded; every
    other field is stored but never reachable through the bus. */
module IoRegisters {
  import opened Bits

  const SbAddr: Word := 0xff01
  const ScAddr: Word := 0xff02

  datatype IoState = IoState(
    sb: Byte, sc: Byte,
    div: Byte,
    tima: Byte,
    tma: Byte, tac: Byte,
    iflag: Byte,
    scy: Byte, scx: Byte,
    ly: Byte, lyc: Byte,
    dma: Byte,
    bgp: Byte,
    obp0: Byte, obp1: Byte,
    wy: Byte, wx: Byte,
    ienable: Byte)
  {
    function ReadByte(idx: Word): (v: Byte)
      ensures idx == SbAddr ==> v == sb
      ensures idx == ScAddr ==> v == sc
      ensures idx != SbAddr && idx != ScAddr ==> v == 0
    {
      match idx
      case 0xff01 => sb
      case 0xff02 => sc
      case _ => 0
    }

    function WriteByte(idx: Word, val: Byte): (s: IoState)
      ensures idx == SbAddr ==> s == this.(sb := val)
      ensures idx == ScAddr ==> s == this.(sc := val)
      ensures idx != SbAddr && idx != ScAddr ==> s == this
    {
      match idx
      case 0xff01 => this.(sb := val)
      case 0xff02 => this.(sc := val)
      case _ => this
    }
  }

  /** Every register zero. */
  const InitialIo := IoState(0, 0, 0, 0, 0, 0, 0, 0, 0, 0, 0, 0, 0, 0, 0, 0, 0, 0)

  /** SB and SC read back what was written. */
  lemma SerialRoundTrip(s: IoState, idx: Word, val: Byte)
    requires idx == SbAddr || idx == ScAddr
    ensures s.WriteByte(idx, val).ReadByte(idx) == val
  {
  }

  /** Writing SB leaves SC readable as before, and the other way round. */
  lemma SerialIndependent(s: IoState, idx: Word, other: Word, val: Byte)
    requires idx != other
    ensures s.WriteByte(idx, val).ReadByte(other) == s.ReadByte(other)
  {
  }

  /** The interrupt-enable register at 0xFFFF is stored but reads as 0. */
  lemma InterruptEnableUnobservable(s: IoState, val: Byte)
    ensures s.ReadByte(0xffff) == 0
    ensures s.WriteByte(0xffff, val) == s
  {
  }

  class IoRegisters {
    var sb: Byte
    var sc: Byte
    var div: Byte
    var tima: Byte
    var tma: Byte
    var tac: Byte
    var iflag: Byte
    var scy: Byte
    var scx: Byte
    var ly: Byte
    var lyc: Byte
    var dma: Byte
    var bgp: Byte
    var obp0: Byte
    var obp1: Byte
    var wy: Byte
    var wx: Byte
    var ienable: Byte

    constructor Init()
      ensures State() == InitialIo
    {
      sb, sc := 0, 0;
      div := 0;
      tima := 0;
      tma, tac := 0, 0;
      iflag := 0;
      scy, scx := 0, 0;
      ly, lyc := 0, 0;
      dma := 0;
      bgp := 0;
      obp0, obp1 := 0, 0;
      wy, wx := 0, 0;
      ienable := 0;
    }

    function State(): IoState
      reads this
    {
      IoState(sb, sc, div, tima, tma, tac, iflag, scy, scx, ly, lyc, dma, bgp, obp0, obp1, wy, wx, ienable)
    }

    method WriteByte(idx: Word, val: Byte)
      modifies this
      ensures State() == old(State()).WriteByte(idx, val)
    {
      match idx
      case 0xff01 => sb := val;
      case 0xff02 => sc := val;
      case _ =>
    }
  }
}

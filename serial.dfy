/** The serial port's register file: SB (0xFF01), SC (0xFF02) and an
    interrupt latch. No transfer is implemented, so nothing ever raises the
    latch. */
module Serial {
  import opened Bits

  const SbAddr: Word := 0xff01
  const ScAddr: Word := 0xff02

  datatype SerialState = SerialState(interrupt: Byte, sb: Byte, sc: Byte)
  {
    predicate Mapped(idx: Word)
    {
      idx == SbAddr || idx == ScAddr
    }

    function ReadIoByte(idx: Word): (v: Byte)
      ensures !Mapped(idx) ==> v == 0
    {
      match idx
      case 0xff01 => sb
      case 0xff02 => sc
      case _ => 0
    }

    function WriteIoByte(idx: Word, val: Byte): (s: SerialState)
      ensures !Mapped(idx) ==> s == this
      ensures s.interrupt == interrupt
    {
      match idx
      case 0xff01 => this.(sb := val)
      case 0xff02 => this.(sc := val)
      case _ => this
    }
  }

  /** Every field zero. */
  const InitialSerial := SerialState(0, 0, 0)

  /** SB and SC read back what was written. */
  lemma SerialRoundTrip(s: SerialState, idx: Word, val: Byte)
    requires s.Mapped(idx)
    ensures s.WriteIoByte(idx, val).ReadIoByte(idx) == val
  {
  }

  /** A write changes only the register at its own address. */
  lemma SerialWriteSparesOthers(s: SerialState, idx: Word, val: Byte, other: Word)
    requires other != idx
    ensures s.WriteIoByte(idx, val).ReadIoByte(other) == s.ReadIoByte(other)
  {
  }

  class Serial {
    var interrupt: Byte
    var sb: Byte
    var sc: Byte

    /** The latch is down: no operation of the port raises it. */
    predicate Valid()
      reads this
    {
      interrupt == 0
    }

    constructor Init()
      ensures Valid() && State() == InitialSerial
    {
      interrupt := 0;
      sb, sc := 0, 0;
    }

    function State(): SerialState
      reads this
    {
      SerialState(interrupt, sb, sc)
    }

    /** The elapsed cycles are taken and ignored. */
    method Step(cycles: nat)
      requires Valid()
      modifies this
      ensures Valid() && State() == old(State())
    {
    }

    /** Answers the latch and clears it; it was never raised, so the answer
        is 0. */
    method GetInterrupt() returns (r: Byte)
      requires Valid()
      modifies this
      ensures Valid() && r == 0
      ensures State() == old(State())
    {
      r := interrupt;
      interrupt := 0;
    }

    method WriteIoByte(idx: Word, val: Byte)
      requires Valid()
      modifies this
      ensures Valid()
      ensures State() == old(State()).WriteIoByte(idx, val)
    {
      match idx
      case 0xff01 => sb := val;
      case 0xff02 => sc := val;
      case _ =>
    }
  }
}

/** The timer's register file: DIV (0xFF04), TIMA (0xFF05), TMA (0xFF06)
    and TAC (0xFF07), and an interrupt latch. The timer does not count yet,
    so nothing ever raises the latch. */
module Timer {
  import opened Bits

  const DivAddr: Word := 0xff04
  const TimaAddr: Word := 0xff05
  const TmaAddr: Word := 0xff06
  const TacAddr: Word := 0xff07

  datatype TimerState = TimerState(interrupt: Byte, div: Byte, tima: Byte, tma: Byte, tac: Byte)
  {
    /** The addresses the timer decodes. */
    predicate Mapped(idx: Word)
    {
      DivAddr <= idx <= TacAddr
    }

    function ReadIoByte(idx: Word): (v: Byte)
      ensures !Mapped(idx) ==> v == 0
    {
      match idx
      case 0xff04 => div
      case 0xff05 => tima
      case 0xff06 => tma
      case 0xff07 => tac
      case _ => 0
    }

    /** A write to DIV clears it whatever the value; the other three store
        the value; any other address changes nothing. */
    function WriteIoByte(idx: Word, val: Byte): (s: TimerState)
      ensures !Mapped(idx) ==> s == this
      ensures s.interrupt == interrupt
    {
      match idx
      case 0xff04 => this.(div := 0)
      case 0xff05 => this.(tima := val)
      case 0xff06 => this.(tma := val)
      case 0xff07 => this.(tac := val)
      case _ => this
    }
  }

  /** Every field zero. */
  const InitialTimer := TimerState(0, 0, 0, 0, 0)

  /** Writing DIV reads back 0, whatever was written. */
  lemma DivWriteClears(s: TimerState, val: Byte)
    ensures s.WriteIoByte(DivAddr, val).ReadIoByte(DivAddr) == 0
  {
  }

  /** TIMA, TMA and TAC read back what was written. */
  lemma TimerRoundTrip(s: TimerState, idx: Word, val: Byte)
    requires idx == TimaAddr || idx == TmaAddr || idx == TacAddr
    ensures s.WriteIoByte(idx, val).ReadIoByte(idx) == val
  {
  }

  /** A write changes only the register at its own address. */
  lemma TimerWriteSparesOthers(s: TimerState, idx: Word, val: Byte, other: Word)
    requires other != idx
    ensures s.WriteIoByte(idx, val).ReadIoByte(other) == s.ReadIoByte(other)
  {
  }

  class Timer {
    var interrupt: Byte
    var div: Byte
    var tima: Byte
    var tma: Byte
    var tac: Byte

    /** The latch is down: no operation of the timer raises it. */
    predicate Valid()
      reads this
    {
      interrupt == 0
    }

    constructor Init()
      ensures Valid() && State() == InitialTimer
    {
      interrupt := 0;
      div, tima, tma, tac := 0, 0, 0, 0;
    }

    function State(): TimerState
      reads this
    {
      TimerState(interrupt, div, tima, tma, tac)
    }

    /** The elapsed cycles are taken and ignored. */
    method Step(cycles: nat)
      requires Valid()
      modifies this
      ensures Valid() && State() == old(State())
    {
    }

    /** Answers the latch and clears it; it was never raised, so the answer
        is 0. */
    method GetInterrupt() returns (r: Byte)
      requires Valid()
      modifies this
      ensures Valid() && r == 0
      ensures State() == old(State())
    {
      r := interrupt;
      interrupt := 0;
    }

    method WriteIoByte(idx: Word, val: Byte)
      requires Valid()
      modifies this
      ensures Valid()
      ensures State() == old(State()).WriteIoByte(idx, val)
    {
      match idx
      case 0xff04 => div := 0;
      case 0xff05 => tima := val;
      case 0xff06 => tma := val;
      case 0xff07 => tac := val;
      case _ =>
    }
  }
}

/** The CGB speed switch: KEY1 (0xFF4D) arms a switch, and the next STOP
    toggles the CPU between single and double speed. */
module SpeedController {
  import opened Bits
  import opened CgbCompat

  datatype CpuSpeedMode = Single | Double

  /** The mode a switch moves to. */
  function Toggled(m: CpuSpeedMode): (r: CpuSpeedMode)
    ensures r != m
  {
    match m
    case Single => Double
    case Double => Single
  }

  /** Two switches bring the CPU back to the speed it started at. */
  lemma ToggleTwice(m: CpuSpeedMode)
    ensures Toggled(Toggled(m)) == m
  {
  }

  /** `read_key1`: bit 7 is the current speed, bit 0 the armed switch, and
      bits 1-6 read as 1. */
  function Key1(mode: CpuSpeedMode, prepared: bool): (r: u8)
    ensures (r & 0x80 != 0) <==> mode == Double
    ensures (r & 0x01 != 0) <==> prepared
    ensures r & 0x7E == 0x7E
  {
    var modeBit: u8 := if mode == Double then 1 else 0;
    var preparedBit: u8 := if prepared then 1 else 0;
    (modeBit << 7) | preparedBit | 0x7E
  }

  /** KEY1 tells every speed controller state apart. */
  lemma Key1Determines(m1: CpuSpeedMode, p1: bool, m2: CpuSpeedMode, p2: bool)
    requires Key1(m1, p1) == Key1(m2, p2)
    ensures m1 == m2 && p1 == p2
  {
  }

  class CpuSpeedController {
    var cpuSpeedMode: CpuSpeedMode
    var prepareSpeedSwitch: bool
    var cgbCompatibility: CgbCompatibility

    /** `new`: single speed, nothing armed. */
    constructor (cgbCompatibility: CgbCompatibility)
      ensures cpuSpeedMode == Single && !prepareSpeedSwitch
      ensures this.cgbCompatibility == cgbCompatibility
    {
      cpuSpeedMode := Single;
      prepareSpeedSwitch := false;
      this.cgbCompatibility := cgbCompatibility;
    }

    /** `is_double_speed`. */
    function IsDoubleSpeed(): (b: bool)
      reads this
      ensures b <==> cpuSpeedMode == Double
    {
      cpuSpeedMode.Double?
    }

    /** `set_console_compatibility`. */
    method SetConsoleCompatibility(c: CgbCompatibility)
      modifies this`cgbCompatibility
      ensures cgbCompatibility == c
    {
      cgbCompatibility := c;
    }

    /** `set_prepare_speed_switch`: stores the flag and changes nothing
        else. */
    method SetPrepareSpeedSwitch(armed: bool)
      modifies this`prepareSpeedSwitch
      ensures prepareSpeedSwitch == armed && IsSpeedSwitchPrepared() == armed
    {
      prepareSpeedSwitch := armed;
    }

    /** `is_speed_switch_prepared`. */
    function IsSpeedSwitchPrepared(): (b: bool)
      reads this
      ensures b == prepareSpeedSwitch
    {
      prepareSpeedSwitch
    }

    /** `switch_speed`: an armed switch toggles the speed and disarms. The
        source asserts that a switch was armed. */
    method SwitchSpeed()
      requires prepareSpeedSwitch
      modifies this`prepareSpeedSwitch, this`cpuSpeedMode
      ensures !prepareSpeedSwitch && cpuSpeedMode == Toggled(old(cpuSpeedMode))
    {
      prepareSpeedSwitch := false;
      cpuSpeedMode := Toggled(cpuSpeedMode);
    }

    /** `read_key1`. */
    function ReadKey1(): (r: u8)
      reads this
      ensures r == Key1(cpuSpeedMode, prepareSpeedSwitch)
    {
      Key1(cpuSpeedMode, prepareSpeedSwitch)
    }
  }

  /** Arming and switching twice restores the original speed, and KEY1
      reads as before the first arming. */
  method SwitchTwice(c: CpuSpeedController)
    requires !c.prepareSpeedSwitch
    modifies c
    ensures c.cpuSpeedMode == old(c.cpuSpeedMode) && c.ReadKey1() == old(c.ReadKey1())
  {
    var before := c.cpuSpeedMode;
    c.SetPrepareSpeedSwitch(true);
    c.SwitchSpeed();
    c.SetPrepareSpeedSwitch(true);
    c.SwitchSpeed();
    ToggleTwice(before);
  }
}

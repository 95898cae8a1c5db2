/** Interrupt requests and their priority: the IF and IE registers, the
    master enable, and the choice of the interrupt to service next. */
module Interrupts {
  import opened Bits

  /** The five interrupt sources, in priority order. */
  datatype InterruptFlag = VBlank | Stat | Timer | Serial | Joypad

  /** The position of a source's bit in IF and IE; a lower position means a
      higher priority. */
  function Index(fl: InterruptFlag): (i: nat)
    ensures i < 5
  {
    match fl
    case VBlank => 0
    case Stat => 1
    case Timer => 2
    case Serial => 3
    case Joypad => 4
  }

  /** The discriminant of the source: its bit in IF and IE. */
  function Bit(fl: InterruptFlag): (m: u8)
    ensures m == 1 << Index(fl)
  {
    match fl
    case VBlank => 0x01
    case Stat => 0x02
    case Timer => 0x04
    case Serial => 0x08
    case Joypad => 0x10
  }

  /** The address the CPU jumps to when servicing the source. */
  function Vector(fl: InterruptFlag): (v: int)
    ensures v == 0x40 + 8 * Index(fl)
  {
    match fl
    case VBlank => 0x40
    case Stat => 0x48
    case Timer => 0x50
    case Serial => 0x58
    case Joypad => 0x60
  }

  /** Different sources have different bits and different vectors. */
  lemma BitsAndVectorsDistinct(fl: InterruptFlag, g: InterruptFlag)
    ensures Bit(fl) == Bit(g) <==> fl == g
    ensures Vector(fl) == Vector(g) <==> fl == g
  {
  }

  /** `get_interupt_state_latched`: the highest-priority source that is both
      enabled and requested, if there is one. */
  function Latched(enable: u8, req: u8): (r: Option<InterruptFlag>)
    ensures r.None? <==> enable & req & 0x1F == 0
    ensures r.Some? ==> enable & req & Bit(r.value) != 0
    ensures r.Some? ==> forall g: InterruptFlag ::
      Index(g) < Index(r.value) ==> enable & req & Bit(g) == 0
  {
    if enable > 0 && req > 0 then
      var pending := enable & req & 0x1F;
      if pending & Bit(VBlank) > 0 then Some(VBlank)
      else if pending & Bit(Stat) > 0 then Some(Stat)
      else if pending & Bit(Timer) > 0 then Some(Timer)
      else if pending & Bit(Serial) > 0 then Some(Serial)
      else if pending & Bit(Joypad) > 0 then Some(Joypad)
      else None
    else
      None
  }

  /** Nothing is latched while either register is zero. */
  lemma NoneWhenEitherZero(enable: u8, req: u8)
    requires enable == 0 || req == 0
    ensures Latched(enable, req) == None
  {
  }

  /** Requesting an enabled source makes some source pending, and the one
      chosen is at least as urgent as the one requested. */
  lemma RequestedEnabledIsServiced(enable: u8, req: u8, fl: InterruptFlag)
    requires enable & Bit(fl) != 0
    ensures Latched(enable, req | Bit(fl)).Some?
    ensures Index(Latched(enable, req | Bit(fl)).value) <= Index(fl)
  {
  }

  /** IF, IE, the master enable and the HALT bookkeeping. */
  class InterruptState {
    var master: u8
    var enable: u8
    var flags: u8
    var waitingForHaltIf: bool
    var haltInterruptPending: bool

    constructor ()
      ensures master == 0 && enable == 0 && flags == 0
      ensures !waitingForHaltIf && !haltInterruptPending
    {
      master := 0;
      enable := 0;
      flags := 0;
      waitingForHaltIf := false;
      haltInterruptPending := false;
    }

    function IsMasterEnabled(): bool
      reads this
    {
      master > 0
    }

    method EnableMaster()
      modifies this
      ensures IsMasterEnabled()
      ensures enable == old(enable) && flags == old(flags)
      ensures waitingForHaltIf == old(waitingForHaltIf)
      ensures haltInterruptPending == old(haltInterruptPending)
    {
      master := 1;
    }

    method DisableMaster()
      modifies this
      ensures !IsMasterEnabled()
      ensures enable == old(enable) && flags == old(flags)
      ensures waitingForHaltIf == old(waitingForHaltIf)
      ensures haltInterruptPending == old(haltInterruptPending)
    {
      master := 0;
    }

    /** `get_interrupt_state`: the latched choice over the current IE and IF. */
    function State(): Option<InterruptFlag>
      reads this
    {
      Latched(enable, flags)
    }

    /** `clear_interupt`: clears the source's bit of IF and no other. */
    method ClearInterrupt(fl: InterruptFlag)
      modifies this
      ensures flags & Bit(fl) == 0
      ensures flags | Bit(fl) == old(flags) | Bit(fl)
      ensures master == old(master) && enable == old(enable)
      ensures waitingForHaltIf == old(waitingForHaltIf)
      ensures haltInterruptPending == old(haltInterruptPending)
    {
      flags := flags & !Bit(fl);
    }

    /** `request_interupt`: sets the source's bit of IF and no other; a
        pending request is remembered while HALT waits for IF. */
    method RequestInterrupt(fl: InterruptFlag)
      modifies this
      ensures flags & Bit(fl) == Bit(fl)
      ensures flags & !Bit(fl) == old(flags) & !Bit(fl)
      ensures haltInterruptPending == (old(haltInterruptPending) || waitingForHaltIf)
      ensures master == old(master) && enable == old(enable)
      ensures waitingForHaltIf == old(waitingForHaltIf)
    {
      flags := flags | Bit(fl);
      if waitingForHaltIf {
        haltInterruptPending := true;
      }
    }
  }
}

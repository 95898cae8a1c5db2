/** The DIV/TIMA timer: a 16-bit divider counting every clock, and TIMA,
    counting the falling edges of one divider bit chosen by TAC, reloaded
    from TMA after it overflows. */
module Timer {
  import opened Bits
  import Interrupts

  /** The timer's registers and its overflow bookkeeping, as values. */
  datatype TimerRegs = TimerRegs(
    div: u16,
    tima: u8,
    tma: u8,
    tac: u8,
    timaOverflown: bool,
    ticksSinceOverflow: u8)

  /** The bookkeeping stays in the range the tick sequence walks through:
      no count without an overflow, and never more than five ticks. */
  predicate Valid(s: TimerRegs)
  {
    s.ticksSinceOverflow <= 5 && (!s.timaOverflown ==> s.ticksSinceOverflow == 0)
  }

  /** `tac_freq_bits[tac & 3]`: the divider bit whose falling edge clocks
      TIMA (9, 3, 5 and 7 for the four frequency codes). */
  function FreqBit(tac: u8): (b: u16)
    ensures b == 9 || b == 3 || b == 5 || b == 7
  {
    var code := tac & 3;
    if code == 0 then 9 else if code == 1 then 3 else if code == 2 then 5 else 7
  }

  /** The divider bits below and including the frequency bit: TIMA is
      clocked once per `PeriodMask + 1` divider counts. */
  function PeriodMask(tac: u8): (m: u16)
    ensures m == (2 << FreqBit(tac)) - 1
  {
    var code := tac & 3;
    if code == 0 then 0x3FF else if code == 1 then 0x0F else if code == 2 then 0x3F else 0xFF
  }

  /** `is_timer_enabled`: TAC bit 2. */
  function TimerEnabled(tac: u8): (b: bool)
    ensures b <==> (tac >> 2) & 1 == 1
  {
    tac & 0x04 != 0
  }

  /** The divider bit TAC selects, `(div >> tac_freq_bits[tac & 3]) & 1`. */
  predicate FreqBitHigh(tac: u8, d: u16)
  {
    var code := tac & 3;
    if code == 0 then d & 0x200 != 0
    else if code == 1 then d & 0x08 != 0
    else if code == 2 then d & 0x20 != 0
    else d & 0x80 != 0
  }

  /** The mask test is the shift the source writes. */
  lemma FreqBitHighIsShift(tac: u8, d: u16)
    ensures FreqBitHigh(tac, d) <==> (d >> FreqBit(tac)) & 1 == 1
  {
  }

  /** `div_falling_edge_occured`: the frequency bit was 1 and is now 0. */
  predicate FallingEdge(tac: u8, prev: u16, cur: u16)
  {
    FreqBitHigh(tac, prev) && !FreqBitHigh(tac, cur)
  }

  /** Counting the divider up by one makes the frequency bit fall exactly
      when the new count is a multiple of the period. */
  lemma FallingEdgeOnPeriodBoundary(tac: u8, d: u16)
    ensures FallingEdge(tac, d, d + 1) <==> (d + 1) & PeriodMask(tac) == 0
  {
    var code := tac & 3;
    if code == 0 {
      assert FreqBit(tac) == 9 && PeriodMask(tac) == 0x3FF;
    } else if code == 1 {
      assert FreqBit(tac) == 3 && PeriodMask(tac) == 0x0F;
    } else if code == 2 {
      assert FreqBit(tac) == 5 && PeriodMask(tac) == 0x3F;
    } else {
      assert FreqBit(tac) == 7 && PeriodMask(tac) == 0xFF;
    }
  }

  /** `incr_tima` on the register values: TIMA counts up, and wrapping to
      0 starts the overflow sequence. */
  function AfterIncrTima(s: TimerRegs): (t: TimerRegs)
    ensures t.tima == s.tima + 1
    ensures t.timaOverflown <==> s.timaOverflown || t.tima == 0
    ensures t.ticksSinceOverflow == if t.tima == 0 then 0 else s.ticksSinceOverflow
    ensures t.div == s.div && t.tma == s.tma && t.tac == s.tac
  {
    var tima := s.tima + 1;
    TimerRegs(s.div, tima, s.tma, s.tac, s.timaOverflown || tima == 0,
      if tima == 0 then 0 else s.ticksSinceOverflow)
  }

  /** Whether the tick from `s` clocks TIMA. */
  predicate Clocked(s: TimerRegs)
  {
    TimerEnabled(s.tac) && FallingEdge(s.tac, s.div, s.div + 1)
  }

  /** TIMA is clocked exactly when the timer is enabled and the divider
      reaches a multiple of the period TAC selects. */
  lemma ClockedOnPeriodBoundary(s: TimerRegs)
    ensures Clocked(s) <==> TimerEnabled(s.tac) && (s.div + 1) & PeriodMask(s.tac) == 0
  {
    FallingEdgeOnPeriodBoundary(s.tac, s.div);
  }

  /** The first half of `tick`: the divider counts up, and TIMA counts
      when the selected bit falls. */
  function AfterClock(s: TimerRegs): (t: TimerRegs)
    requires Valid(s)
    ensures t.div == s.div + 1 && t.tma == s.tma && t.tac == s.tac
    ensures t.tima == if Clocked(s) then s.tima + 1 else s.tima
    ensures t.timaOverflown <==> s.timaOverflown || (Clocked(s) && t.tima == 0)
    ensures t.ticksSinceOverflow <= 5 && (!t.timaOverflown ==> t.ticksSinceOverflow == 0)
  {
    var s1 := TimerRegs(s.div + 1, s.tima, s.tma, s.tac, s.timaOverflown, s.ticksSinceOverflow);
    if Clocked(s) then AfterIncrTima(s1) else s1
  }

  /** The second half of `tick`: while an overflow is being handled its
      tick count advances; the interrupt is requested at count 1 and TIMA
      is reloaded from TMA at counts 5 and 6, the last of which ends the
      sequence. */
  function AfterOverflowStep(s: TimerRegs): (r: (TimerRegs, bool))
    requires s.ticksSinceOverflow <= 5 && (!s.timaOverflown ==> s.ticksSinceOverflow == 0)
    ensures Valid(r.0)
    ensures r.0.div == s.div && r.0.tma == s.tma && r.0.tac == s.tac
    ensures r.1 <==> s.timaOverflown && s.ticksSinceOverflow == 0
  {
    var ticks := if s.timaOverflown then s.ticksSinceOverflow + 1 else s.ticksSinceOverflow;
    var tima := if ticks == 5 || ticks == 6 then s.tma else s.tima;
    (TimerRegs(s.div, tima, s.tma, s.tac, s.timaOverflown && ticks != 6, if ticks == 6 then 0 else ticks),
     ticks == 1)
  }

  /** `tick` on the register values: the new registers, and whether the
      timer interrupt is requested on this tick. */
  function AfterTick(s: TimerRegs): (r: (TimerRegs, bool))
    requires Valid(s)
    ensures Valid(r.0)
    ensures r.0.div == s.div + 1 && r.0.tma == s.tma && r.0.tac == s.tac
  {
    AfterOverflowStep(AfterClock(s))
  }

  /** Away from an overflow, a tick changes TIMA only by counting it up,
      and only when the timer is enabled and its divider bit falls. */
  lemma TimaCountsOnlyOnFallingEdge(s: TimerRegs)
    requires Valid(s) && !s.timaOverflown
    ensures AfterTick(s).0.tima == if Clocked(s) then s.tima + 1 else s.tima
    ensures AfterTick(s).1 <==> Clocked(s) && s.tima == 0xFF
  {
  }

  /** `n` ticks in a row; the interrupt flag says whether any of them
      requested the timer interrupt. */
  function AfterTicks(s: TimerRegs, n: nat): (r: (TimerRegs, bool))
    requires Valid(s)
    ensures Valid(r.0)
    decreases n
  {
    if n == 0 then (s, false)
    else
      var (s1, req1) := AfterTick(s);
      var (s2, req2) := AfterTicks(s1, n - 1);
      (s2, req1 || req2)
  }

  /** The overflow sequence: the tick on which TIMA wraps to 0 requests the
      timer interrupt; the next four ticks request nothing and TIMA is
      reloaded from TMA on the fourth of them; the fifth ends the sequence
      with TIMA still holding TMA. */
  lemma {:induction false} OverflowReloadsFromTma(s: TimerRegs)
    requires Valid(s) && !s.timaOverflown
    requires Clocked(s) && s.tima == 0xFF
    ensures var (s1, req) := AfterTick(s);
      req && s1.tima == 0 && s1.timaOverflown && s1.ticksSinceOverflow == 1
    ensures var (s5, req) := AfterTicks(AfterTick(s).0, 4);
      !req && s5.tima == s.tma && s5.ticksSinceOverflow == 5
    ensures var (s6, req) := AfterTicks(AfterTick(s).0, 5);
      !req && s6.tima == s.tma && !s6.timaOverflown && s6.ticksSinceOverflow == 0
  {
    var s1 := AfterTick(s).0;
    OverflowStep(s1);
    var s2 := AfterTick(s1).0;
    OverflowStep(s2);
    var s3 := AfterTick(s2).0;
    OverflowStep(s3);
    var s4 := AfterTick(s3).0;
    var s5 := AfterTick(s4).0;
    var s6 := AfterTick(s5).0;
    assert s5.tima == s.tma && s6.tima == s.tma;
    assert AfterTicks(s5, 1) == (s6, false);
    assert AfterTicks(s4, 1) == (s5, false);
    assert AfterTicks(s4, 2) == (s6, false);
    assert AfterTicks(s3, 2) == (s5, false);
    assert AfterTicks(s3, 3) == (s6, false);
    assert AfterTicks(s2, 3) == (s5, false);
    assert AfterTicks(s2, 4) == (s6, false);
    assert AfterTicks(s1, 4) == (s5, false);
  }

  /** During the overflow sequence, before the reload, a tick advances the
      count without requesting the interrupt, and TIMA stays small enough
      not to wrap again. */
  lemma OverflowStep(s: TimerRegs)
    requires Valid(s) && s.timaOverflown && 1 <= s.ticksSinceOverflow <= 3
    requires s.tima < s.ticksSinceOverflow
    ensures var (t, req) := AfterTick(s);
      !req && t.timaOverflown && t.ticksSinceOverflow == s.ticksSinceOverflow + 1
      && t.tima < t.ticksSinceOverflow
  {
  }

  /** The timer, holding its registers in fields. */
  class TimerState {
    var div: u16
    var tima: u8
    var tma: u8
    var tac: u8
    var timaOverflown: bool
    var ticksSinceOverflow: u8

    function Regs(): TimerRegs
      reads this
    {
      TimerRegs(div, tima, tma, tac, timaOverflown, ticksSinceOverflow)
    }

    /** `new`: DIV starts at 8, everything else at zero. */
    constructor ()
      ensures Regs() == TimerRegs(0x0008, 0, 0, 0, false, 0) && Valid(Regs())
    {
      div := 0x0008;
      tima := 0;
      tma := 0;
      tac := 0;
      timaOverflown := false;
      ticksSinceOverflow := 0;
    }

    /** `div`: the upper byte of the divider. */
    function Div(): (d: u8)
      reads this
      ensures d as u16 == div >> 8
    {
      (div >> 8) as u8
    }

    method IncrTima()
      modifies this
      ensures Regs() == AfterIncrTima(old(Regs()))
    {
      tima := tima + 1;
      if tima == 0 {
        timaOverflown := true;
        ticksSinceOverflow := 0;
      }
    }

    /** `div_falling_edge_occured`. */
    method DivFallingEdgeOccured(prev: u16, cur: u16) returns (b: bool)
      ensures b == FallingEdge(tac, prev, cur)
    {
      var prevBit := FreqBitHigh(tac, prev);
      var bit := FreqBitHigh(tac, cur);
      b := prevBit && !bit;
    }

    /** Lines 42-47 of `tick`: the divider counts up and may clock TIMA. */
    method ClockDivider()
      requires Valid(Regs())
      modifies this
      ensures Regs() == AfterClock(old(Regs()))
    {
      var prevDiv := div;
      div := div + 1;
      var falling := DivFallingEdgeOccured(prevDiv, div);
      if TimerEnabled(tac) && falling {
        IncrTima();
      }
    }

    /** Lines 49-61 of `tick`: the overflow sequence, requesting the timer
        interrupt through `interrupts`. */
    method StepOverflow(interrupts: Interrupts.InterruptState)
      requires ticksSinceOverflow <= 5 && (!timaOverflown ==> ticksSinceOverflow == 0)
      modifies this, interrupts
      ensures Regs() == AfterOverflowStep(old(Regs())).0
      ensures interrupts.flags == if AfterOverflowStep(old(Regs())).1
        then old(interrupts.flags) | Interrupts.Bit(Interrupts.Timer) else old(interrupts.flags)
      ensures interrupts.enable == old(interrupts.enable) && interrupts.master == old(interrupts.master)
    {
      if timaOverflown {
        ticksSinceOverflow := ticksSinceOverflow + 1;
      }
      if ticksSinceOverflow == 1 {
        interrupts.RequestInterrupt(Interrupts.Timer);
      } else if ticksSinceOverflow == 5 {
        tima := tma;
      } else if ticksSinceOverflow == 6 {
        tima := tma;
        timaOverflown := false;
        ticksSinceOverflow := 0;
      }
    }

    /** `tick`, requesting the timer interrupt through `interrupts`. */
    method Tick(interrupts: Interrupts.InterruptState)
      requires Valid(Regs())
      modifies this, interrupts
      ensures Regs() == AfterTick(old(Regs())).0
      ensures interrupts.flags == if AfterTick(old(Regs())).1
        then old(interrupts.flags) | Interrupts.Bit(Interrupts.Timer) else old(interrupts.flags)
      ensures interrupts.enable == old(interrupts.enable) && interrupts.master == old(interrupts.master)
    {
      ClockDivider();
      StepOverflow(interrupts);
    }

    /** `read` at 0xFF03 (the divider's low byte), 0xFF04 (DIV), 0xFF05
        (TIMA), 0xFF06 (TMA) and 0xFF07 (TAC, upper five bits set). */
    function Read(addr: int): (v: u8)
      requires 0xFF03 <= addr <= 0xFF07
      reads this
      ensures addr == 0xFF04 ==> v == Div()
      ensures addr == 0xFF05 ==> v == tima
      ensures addr == 0xFF06 ==> v == tma
      ensures addr == 0xFF07 ==> v & 0xF8 == 0xF8 && v & 0x07 == tac & 0x07
    {
      if addr == 0xFF03 then (div & 0xFF) as u8
      else if addr == 0xFF04 then (div >> 8) as u8
      else if addr == 0xFF05 then tima
      else if addr == 0xFF06 then tma
      else tac | 0xF8
    }

    /** `write`: a write to the divider resets it to 0 (which may clock
        TIMA); a write to TIMA is dropped once the reload is under way; a
        write to TAC clocks TIMA when the selected, enabled bit stops
        being 1. */
    method Write(addr: int, val: u8)
      requires 0xFF03 <= addr <= 0xFF07
      modifies this
      ensures addr == 0xFF03 || addr == 0xFF04 ==>
        Regs() == (var s := old(Regs()).(div := 0);
                   if TimerEnabled(old(tac)) && FallingEdge(old(tac), old(div), 0) then AfterIncrTima(s) else s)
      ensures addr == 0xFF05 ==>
        Regs() == if old(ticksSinceOverflow) < 5
                  then old(Regs()).(tima := val, timaOverflown := false, ticksSinceOverflow := 0)
                  else old(Regs())
      ensures addr == 0xFF06 ==> Regs() == old(Regs()).(tma := val)
      ensures addr == 0xFF07 ==>
        Regs() == (var s := old(Regs()).(tac := val);
                   if TacBitHigh(old(tac), old(div)) && !TacBitHigh(val, old(div)) then AfterIncrTima(s) else s)
    {
      if addr == 0xFF03 || addr == 0xFF04 {
        var prevDiv := div;
        div := 0;
        var falling := DivFallingEdgeOccured(prevDiv, div);
        if tac & 0x04 != 0 && falling {
          IncrTima();
        }
      } else if addr == 0xFF05 {
        if ticksSinceOverflow < 5 {
          tima := val;
          timaOverflown := false;
          ticksSinceOverflow := 0;
        }
      } else if addr == 0xFF06 {
        tma := val;
      } else {
        var was := TacBitHigh(tac, div);
        tac := val;
        var now := TacBitHigh(tac, div);
        if was && !now {
          IncrTima();
        }
      }
    }
  }

  /** The timer is enabled and its selected divider bit is 1. */
  predicate TacBitHigh(tac: u8, div: u16)
  {
    TimerEnabled(tac) && FreqBitHigh(tac, div)
  }
}

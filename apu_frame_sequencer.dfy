/** The APU frame sequencer: an eight-step cycle clocked by falling edges
    of a DIV bit; each step says which of the length counters, volume
    envelopes and frequency sweep are clocked. */
module ApuFrameSequencer {
  import opened Bits
  import opened SpeedController

  /** Which components a sequencer step clocks. */
  datatype SteppedComponents = SteppedComponents(lengthCtrl: bool, volEnvelope: bool, sweep: bool)

  /** `SteppedComponents::none`. */
  const NoComponents := SteppedComponents(false, false, false)

  /** `SteppedComponents::from`: the components step `val` clocks. */
  function Components(val: nat): (c: SteppedComponents)
  {
    SteppedComponents(val % 2 != 0, val == 7, val == 2 || val == 6)
  }

  /** Over one round of eight steps the length counters are clocked on the
      odd steps (four times), the sweep on steps 2 and 6 and the envelopes
      on step 7 only. */
  lemma ComponentsOverOneRound()
    ensures forall c: nat :: c < 8 ==> (Components(c).lengthCtrl <==> c in {1, 3, 5, 7})
    ensures forall c: nat :: c < 8 ==> (Components(c).sweep <==> c in {2, 6})
    ensures forall c: nat :: c < 8 ==> (Components(c).volEnvelope <==> c == 7)
    ensures forall c: nat :: c < 8 ==> !(Components(c).sweep && Components(c).volEnvelope)
  {
  }

  /** The sequencer's step counter and the DIV bits seen on the last
      tick. */
  datatype FsState = FsState(cycle: int, lastBit5Hi: bool, lastBit6Hi: bool)

  predicate WellFormed(s: FsState)
  {
    0 <= s.cycle < 8
  }

  /** The DIV bit that clocks the sequencer at each speed: bit 4 of DIV's
      upper byte at single speed, bit 5 at double speed. */
  function ClockMask(speed: CpuSpeedMode): (m: u8)
  {
    if speed == Single then 0x10 else 0x20
  }

  /** The latch of the clocking bit's last value. */
  function LastBit(s: FsState, speed: CpuSpeedMode): bool
  {
    if speed == Single then s.lastBit5Hi else s.lastBit6Hi
  }

  /** `step_cycle`: one step on, wrapping from 7 to 0. */
  function NextCycle(cycle: int): (r: int)
    requires 0 <= cycle < 8
    ensures 0 <= r < 8 && r == (cycle + 1) % 8
  {
    if cycle + 1 == 8 then 0 else cycle + 1
  }

  /** `tick`: both latches take the new DIV bits; on a falling edge of the
      clocking bit the current step's components are returned and the
      cycle moves on, otherwise nothing is clocked. */
  function Clocked(s: FsState, div: u8, speed: CpuSpeedMode): (r: (FsState, SteppedComponents))
    requires WellFormed(s)
    ensures WellFormed(r.0)
    ensures r.0.lastBit5Hi == (div & 0x10 != 0) && r.0.lastBit6Hi == (div & 0x20 != 0)
    ensures LastBit(s, speed) && div & ClockMask(speed) == 0 ==>
      r.0.cycle == (s.cycle + 1) % 8 && r.1 == Components(s.cycle)
    ensures !(LastBit(s, speed) && div & ClockMask(speed) == 0) ==>
      r.0.cycle == s.cycle && r.1 == NoComponents
  {
    var isB5Hi := div & 0x10 != 0;
    var isB6Hi := div & 0x20 != 0;
    var b5FallingEdge := s.lastBit5Hi && !isB5Hi;
    var b6FallingEdge := s.lastBit6Hi && !isB6Hi;
    var latched := s.(lastBit5Hi := isB5Hi, lastBit6Hi := isB6Hi);
    if (speed == Single && b5FallingEdge) || (speed == Double && b6FallingEdge) then
      (latched.(cycle := NextCycle(s.cycle)), Components(s.cycle))
    else (latched, NoComponents)
  }

  /** The sequencer after a run of DIV values, one tick each. */
  function Run(s: FsState, divs: seq<u8>, speed: CpuSpeedMode): (r: FsState)
    requires WellFormed(s)
    ensures WellFormed(r)
    decreases |divs|
  {
    if |divs| == 0 then s else Run(Clocked(s, divs[0], speed).0, divs[1..], speed)
  }

  /** The falling edges of the bits under `mask` in a run of DIV values,
      starting from the bit's last value `last`. */
  function FallingEdges(last: bool, divs: seq<u8>, mask: u8): (n: nat)
    ensures n <= |divs|
    decreases |divs|
  {
    if |divs| == 0 then 0
    else
      var hi := divs[0] & mask != 0;
      (if last && !hi then 1 else 0) + FallingEdges(hi, divs[1..], mask)
  }

  /** Over any run of DIV values the sequencer has stepped once for each
      falling edge of the clocking bit, modulo its eight steps. */
  lemma {:induction false} RunCountsFallingEdges(s: FsState, divs: seq<u8>, speed: CpuSpeedMode)
    requires WellFormed(s)
    ensures Run(s, divs, speed).cycle
      == (s.cycle + FallingEdges(LastBit(s, speed), divs, ClockMask(speed))) % 8
    decreases |divs|
  {
    if |divs| > 0 {
      var t := Clocked(s, divs[0], speed).0;
      RunCountsFallingEdges(t, divs[1..], speed);
      assert LastBit(t, speed) == (divs[0] & ClockMask(speed) != 0);
    }
  }

  class FrameSequencer {
    var cycle: int
    var lastBit5Hi: bool
    var lastBit6Hi: bool

    function State(): FsState
      reads this
    {
      FsState(cycle, lastBit5Hi, lastBit6Hi)
    }

    predicate Valid()
      reads this
    {
      WellFormed(State())
    }

    /** `FrameSequencer::new`: step 0, both latches low. */
    constructor ()
      ensures Valid() && State() == FsState(0, false, false)
    {
      cycle, lastBit5Hi, lastBit6Hi := 0, false, false;
    }

    /** `step_cycle`. */
    method StepCycle()
      requires Valid()
      modifies this`cycle
      ensures Valid() && cycle == NextCycle(old(cycle))
    {
      cycle := cycle + 1;
      if cycle == 8 {
        cycle := 0;
      }
    }

    /** `tick`, step by step as the source runs it. */
    method Tick(div: u8, speed: CpuSpeedMode) returns (stepped: SteppedComponents)
      requires Valid()
      modifies this
      ensures Valid() && (State(), stepped) == Clocked(old(State()), div, speed)
    {
      var isB5Hi := div & 0x10 != 0;
      var isB6Hi := div & 0x20 != 0;
      var b5FallingEdge := lastBit5Hi && !isB5Hi;
      var b6FallingEdge := lastBit6Hi && !isB6Hi;
      lastBit5Hi := isB5Hi;
      lastBit6Hi := isB6Hi;
      if (speed == Single && b5FallingEdge) || (speed == Double && b6FallingEdge) {
        stepped := Components(cycle);
        StepCycle();
      } else {
        stepped := NoComponents;
      }
    }
  }
}

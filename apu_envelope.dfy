/** The volume envelope of a sound channel: NRx2 gives a start volume, a
    direction and a period; every `period` clocks of the frame sequencer
    the volume moves one step towards 0 or 15 and stops there. */
module ApuEnvelope {
  import opened Bits

  datatype Direction = Increase | Decrease

  /** `EnvelopeDirection::from`: 0 decreases, 1 increases, and any other
      value is unreachable in the source. */
  function DirectionFrom(val: u8): (r: Result<Direction>)
    ensures r.Ok? <==> val <= 1
    ensures r == Ok(Decrease) <==> val == 0
  {
    if val == 0 then Ok(Decrease) else if val == 1 then Ok(Increase) else Panic
  }

  /** The envelope's fields; they are bytes in the source, and every value
      they take fits in four bits, so they are plain integers here. */
  datatype EnvelopeState = EnvelopeState(initialVol: int, direction: Direction, period: int,
                                         periodTimer: int, currentVol: int)

  /** Volumes are four bits, the period three bits, and a running period
      timer lies in 1..period. */
  predicate WellFormed(s: EnvelopeState)
  {
    0 <= s.initialVol <= 15 && 0 <= s.currentVol <= 15 && 0 <= s.period <= 7
    && 0 <= s.periodTimer <= s.period && (s.period > 0 ==> s.periodTimer >= 1)
  }

  /** `init`: the envelope NRx2 describes, at its start volume with a full
      period ahead. */
  function Decode(nrx2: u8): (s: EnvelopeState)
    ensures WellFormed(s)
    ensures s.period == (nrx2 & 0x07) as int && s.initialVol == (nrx2 >> 4) as int
    ensures s.direction == (if nrx2 & 0x08 == 0 then Decrease else Increase)
    ensures s.periodTimer == s.period && s.currentVol == s.initialVol
  {
    var period := nrx2 & 0x07;
    var initialVol := (nrx2 & 0xF0) >> 4;
    var direction := DirectionFrom((nrx2 & 0x08) >> 3);
    EnvelopeState(initialVol as int, direction.value, period as int, period as int, initialVol as int)
  }

  /** The volume one step further in the envelope's direction, held at the
      ends 0 and 15. */
  function Stepped(s: EnvelopeState): (v: int)
    requires WellFormed(s)
    ensures 0 <= v <= 15
    ensures s.direction == Increase ==> v == if s.currentVol < 15 then s.currentVol + 1 else 15
    ensures s.direction == Decrease ==> v == if s.currentVol > 0 then s.currentVol - 1 else 0
  {
    match s.direction
    case Increase => if s.currentVol < 0xF then s.currentVol + 1 else s.currentVol
    case Decrease => if s.currentVol > 0 then s.currentVol - 1 else s.currentVol
  }

  /** One envelope clock (`tick`): nothing while the period is 0; otherwise
      the timer counts down and, on reaching 0, reloads and steps the
      volume. */
  function Step(s: EnvelopeState): (r: EnvelopeState)
    requires WellFormed(s)
    ensures WellFormed(r)
    ensures r.initialVol == s.initialVol && r.direction == s.direction && r.period == s.period
  {
    if s.period == 0 then s
    else if s.periodTimer - 1 == 0 then s.(periodTimer := s.period, currentVol := Stepped(s))
    else s.(periodTimer := s.periodTimer - 1)
  }

  function StepN(s: EnvelopeState, k: nat): (r: EnvelopeState)
    requires WellFormed(s)
    ensures WellFormed(r)
    ensures r.initialVol == s.initialVol && r.direction == s.direction && r.period == s.period
  {
    if k == 0 then s else Step(StepN(s, k - 1))
  }

  /** An envelope with a period of 0 never changes the volume. */
  lemma {:induction false} ZeroPeriodHoldsVolume(s: EnvelopeState, k: nat)
    requires WellFormed(s) && s.period == 0
    ensures StepN(s, k) == s
  {
    if k > 0 {
      ZeroPeriodHoldsVolume(s, k - 1);
    }
  }

  lemma {:induction false} StepNAdd(s: EnvelopeState, a: nat, b: nat)
    requires WellFormed(s)
    ensures StepN(s, a + b) == StepN(StepN(s, a), b)
  {
    if b > 0 {
      StepNAdd(s, a, b - 1);
    }
  }

  /** Before the timer runs out the volume holds and the timer counts
      down. */
  lemma {:induction false} TimerCountsDown(s: EnvelopeState, k: nat)
    requires WellFormed(s) && s.period > 0 && k < s.periodTimer
    ensures StepN(s, k) == s.(periodTimer := s.periodTimer - k)
  {
    if k > 0 {
      TimerCountsDown(s, k - 1);
    }
  }

  /** The volume steps exactly once each time the period timer runs out,
      and the timer then starts a full period again. */
  lemma OnePeriodStepsOnce(s: EnvelopeState)
    requires WellFormed(s) && s.period > 0
    ensures StepN(s, s.periodTimer) == s.(periodTimer := s.period, currentVol := Stepped(s))
    ensures forall k :: 0 <= k < s.periodTimer ==> StepN(s, k).currentVol == s.currentVol
  {
    TimerCountsDown(s, s.periodTimer - 1);
    forall k | 0 <= k < s.periodTimer
      ensures StepN(s, k).currentVol == s.currentVol
    {
      TimerCountsDown(s, k);
    }
  }

  /** The volume reached after `k` whole periods from a full timer: it has
      moved `k` steps, held at the end it runs into. */
  function VolumeAfter(s: EnvelopeState, k: nat): (v: int)
  {
    match s.direction
    case Increase => if s.currentVol + k < 15 then s.currentVol + k else 15
    case Decrease => if s.currentVol - k > 0 then s.currentVol - k else 0
  }

  /** After `k` whole periods the envelope has moved the volume `k` steps
      in its direction, stopping at 0 or 15. */
  lemma {:induction false} VolumeAfterPeriods(s: EnvelopeState, k: nat)
    requires WellFormed(s) && s.period > 0 && s.periodTimer == s.period
    ensures StepN(s, k * s.period).currentVol == VolumeAfter(s, k)
    ensures StepN(s, k * s.period).periodTimer == s.period
  {
    if k == 0 {
      assert k * s.period == 0;
    } else {
      VolumeAfterPeriods(s, k - 1);
      var t := StepN(s, (k - 1) * s.period);
      assert k * s.period == (k - 1) * s.period + s.period;
      StepNAdd(s, (k - 1) * s.period, s.period);
      OnePeriodStepsOnce(t);
    }
  }

  class Envelope {
    var initialVol: int
    var direction: Direction
    var period: int
    var periodTimer: int
    var currentVol: int

    function State(): EnvelopeState
      reads this
    {
      EnvelopeState(initialVol, direction, period, periodTimer, currentVol)
    }

    predicate Valid()
      reads this
    {
      WellFormed(State())
    }

    /** `Envelope::default`: silent, decreasing, period 0. */
    constructor ()
      ensures Valid() && State() == EnvelopeState(0, Decrease, 0, 0, 0)
    {
      initialVol, direction, period, periodTimer, currentVol := 0, Decrease, 0, 0, 0;
    }

    /** `init`: the whole envelope is replaced by the one NRx2 describes. */
    method Init(nrx2: u8)
      modifies this
      ensures Valid() && State() == Decode(nrx2)
    {
      var p := nrx2 & 0x07;
      var v := (nrx2 & 0xF0) >> 4;
      var d := DirectionFrom((nrx2 & 0x08) >> 3);
      initialVol, direction, period := v as int, d.value, p as int;
      periodTimer, currentVol := p as int, v as int;
    }

    /** `current_vol`. */
    function CurrentVol(): (v: u8)
      requires Valid()
      reads this
      ensures v as int == currentVol && v <= 15
    {
      currentVol as u8
    }

    /** `tick`, step by step as the source runs it. */
    method Tick()
      requires Valid()
      modifies this
      ensures Valid() && State() == Step(old(State()))
    {
      if period == 0 {
        return;
      }
      if periodTimer > 0 {
        periodTimer := periodTimer - 1;
      }
      if periodTimer == 0 {
        periodTimer := period;
        var notAtBoundary := match direction
          case Increase => currentVol < 0xF
          case Decrease => currentVol > 0;
        if notAtBoundary {
          currentVol := match direction
            case Increase => currentVol + 1
            case Decrease => currentVol - 1;
        }
      }
    }
  }
}

/** The frequency sweep of channel 1: NR10 gives a period, a direction and
    a slope; every `period` sweep clocks the frequency moves by itself
    shifted right by the slope, and a frequency past 2047 switches the
    sweep off. */
module ApuSweep {
  import opened Bits

  datatype SweepDirection = Increase | Decrease

  /** `SweepDirection::from`: 0 increases, 1 decreases, and any other value
      is unreachable in the source. */
  function SweepDirectionFrom(val: u8): (r: Result<SweepDirection>)
    ensures r == Ok(Increase) <==> val == 0
    ensures r == Ok(Decrease) <==> val == 1
    ensures r == Panic <==> val > 1
  {
    if val == 0 then Ok(Increase) else if val == 1 then Ok(Decrease) else Panic
  }

  /** The highest frequency the 11-bit frequency register holds. */
  const MaxFreq := 2047

  /** The sweep's fields: the 16-bit shadow frequency and the 3-bit timer,
      period and slope. */
  datatype SweepState = SweepState(enabled: bool, shadowFreq: Addr, timer: int, period: int,
                                   direction: SweepDirection, slope: int)

  predicate WellFormed(s: SweepState)
  {
    0 <= s.timer <= 8 && 0 <= s.period <= 7 && 0 <= s.slope <= 7
  }

  /** `Sweep::new`: the sweep runs when the period or the slope is non-zero,
      and a period of 0 times out after 8 clocks. */
  function New(nr10: u8, freq: Addr): (s: SweepState)
    ensures WellFormed(s)
    ensures s.period == ((nr10 & 0x70) >> 4) as int && s.slope == (nr10 & 0x07) as int
    ensures s.direction == (if nr10 & 0x08 == 0 then Increase else Decrease)
    ensures s.enabled <==> s.period != 0 || s.slope != 0
    ensures s.timer == (if s.period != 0 then s.period else 8)
    ensures s.shadowFreq == freq
  {
    var period := ((nr10 & 0x70) >> 4) as int;
    var direction := SweepDirectionFrom((nr10 & 0x08) >> 3);
    var slope := (nr10 & 0x07) as int;
    SweepState(period != 0 || slope != 0, freq, if period != 0 then period else 8, period,
               direction.value, slope)
  }

  /** `x >> n` on an unsigned value: `n` halvings, rounding down. */
  function ShiftRight(x: nat, n: nat): (r: nat)
    ensures r <= x
    ensures n > 0 && x > 0 ==> r < x
  {
    if n == 0 then x else ShiftRight(x / 2, n - 1)
  }

  /** `calc_freq`: a new frequency past 2047 switches the sweep off and gives
      none. The sum of an increase can pass 16 bits, which the source's
      `+=` does not allow. */
  function CalcFreq(s: SweepState, freq: Addr): (r: (SweepState, Result<Option<Addr>>))
    requires WellFormed(s)
    ensures WellFormed(r.0)
    ensures r.1.Ok? && r.1.value.Some? ==> r.1.value.value <= MaxFreq && r.0 == s
    ensures r.1 == Ok(None) ==> r.0 == s.(enabled := false)
    ensures r.1 == Panic ==> s.direction == Increase && r.0 == s
  {
    var shifted := ShiftRight(freq, s.slope);
    if s.direction == Increase && freq + shifted > 0xFFFF then (s, Panic)
    else
      var newFreq: Addr := if s.direction == Increase then freq + shifted else freq - shifted;
      if newFreq > MaxFreq then (s.(enabled := false), Ok(None))
      else (s, Ok(Some(newFreq)))
  }

  /** A decreasing sweep never leaves the register's range: from a frequency
      of at most 2047 it always gives a new one. */
  lemma DecreaseStaysInRange(s: SweepState, freq: Addr)
    requires WellFormed(s) && s.direction == Decrease && freq <= MaxFreq
    ensures CalcFreq(s, freq).1.Ok? && CalcFreq(s, freq).1.value.Some?
    ensures CalcFreq(s, freq).1.value.value <= freq
    ensures s.slope > 0 && freq > 0 ==> CalcFreq(s, freq).1.value.value > 0
  {
  }

  /** With a slope of 0 the sweep adds or takes the whole frequency. */
  lemma ZeroSlopeDoublesOrClears(s: SweepState, freq: Addr)
    requires WellFormed(s) && s.slope == 0 && freq <= MaxFreq
    ensures s.direction == Decrease ==> CalcFreq(s, freq).1 == Ok(Some(0))
    ensures s.direction == Increase ==>
      CalcFreq(s, freq).1 == if 2 * freq > MaxFreq then Ok(None) else Ok(Some(2 * freq))
  {
  }

  /** An increasing sweep never lowers the frequency, and from a frequency
      of at most 2047 it never overflows 16 bits. */
  lemma IncreaseNeverLowers(s: SweepState, freq: Addr)
    requires WellFormed(s) && s.direction == Increase && freq <= MaxFreq
    ensures CalcFreq(s, freq).1.Ok?
    ensures CalcFreq(s, freq).1.value.Some? ==> CalcFreq(s, freq).1.value.value >= freq
  {
  }

  /** `tick`: a stopped sweep passes the frequency through. Otherwise the
      timer counts down; until it runs out the frequency passes through.
      When it does, it reloads (8 for period 0) and, with a non-zero
      period, the new frequency is computed and checked once more ahead
      with a non-zero slope; overflowing either switches the sweep off and
      gives none. */
  function Tick(s: SweepState, freq: Addr): (r: (SweepState, Result<Option<Addr>>))
    requires WellFormed(s)
    ensures WellFormed(r.0)
    ensures r.0.period == s.period && r.0.slope == s.slope && r.0.direction == s.direction
  {
    if !s.enabled then (s, Ok(Some(freq)))
    else
      var timer := if s.timer > 0 then s.timer - 1 else s.timer;
      if timer != 0 then (s.(timer := timer), Ok(Some(freq)))
      else
        var s1 := s.(timer := if s.period > 0 then s.period else 8);
        if s1.enabled && s1.period > 0 then
          var (s2, first) := CalcFreq(s1, freq);
          match first
          case Panic => (s2, Panic)
          case Ok(None) => (s2, Ok(None))
          case Ok(Some(newFreq)) =>
            if newFreq <= MaxFreq && s2.slope > 0 then
              var (s3, second) := CalcFreq(s2, newFreq);
              match second
              case Panic => (s3, Panic)
              case Ok(None) => (s3, Ok(None))
              case Ok(Some(_)) => (s3, Ok(Some(newFreq)))
            else (s2, Ok(Some(newFreq)))
        else (s1, Ok(Some(freq)))
  }

  /** A stopped sweep passes the frequency through and changes nothing. */
  lemma StoppedSweepPassesThrough(s: SweepState, freq: Addr)
    requires WellFormed(s) && !s.enabled
    ensures Tick(s, freq) == (s, Ok(Some(freq)))
  {
  }

  /** While the timer has not run out the frequency passes through and only
      the timer changes. */
  lemma WaitingSweepPassesThrough(s: SweepState, freq: Addr)
    requires WellFormed(s) && s.enabled && s.timer > 1
    ensures Tick(s, freq) == (s.(timer := s.timer - 1), Ok(Some(freq)))
  {
  }

  /** A tick gives none exactly when it switches the sweep off, and a new
      frequency it gives is within the register's range. */
  lemma TickNoneIffSwitchedOff(s: SweepState, freq: Addr)
    requires WellFormed(s) && s.enabled && freq <= MaxFreq
    ensures Tick(s, freq).1.Ok?
    ensures Tick(s, freq).1 == Ok(None) <==> !Tick(s, freq).0.enabled
    ensures Tick(s, freq).1.value.Some? ==> Tick(s, freq).1.value.value <= MaxFreq
  {
    var timer := if s.timer > 0 then s.timer - 1 else s.timer;
    if timer == 0 && s.period > 0 {
      var s1 := s.(timer := s.period);
      if s.direction == Increase {
        IncreaseNeverLowers(s1, freq);
        var first := CalcFreq(s1, freq).1;
        if first.value.Some? {
          IncreaseNeverLowers(s1, first.value.value);
        }
      } else {
        DecreaseStaysInRange(s1, freq);
        var first := CalcFreq(s1, freq).1;
        DecreaseStaysInRange(s1, first.value.value);
      }
    }
  }

  class Sweep {
    var enabled: bool
    var shadowFreq: Addr
    var timer: int
    var period: int
    var direction: SweepDirection
    var slope: int

    function State(): SweepState
      reads this
    {
      SweepState(enabled, shadowFreq, timer, period, direction, slope)
    }

    predicate Valid()
      reads this
    {
      WellFormed(State())
    }

    /** `Sweep::new`. */
    constructor (nr10: u8, freq: Addr)
      ensures Valid() && State() == New(nr10, freq)
    {
      var p := ((nr10 & 0x70) >> 4) as int;
      var d := SweepDirectionFrom((nr10 & 0x08) >> 3);
      var sl := (nr10 & 0x07) as int;
      enabled := p != 0 || sl != 0;
      shadowFreq := freq;
      timer := if p != 0 then p else 8;
      period, direction, slope := p, d.value, sl;
    }

    /** `is_enabled`. */
    function IsEnabled(): (b: bool)
      reads this
      ensures b == State().enabled
    {
      enabled
    }

    /** `calc_freq`, step by step as the source runs it. */
    method CalcFreqStep(freq: Addr) returns (r: Result<Option<Addr>>)
      requires Valid()
      modifies this
      ensures Valid()
      ensures (State(), r) == CalcFreq(old(State()), freq)
    {
      var shifted := ShiftRight(freq, slope);
      var newFreq: Addr;
      if direction == Increase {
        if freq + shifted > 0xFFFF {
          return Panic;
        }
        newFreq := shifted + freq;
      } else {
        newFreq := freq - shifted;
      }
      if newFreq > 2047 {
        enabled := false;
        return Ok(None);
      }
      r := Ok(Some(newFreq));
    }

    /** `tick`, step by step as the source runs it. */
    method TickStep(freq: Addr) returns (r: Result<Option<Addr>>)
      requires Valid()
      modifies this
      ensures Valid()
      ensures (State(), r) == Tick(old(State()), freq)
    {
      if !enabled {
        return Ok(Some(freq));
      }
      if timer > 0 {
        timer := timer - 1;
      }
      if timer != 0 {
        return Ok(Some(freq));
      }
      if period > 0 {
        timer := period;
      } else {
        timer := 8;
      }
      if enabled && period > 0 {
        var first := CalcFreqStep(freq);
        if first.Panic? {
          return Panic;
        }
        if first.value.None? {
          return Ok(None);
        }
        var newFreq := first.value.value;
        if newFreq <= 2047 && slope > 0 {
          var second := CalcFreqStep(newFreq);
          if second.Panic? {
            return Panic;
          }
          if second.value.None? {
            return Ok(None);
          }
        }
        return Ok(Some(newFreq));
      }
      r := Ok(Some(freq));
    }
  }
}

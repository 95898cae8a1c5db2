/** The length counter of a sound channel: loaded from NRx1, it counts
    down on the frame sequencer's length clocks and silences the channel
    when it runs out. */
module ApuLength {
  import opened Bits

  datatype LengthMode = Infinite | Timed

  /** `LengthMode::from`: 0 never stops the channel, 1 stops it when the
      counter runs out; any other value is unreachable in the source. */
  function LengthModeFrom(val: u8): (r: Result<LengthMode>)
    ensures r == Ok(Infinite) <==> val == 0
    ensures r == Ok(Timed) <==> val == 1
    ensures r == Panic <==> val > 1
  {
    if val == 0 then Ok(Infinite) else if val == 1 then Ok(Timed) else Panic
  }

  /** The counter's fields; the timer and the base are 16-bit. */
  datatype LengthState = LengthState(enabled: bool, baseLength: Addr, timer: Addr)

  /** An enabled counter has a clock left before it runs out; otherwise
      the source's `length_timer -= 1` would underflow. */
  predicate Safe(s: LengthState)
  {
    s.enabled ==> s.timer != 0
  }

  /** `init`: the timer is the base length minus the loaded length, wrapping
      as `wrapping_sub` does, and the counter runs. */
  function Loaded(s: LengthState, initial: u8): (r: LengthState)
    ensures r.enabled && r.baseLength == s.baseLength
    ensures initial as int <= s.baseLength ==> r.timer == s.baseLength - initial as int
    ensures Safe(r) <==> initial as int != s.baseLength
  {
    s.(timer := Wrap16(s.baseLength - initial as int), enabled := true)
  }

  /** `tick`: a running counter loses one; it reports `true` and stops
      exactly when it reaches 0. A stopped counter reports `false` and
      changes nothing. An enabled counter at 0 underflows. */
  function Clocked(s: LengthState): (r: Result<(LengthState, bool)>)
    ensures r.Ok? <==> Safe(s)
    ensures !s.enabled ==> r == Ok((s, false))
    ensures r.Ok? && s.enabled ==>
      r.value.0.timer == s.timer - 1 && r.value.0.baseLength == s.baseLength
      && r.value.1 == (s.timer == 1) && r.value.0.enabled == !r.value.1
    ensures r.Ok? ==> Safe(r.value.0)
  {
    if !s.enabled then Ok((s, false))
    else if s.timer == 0 then Panic
    else
      var t := s.timer - 1;
      Ok((s.(timer := t, enabled := t != 0), t == 0))
  }

  /** The counter after `k` clocks that all went through. */
  function TickN(s: LengthState, k: nat): (r: LengthState)
    requires Safe(s)
    ensures Safe(r)
  {
    if k == 0 then s else Clocked(TickN(s, k - 1)).value.0
  }

  /** A counter loaded with `n` clocks left reports nothing for `n - 1`
      clocks and reports running out on the `n`-th. */
  lemma {:induction false} RunsOutAfterTimer(s: LengthState, k: nat)
    requires s.enabled && Safe(s) && k < s.timer
    ensures TickN(s, k) == s.(timer := s.timer - k)
    ensures Clocked(TickN(s, k)).value.1 <==> k == s.timer - 1
  {
    if k > 0 {
      RunsOutAfterTimer(s, k - 1);
    }
  }

  /** A channel loads NRx1's low six bits into a counter of base 64, so its
      counter never underflows. */
  lemma ChannelInitIsSafe(s: LengthState, nrx1: u8)
    requires s.baseLength == 64
    ensures Safe(Loaded(s, nrx1 & 0x3F))
    ensures 1 <= Loaded(s, nrx1 & 0x3F).timer <= 64
  {
  }

  class Length {
    var enabled: bool
    var baseLength: Addr
    var lengthTimer: Addr

    function State(): LengthState
      reads this
    {
      LengthState(enabled, baseLength, lengthTimer)
    }

    /** `Length::new`: stopped, with the given base. */
    constructor (baseLength: Addr)
      ensures State() == LengthState(false, baseLength, 0) && Safe(State())
    {
      enabled := false;
      this.baseLength := baseLength;
      lengthTimer := 0;
    }

    /** `init`. */
    method Init(initial: u8)
      modifies this
      ensures State() == Loaded(old(State()), initial)
    {
      lengthTimer := Wrap16(baseLength - initial as int);
      enabled := true;
    }

    /** `tick`, step by step as the source runs it. */
    method Tick() returns (r: Result<bool>)
      modifies this
      ensures Clocked(old(State())).Ok? ==>
        r == Ok(Clocked(old(State())).value.1) && State() == Clocked(old(State())).value.0
      ensures Clocked(old(State())) == Panic ==> r == Panic
    {
      if enabled {
        if lengthTimer == 0 {
          return Panic;
        }
        lengthTimer := lengthTimer - 1;
        enabled := lengthTimer != 0;
        return Ok(lengthTimer == 0);
      }
      r := Ok(false);
    }
  }
}

/** Sound channel 4: a linear-feedback shift register (the white noise
    generator) clocked at a rate NR43 selects, with a volume envelope and a
    length counter. */
module ApuNoise {
  import opened Bits
  import Env = ApuEnvelope
  import Len = ApuLength
  import opened ApuFrameSequencer

  datatype CounterWidth = Width15 | Width7

  /** 2 to the power `n`. */
  function Pow2(n: nat): (r: nat)
    ensures r >= 1
  {
    if n == 0 then 1 else 2 * Pow2(n - 1)
  }

  /** `into_divisor`: code 0 divides by 8, any other code by 16 times the
      code. */
  function Divisor(code: int): (r: int)
    requires 0 <= code <= 7
    ensures 8 <= r <= 112 && r % 8 == 0
    ensures code > 0 ==> r == 16 * code
  {
    if code == 0 then 8 else code * 16
  }

  /** The number of cycles between two LFSR steps: the divisor shifted left
      by the shift amount. It is at most 112 * 2^15, so the source's 32-bit
      shift never overflows. */
  function ReloadPeriod(code: int, shift: nat): (r: int)
    requires 0 <= code <= 7
    ensures r >= 8
  {
    Divisor(code) * Pow2(shift)
  }

  /** The generator's fields; the 3-bit divisor code and 4-bit shift amount
      are plain integers, the register is 16-bit. */
  datatype GeneratorState = GeneratorState(divisorCode: int, shiftAmount: int, widthMode: CounterWidth,
                                           val: u8, lsfr: u16, freqTimer: int)

  /** A live register: within 15 bits, not all zero, and, in 7-bit mode,
      not all zero in the seven bits that cycle. A dead register would
      shift out zeros forever. */
  predicate Live(l: u16, w: CounterWidth)
  {
    l < 0x8000 && l != 0 && (w == Width7 ==> l & 0x7F != 0)
  }

  /** The fields' ranges, a live register, and a timer that has at least
      one cycle left (the source's `freq_timer -= 1` would underflow at 0). */
  predicate GenWellFormed(g: GeneratorState)
  {
    0 <= g.divisorCode <= 7 && 0 <= g.shiftAmount <= 15
    && 1 <= g.freqTimer <= ReloadPeriod(g.divisorCode, g.shiftAmount)
    && Live(g.lsfr, g.widthMode)
  }

  /** `WhiteNoiseGenerator::new`: NR43 gives the divisor code (bits 0-2),
      the width (bit 3) and the shift (bits 4-7); the register starts at
      all fifteen ones and a full period ahead. */
  function NewGenerator(val: u8): (g: GeneratorState)
    ensures GenWellFormed(g)
    ensures g.divisorCode == (val & 0x07) as int && g.shiftAmount == (val >> 4) as int
    ensures g.widthMode == (if val & 0x08 == 0 then Width15 else Width7)
    ensures g.lsfr == 0x7FFF && g.val == val
    ensures g.freqTimer == ReloadPeriod(g.divisorCode, g.shiftAmount)
  {
    var divisorCode := (val & 0x07) as int;
    var shiftAmount := ((val & 0xF0) >> 4) as int;
    var widthMode := if val & 0x08 == 0 then Width15 else Width7;
    GeneratorState(divisorCode, shiftAmount, widthMode, val, 0x7FFF,
                   ReloadPeriod(divisorCode, shiftAmount))
  }

  /** One register step: shift right, feeding bit 0 XOR bit 1 back in at
      bit 14, or at bit 6 in 7-bit mode. */
  function LfsrStep(l: u16, w: CounterWidth): (r: u16)
  {
    var bit := (l & 0x01) ^ ((l & 0x02) >> 1);
    match w
    case Width7 => ((l >> 1) & !0x40) | (bit << 6)
    case Width15 => ((l >> 1) & !0x4000) | (bit << 14)
  }

  /** In 15-bit mode the bits below 14 are the old bits shifted down, and
      bit 14 is the feedback bit. */
  lemma Width15Feedback(l: u16)
    requires l < 0x8000
    ensures LfsrStep(l, Width15) & 0x3FFF == (l >> 1) & 0x3FFF
    ensures (LfsrStep(l, Width15) >> 14) == (l ^ (l >> 1)) & 1
  {
  }

  /** In 7-bit mode every bit but bit 6 is the old bit shifted down, and
      bit 6 is the feedback bit. */
  lemma Width7Feedback(l: u16)
    requires l < 0x8000
    ensures LfsrStep(l, Width7) & !0x40 == (l >> 1) & !0x40
    ensures (LfsrStep(l, Width7) >> 6) & 1 == (l ^ (l >> 1)) & 1
  {
  }

  /** A live register stays live: it keeps within 15 bits and never
      locks up at zero, in either width. */
  lemma LfsrStaysLive(l: u16, w: CounterWidth)
    requires Live(l, w)
    ensures Live(LfsrStep(l, w), w)
  {
  }

  /** One cycle of the generator (`tick`): the timer counts down and, when
      it runs out, reloads and steps the register. */
  function GenTick(g: GeneratorState): (r: GeneratorState)
    requires GenWellFormed(g)
    ensures GenWellFormed(r)
    ensures r.divisorCode == g.divisorCode && r.shiftAmount == g.shiftAmount
    ensures r.widthMode == g.widthMode && r.val == g.val
  {
    if g.freqTimer - 1 != 0 then g.(freqTimer := g.freqTimer - 1)
    else
      LfsrStaysLive(g.lsfr, g.widthMode);
      g.(freqTimer := ReloadPeriod(g.divisorCode, g.shiftAmount), lsfr := LfsrStep(g.lsfr, g.widthMode))
  }

  function GenTickN(g: GeneratorState, k: nat): (r: GeneratorState)
    requires GenWellFormed(g)
    ensures GenWellFormed(r)
    ensures r.divisorCode == g.divisorCode && r.shiftAmount == g.shiftAmount
    ensures r.widthMode == g.widthMode && r.val == g.val
  {
    if k == 0 then g else GenTick(GenTickN(g, k - 1))
  }

  /** Before the timer runs out the register holds. */
  lemma {:induction false} RegisterHoldsUntilTimeout(g: GeneratorState, k: nat)
    requires GenWellFormed(g) && k < g.freqTimer
    ensures GenTickN(g, k) == g.(freqTimer := g.freqTimer - k)
  {
    if k > 0 {
      RegisterHoldsUntilTimeout(g, k - 1);
    }
  }

  /** The register steps exactly once when the timer runs out, and the
      next step is a whole period away. */
  lemma RegisterStepsOncePerPeriod(g: GeneratorState)
    requires GenWellFormed(g)
    ensures GenTickN(g, g.freqTimer)
      == g.(freqTimer := ReloadPeriod(g.divisorCode, g.shiftAmount), lsfr := LfsrStep(g.lsfr, g.widthMode))
  {
    RegisterHoldsUntilTimeout(g, g.freqTimer - 1);
  }

  /** `sample`: the inverted bit 0 of the register, as 0 or 1. */
  function GenSample(g: GeneratorState): (r: u8)
    ensures r <= 1
    ensures r == 1 <==> g.lsfr & 1 == 0
  {
    if (!g.lsfr) & 1 == 1 then 1 else 0
  }

  class WhiteNoiseGenerator {
    var divisorCode: int
    var shiftAmount: int
    var widthMode: CounterWidth
    var val: u8
    var lsfr: u16
    var freqTimer: int

    function State(): GeneratorState
      reads this
    {
      GeneratorState(divisorCode, shiftAmount, widthMode, val, lsfr, freqTimer)
    }

    predicate Valid()
      reads this
    {
      GenWellFormed(State())
    }

    /** `WhiteNoiseGenerator::new`. */
    constructor (nr43: u8)
      ensures Valid() && State() == NewGenerator(nr43)
    {
      var code := (nr43 & 0x07) as int;
      var shift := ((nr43 & 0xF0) >> 4) as int;
      divisorCode, shiftAmount := code, shift;
      widthMode := if nr43 & 0x08 == 0 then Width15 else Width7;
      val := nr43;
      lsfr := 0x7FFF;
      freqTimer := ReloadPeriod(code, shift);
    }

    /** Replaces the generator by `WhiteNoiseGenerator::new(nr43)`, as the
        channel's assignment of a fresh generator does. */
    method Rebuild(nr43: u8)
      modifies this
      ensures Valid() && State() == NewGenerator(nr43)
    {
      var g := NewGenerator(nr43);
      divisorCode, shiftAmount, widthMode := g.divisorCode, g.shiftAmount, g.widthMode;
      val, lsfr, freqTimer := g.val, g.lsfr, g.freqTimer;
    }

    /** `tick`, step by step as the source runs it. */
    method Tick()
      requires Valid()
      modifies this`freqTimer, this`lsfr
      ensures Valid() && State() == GenTick(old(State()))
    {
      freqTimer := freqTimer - 1;
      if freqTimer != 0 {
        return;
      }
      freqTimer := ReloadPeriod(divisorCode, shiftAmount);
      LfsrStaysLive(lsfr, widthMode);
      lsfr := LfsrStep(lsfr, widthMode);
    }

    /** `sample`. */
    function Sample(): (r: u8)
      reads this
      ensures r == GenSample(State())
    {
      if (!lsfr) & 1 == 1 then 1 else 0
    }
  }

  /** The channel's fields: the generator, envelope and length counter are
      held by value in the source. */
  datatype ChannelState = ChannelState(enabled: bool, gen: GeneratorState, env: Env.EnvelopeState,
                                       len: Len.LengthState, lengthMode: Len.LengthMode,
                                       nrx1: u8, nrx2: u8, nr43: u8, nrx4: u8)

  /** The parts are well formed, the length counter has base 64 (NR41's six
      bits) and it never underflows. */
  predicate ChannelWellFormed(s: ChannelState)
  {
    GenWellFormed(s.gen) && Env.WellFormed(s.env) && s.len.baseLength == 64 && Len.Safe(s.len)
  }

  /** `NoiseChannel::new`: silent, with NR43 0xFF's generator, the default
      envelope and an idle counter of base 64. */
  function InitialChannel(): (s: ChannelState)
    ensures ChannelWellFormed(s) && !s.enabled
  {
    ChannelState(false, NewGenerator(0xFF), Env.EnvelopeState(0, Env.Decrease, 0, 0, 0),
                 Len.LengthState(false, 64, 0), Len.Infinite, 0, 0, 0, 0)
  }

  /** `read_u8`: NR41-NR43 read back as written; of NR44 only bit 6 reads
      back, the other bits read as 1. Any other address panics. */
  function ReadChannel(s: ChannelState, addr: Addr): (r: Result<u8>)
    ensures r.Ok? <==> 0xFF20 <= addr <= 0xFF23
  {
    if addr == 0xFF20 then Ok(s.nrx1)
    else if addr == 0xFF21 then Ok(s.nrx2)
    else if addr == 0xFF22 then Ok(s.nr43)
    else if addr == 0xFF23 then Ok(s.nrx4 | 0xBF)
    else Panic
  }

  /** `write_u8`: NR41 and NR42 are stored; NR43 is stored and rebuilds the
      generator; NR44 is stored, selects the length mode from bit 6 (and
      then loads the counter from NR41's six bits), and with bit 7 set
      triggers the channel: it is enabled, the envelope restarts from NR42
      and the generator is rebuilt from NR43. Any other address panics. */
  function WriteChannel(s: ChannelState, addr: Addr, val: u8): (r: Result<ChannelState>)
    requires ChannelWellFormed(s)
    ensures r.Ok? <==> 0xFF20 <= addr <= 0xFF23
    ensures r.Ok? ==> ChannelWellFormed(r.value)
  {
    if addr == 0xFF20 then Ok(s.(nrx1 := val))
    else if addr == 0xFF21 then Ok(s.(nrx2 := val))
    else if addr == 0xFF22 then Ok(s.(nr43 := val, gen := NewGenerator(val)))
    else if addr == 0xFF23 then Ok(AfterNr44(s, val))
    else Panic
  }

  /** A write to NR44: the length mode and counter, then the trigger. */
  function AfterNr44(s: ChannelState, val: u8): (r: ChannelState)
    requires ChannelWellFormed(s)
    ensures ChannelWellFormed(r) && r.nrx4 == val
    ensures r.lengthMode == (if val & 0x40 != 0 then Len.Timed else Len.Infinite)
  {
    var lengthEnabled := val & 0x40 != 0;
    Len.ChannelInitIsSafe(s.len, s.nrx1);
    var s1 := s.(nrx4 := val, lengthMode := if lengthEnabled then Len.Timed else Len.Infinite,
                 len := if lengthEnabled then Len.Loaded(s.len, s.nrx1 & 0x3F) else s.len);
    if val & 0x80 != 0 then Triggered(s1) else s1
  }

  /** A trigger: the channel is enabled, the envelope restarts from NR42 and
      the generator is rebuilt from NR43. */
  function Triggered(s: ChannelState): (r: ChannelState)
    requires ChannelWellFormed(s)
    ensures ChannelWellFormed(r) && r.enabled
    ensures r.env == Env.Decode(s.nrx2) && r.gen == NewGenerator(s.nr43)
    ensures r.(enabled := s.enabled, env := s.env, gen := s.gen) == s
  {
    s.(enabled := true, env := Env.Decode(s.nrx2), gen := NewGenerator(s.nr43))
  }

  /** Every register reads back what was written to it, except that NR44
      reads its bits other than 6 as 1. */
  lemma ReadAfterWrite(s: ChannelState, addr: Addr, val: u8)
    requires ChannelWellFormed(s) && 0xFF20 <= addr <= 0xFF23
    ensures ReadChannel(WriteChannel(s, addr, val).value, addr)
      == Ok(if addr == 0xFF23 then val | 0xBF else val)
    ensures addr == 0xFF23 ==> (ReadChannel(WriteChannel(s, addr, val).value, addr).value & 0x40 != 0
      <==> val & 0x40 != 0)
  {
  }

  /** Writing NR44 with bits 6 and 7 set starts the channel in timed mode
      with `64 - (NR41 & 0x3F)` length clocks to run, the envelope at NR42's
      start volume and the register reseeded. */
  lemma TriggerWithLength(s: ChannelState, val: u8)
    requires ChannelWellFormed(s) && val & 0xC0 == 0xC0
    ensures var t := WriteChannel(s, 0xFF23, val).value;
      t.enabled && t.lengthMode == Len.Timed && t.len.enabled
      && t.len.timer == 64 - (s.nrx1 & 0x3F) as int
      && t.env.currentVol == (s.nrx2 >> 4) as int && t.gen.lsfr == 0x7FFF
  {
  }

  /** `tick`: a silent channel does nothing. Otherwise a length clock in
      timed mode runs the counter and silences the channel when it runs
      out, an envelope clock steps the envelope, and the generator ticks. */
  function TickChannel(s: ChannelState, c: SteppedComponents): (r: ChannelState)
    requires ChannelWellFormed(s)
    ensures ChannelWellFormed(r)
    ensures !s.enabled ==> r == s
    ensures r.enabled ==> s.enabled
    ensures r.lengthMode == s.lengthMode && r.nrx1 == s.nrx1 && r.nrx2 == s.nrx2
    ensures r.nr43 == s.nr43 && r.nrx4 == s.nrx4
  {
    if !s.enabled then s
    else
      var lenClocked := s.lengthMode == Len.Timed && c.lengthCtrl;
      var len := if lenClocked then Len.Clocked(s.len).value.0 else s.len;
      var enabled := if lenClocked then !Len.Clocked(s.len).value.1 else s.enabled;
      var env := if c.volEnvelope then Env.Step(s.env) else s.env;
      s.(enabled := enabled, len := len, env := env, gen := GenTick(s.gen))
  }

  /** A step of the frame sequencer that clocks the length counters only. */
  const LengthClock := SteppedComponents(true, false, false)

  /** The channel after `k` ticks that each clock the length counter. */
  function LengthClocks(s: ChannelState, k: nat): (r: ChannelState)
    requires ChannelWellFormed(s)
    ensures ChannelWellFormed(r)
    ensures r.lengthMode == s.lengthMode
  {
    if k == 0 then s else TickChannel(LengthClocks(s, k - 1), LengthClock)
  }

  /** A running channel in timed mode sounds for exactly as many length
      clocks as its counter holds, then falls silent. */
  lemma {:induction false} SilencedWhenLengthRunsOut(s: ChannelState, k: nat)
    requires ChannelWellFormed(s) && s.enabled && s.lengthMode == Len.Timed && s.len.enabled
    requires k <= s.len.timer
    ensures LengthClocks(s, k).enabled <==> k < s.len.timer
    ensures k < s.len.timer ==>
      LengthClocks(s, k).len.enabled && LengthClocks(s, k).len.timer == s.len.timer - k
  {
    if k > 0 {
      SilencedWhenLengthRunsOut(s, k - 1);
    }
  }

  /** After a trigger with the length enabled, the channel is silenced by
      exactly the `64 - (NR41 & 0x3F)`-th length clock. */
  lemma TriggeredChannelRunsOut(s: ChannelState, val: u8)
    requires ChannelWellFormed(s) && val & 0xC0 == 0xC0
    ensures var t := WriteChannel(s, 0xFF23, val).value;
      var n := 64 - (s.nrx1 & 0x3F) as int;
      (forall k: nat :: k < n ==> LengthClocks(t, k).enabled) && !LengthClocks(t, n).enabled
  {
    var t := WriteChannel(s, 0xFF23, val).value;
    TriggerWithLength(s, val);
    var n := 64 - (s.nrx1 & 0x3F) as int;
    forall k: nat | k < n
      ensures LengthClocks(t, k).enabled
    {
      SilencedWhenLengthRunsOut(t, k);
    }
    SilencedWhenLengthRunsOut(t, n);
  }

  class NoiseChannel {
    var enabled: bool
    const generator: WhiteNoiseGenerator
    const envelope: Env.Envelope
    const length: Len.Length
    var lengthMode: Len.LengthMode
    var nrx1: u8
    var nrx2: u8
    var nr43: u8
    var nrx4: u8

    function State(): ChannelState
      reads this, generator, envelope, length
    {
      ChannelState(enabled, generator.State(), envelope.State(), length.State(), lengthMode,
                   nrx1, nrx2, nr43, nrx4)
    }

    predicate Valid()
      reads this, generator, envelope, length
    {
      ChannelWellFormed(State())
    }

    /** `NoiseChannel::new`. */
    constructor ()
      ensures Valid() && State() == InitialChannel()
      ensures fresh(generator) && fresh(envelope) && fresh(length)
    {
      enabled := false;
      generator := new WhiteNoiseGenerator(0xFF);
      envelope := new Env.Envelope();
      length := new Len.Length(64);
      lengthMode := Len.Infinite;
      nrx1, nrx2, nr43, nrx4 := 0, 0, 0, 0;
    }

    /** `read_u8`. */
    function ReadU8(addr: Addr): (r: Result<u8>)
      reads this
      ensures r == ReadChannel(State(), addr)
    {
      if addr == 0xFF20 then Ok(nrx1)
      else if addr == 0xFF21 then Ok(nrx2)
      else if addr == 0xFF22 then Ok(nr43)
      else if addr == 0xFF23 then Ok(nrx4 | 0xBF)
      else Panic
    }

    /** `enabled`. */
    function Enabled(): (b: bool)
      reads this
      ensures b == State().enabled
    {
      enabled
    }

    /** `write_u8`, step by step as the source runs it; a write to an
        address outside NR41-NR44 panics and changes nothing here. */
    method WriteU8(addr: Addr, val: u8) returns (ok: bool)
      requires Valid()
      modifies this, generator, envelope, length
      ensures Valid()
      ensures ok == WriteChannel(old(State()), addr, val).Ok?
      ensures ok ==> State() == WriteChannel(old(State()), addr, val).value
      ensures !ok ==> State() == old(State())
    {
      if addr == 0xFF20 {
        nrx1 := val;
      } else if addr == 0xFF21 {
        nrx2 := val;
      } else if addr == 0xFF22 {
        nr43 := val;
        generator.Rebuild(nr43);
      } else if addr == 0xFF23 {
        WriteNr44(val);
      } else {
        return false;
      }
      ok := true;
    }

    /** The NR44 arm of `write_u8`, step by step as the source runs it. */
    method WriteNr44(val: u8)
      requires Valid()
      modifies this`nrx4, this`lengthMode, this`enabled, generator, envelope, length
      ensures Valid() && State() == AfterNr44(old(State()), val)
    {
      nrx4 := val;
      var lengthEnabled := val & 0x40 != 0;
      lengthMode := if lengthEnabled then Len.Timed else Len.Infinite;
      if lengthEnabled {
        Len.ChannelInitIsSafe(length.State(), nrx1);
        length.Init(nrx1 & 0x3F);
      }
      var channelTriggered := val & 0x80 != 0;
      if channelTriggered {
        Trigger();
      }
    }

    /** The trigger arm of an NR44 write. */
    method Trigger()
      requires Valid()
      modifies this`enabled, generator, envelope
      ensures Valid() && State() == Triggered(old(State()))
    {
      enabled := true;
      envelope.Init(nrx2);
      generator.Rebuild(nr43);
    }

    /** `tick`, step by step as the source runs it. */
    method Tick(c: SteppedComponents)
      requires Valid()
      modifies this`enabled, generator, envelope, length
      ensures Valid() && State() == TickChannel(old(State()), c)
    {
      if !enabled {
        return;
      }
      if lengthMode == Len.Timed && c.lengthCtrl {
        var ranOut := length.Tick();
        enabled := !ranOut.value;
      }
      if c.volEnvelope {
        envelope.Tick();
      }
      generator.Tick();
    }
  }
}

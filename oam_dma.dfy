/** OAM DMA: a write to 0xFF46 queues a copy of 160 bytes from
    `val * 0x100` into the sprite table; the copy starts five cycles later
    and moves one byte every four cycles. The copy itself reads through the
    bus, so the cycle that moves a byte is modelled with the bus; this
    module holds the registers and their counters. */
module OamDmaUnit {
  import opened Bits

  /** The number of bytes one transfer copies: the whole sprite table. */
  const TransferLength := 160

  /** The counters `dma_tick` updates. */
  datatype DmaCounters = DmaCounters(queueCounter: int, queueVal: u8, base: int, index: int,
                                     active: bool, clock: int)

  /** The queue counts down from at most 5, the transfer base is a page
      address, and a running transfer has a byte left to copy. */
  predicate WellFormed(s: DmaCounters)
  {
    0 <= s.queueCounter <= 5 && 0 <= s.base <= 0xFF00 && 0 <= s.index <= TransferLength
    && (s.active ==> s.index < TransferLength && 0 <= s.clock < 4)
  }

  /** Whether the cycle after `s` copies a byte: the fourth cycle of a
      running transfer. */
  predicate CopiesByte(s: DmaCounters)
  {
    s.active && s.clock + 1 == 4
  }

  /** The transfer part of `dma_tick`: every fourth cycle the index moves
      on, and the transfer ends once 160 bytes have been copied. */
  function TransferStep(s: DmaCounters): (r: DmaCounters)
    requires WellFormed(s)
    ensures WellFormed(r)
    ensures r.queueCounter == s.queueCounter && r.queueVal == s.queueVal && r.base == s.base
    ensures !s.active ==> r == s
    ensures CopiesByte(s) ==> r.index == s.index + 1 && r.clock == 0 && (r.active <==> r.index < TransferLength)
    ensures s.active && !CopiesByte(s) ==> r.index == s.index && r.active && r.clock == s.clock + 1
  {
    if !s.active then s
    else if s.clock + 1 == 4 then
      s.(index := s.index + 1, active := s.index + 1 != TransferLength, clock := 0)
    else s.(clock := s.clock + 1)
  }

  /** The queue part of `dma_tick`: the counter runs down, and when it
      reaches 0 a transfer starts at the queued page, replacing any
      transfer still running. */
  function QueueStep(s: DmaCounters): (r: DmaCounters)
    requires WellFormed(s)
    ensures WellFormed(r)
    ensures s.queueCounter == 1 ==>
      r == DmaCounters(0, s.queueVal, s.queueVal as int * 0x100, 0, true, 0)
    ensures s.queueCounter != 1 ==>
      r == s.(queueCounter := if s.queueCounter > 0 then s.queueCounter - 1 else 0)
  {
    if s.queueCounter > 0 then
      if s.queueCounter - 1 == 0 then
        s.(queueCounter := 0, base := s.queueVal as int * 0x100, index := 0, active := true, clock := 0)
      else s.(queueCounter := s.queueCounter - 1)
    else s
  }

  /** One cycle of `dma_tick`: the transfer first, then the queue. */
  function Step(s: DmaCounters): (r: DmaCounters)
    requires WellFormed(s)
    ensures WellFormed(r)
  {
    QueueStep(TransferStep(s))
  }

  /** `k` cycles. */
  function StepN(s: DmaCounters, k: nat): (r: DmaCounters)
    requires WellFormed(s)
    ensures WellFormed(r)
  {
    if k == 0 then s else Step(StepN(s, k - 1))
  }

  /** The counters right after `queue(val)`. */
  function Queued(s: DmaCounters, val: u8): (r: DmaCounters)
    requires WellFormed(s)
    ensures WellFormed(r) && r.queueCounter == 5 && r.queueVal == val
  {
    s.(queueVal := val, queueCounter := 5)
  }

  /** A transfer that has just started at `base`, with nothing queued. */
  predicate JustStarted(s: DmaCounters, base: int)
  {
    s.active && s.index == 0 && s.clock == 0 && s.queueCounter == 0 && s.base == base
  }

  /** While the queue runs down, the queued page is kept. */
  lemma {:induction false} QueueCountsDown(s: DmaCounters, k: nat)
    requires WellFormed(s) && k < s.queueCounter
    ensures StepN(s, k).queueCounter == s.queueCounter - k
    ensures StepN(s, k).queueVal == s.queueVal
  {
    if k > 0 {
      QueueCountsDown(s, k - 1);
    }
  }

  /** A write to 0xFF46 starts its transfer exactly five cycles later, at
      the written page and the first byte, whatever was running. */
  lemma QueueStartsTransfer(s: DmaCounters, val: u8)
    requires WellFormed(s)
    ensures JustStarted(StepN(Queued(s, val), 5), val as int * 0x100)
    ensures forall k :: 1 <= k < 5 ==> !JustStarted(StepN(Queued(s, val), k), val as int * 0x100)
  {
    var q := Queued(s, val);
    QueueCountsDown(q, 4);
    forall k | 1 <= k < 5
      ensures !JustStarted(StepN(q, k), val as int * 0x100)
    {
      QueueCountsDown(q, k);
    }
  }

  /** Running a schedule of `a` cycles and then `b` more is running
      `a + b` cycles. */
  lemma {:induction false} StepNAdd(s: DmaCounters, a: nat, b: nat)
    requires WellFormed(s)
    ensures StepN(s, a + b) == StepN(StepN(s, a), b)
  {
    if b > 0 {
      StepNAdd(s, a, b - 1);
    }
  }

  /** Four cycles of a running transfer with nothing queued copy exactly
      one byte and move the index on by one. */
  lemma FourCyclesCopyOneByte(s: DmaCounters)
    requires WellFormed(s) && s.active && s.clock == 0 && s.queueCounter == 0
    ensures StepN(s, 4) == s.(index := s.index + 1, active := s.index + 1 < TransferLength)
    ensures CopiesByte(StepN(s, 3)) && !CopiesByte(s) && !CopiesByte(StepN(s, 1)) && !CopiesByte(StepN(s, 2))
  {
    assert StepN(s, 1) == s.(clock := 1);
    assert StepN(s, 2) == s.(clock := 2);
    assert StepN(s, 3) == s.(clock := 3);
  }

  /** A transfer with nothing queued behind it has copied `k` bytes after
      `4 * k` cycles, and is still running exactly while fewer than 160
      have been copied: it ends after 640 cycles and 160 bytes. */
  lemma {:induction false} TransferCopiesWholeTable(s: DmaCounters, k: nat)
    requires WellFormed(s) && JustStarted(s, s.base)
    requires k <= TransferLength
    ensures StepN(s, 4 * k) == s.(index := k, active := k < TransferLength)
  {
    if k > 0 {
      TransferCopiesWholeTable(s, k - 1);
      var t := StepN(s, 4 * (k - 1));
      StepNAdd(s, 4 * (k - 1), 4);
      FourCyclesCopyOneByte(t);
    }
  }

  /** Once the transfer is over, cycles with nothing queued change
      nothing. */
  lemma IdleStepIsStill(s: DmaCounters)
    requires WellFormed(s) && !s.active && s.queueCounter == 0
    ensures Step(s) == s
  {
  }

  class OamDma {
    var ioReg: u8
    var transferIndex: int
    var transferBaseAddr: int
    var queueCounter: int
    var queueVal: u8
    var active: bool
    var activeClock: int

    function Counters(): DmaCounters
      reads this
    {
      DmaCounters(queueCounter, queueVal, transferBaseAddr, transferIndex, active, activeClock)
    }

    predicate Valid()
      reads this
    {
      WellFormed(Counters())
    }

    /** `OamDma::default`: the register reads 0xFF and nothing runs. */
    constructor ()
      ensures Valid() && ioReg == 0xFF
      ensures Counters() == DmaCounters(0, 0, 0, 0, false, 0)
    {
      ioReg := 0xFF;
      transferBaseAddr, transferIndex := 0, 0;
      queueCounter, queueVal := 0, 0;
      active, activeClock := false, 0;
    }

    /** Replaces the counters. */
    method SetCounters(s: DmaCounters)
      modifies this`queueCounter, this`queueVal, this`transferBaseAddr, this`transferIndex,
        this`active, this`activeClock
      ensures Counters() == s
    {
      queueCounter, queueVal, transferBaseAddr := s.queueCounter, s.queueVal, s.base;
      transferIndex, active, activeClock := s.index, s.active, s.clock;
    }

    /** `read_u8`: the last value written to 0xFF46. */
    function ReadU8(): (r: u8)
      reads this
      ensures r == ioReg
    {
      ioReg
    }

    /** `write_u8`: the register keeps the value and a transfer from its
      page is queued; a running transfer goes on until the queue runs
      out. */
    method WriteU8(val: u8)
      requires Valid()
      modifies this
      ensures Valid() && ioReg == val
      ensures Counters() == Queued(old(Counters()), val)
    {
      ioReg := val;
      queueVal := val;
      queueCounter := 5;
    }
  }
}

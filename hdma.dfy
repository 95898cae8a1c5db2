/** The colour console's VRAM DMA (registers 0xFF51-0xFF55): a general
    purpose transfer (GDMA) that copies every block at once, and an HBlank
    transfer (HDMA) that copies one 16-byte block per HBlank; and the
    controller that paces HDMA against the PPU's HBlank periods. */
module HdmaTransfer {
  import opened Bits
  import opened CgbCompat

  datatype DmaType = HDMA | GDMA

  /** The bookkeeping of a running transfer: the length register, the bytes
      still to copy, the bytes copied of the current block, the kind of
      transfer under way and a pending stop request. */
  datatype Progress = Progress(hdma5: u8, bytesToTransfer: int, bytesTransfered: int,
                               currentDma: Option<DmaType>, stopRequested: bool)

  /** The bytes copied of the current block: a whole number of two-byte
      words, short of a whole block. */
  predicate WordOffset(b: int)
  {
    b == 0 || b == 2 || b == 4 || b == 6 || b == 8 || b == 10 || b == 12 || b == 14
  }

  /** The bytes still to copy hold a 16-bit value, and the bytes of the
      current block move in steps of two and never reach a whole block. */
  predicate WellFormed(p: Progress)
  {
    0 <= p.bytesToTransfer < 0x10000 && WordOffset(p.bytesTransfered)
  }

  /** A transfer under way with no stop pending: the bytes still to copy and
      the bytes of the current block add up to `hdma5 + 1` blocks, so the
      length register reads the number of blocks left minus one. */
  predicate Counting(p: Progress)
  {
    WellFormed(p) && p.currentDma.Some? && !p.stopRequested
    && p.bytesToTransfer + p.bytesTransfered == (p.hdma5 as int + 1) * 16
  }

  /** `is_hdma_active`. */
  predicate IsHdmaActive(p: Progress)
  {
    p.currentDma == Some(HDMA)
  }

  /** A write to 0xFF55. While an HDMA runs, a value with bit 7 clear only
      requests a stop and stores `0x80 | val`; otherwise it starts a
      transfer of `(val & 0x7F) + 1` blocks, an HDMA when bit 7 is set and
      a GDMA when it is clear. A stop request still pending is kept. */
  function ControlWrite(p: Progress, val: u8): (q: Progress)
    requires WellFormed(p)
    ensures WellFormed(q)
    ensures IsHdmaActive(p) && val & 0x80 == 0 ==>
      q == p.(stopRequested := true, hdma5 := 0x80 | val)
    ensures !(IsHdmaActive(p) && val & 0x80 == 0) ==>
      q.bytesToTransfer == ((val & 0x7F) as int + 1) * 16 && q.bytesTransfered == 0
      && q.hdma5 == val & 0x7F && q.stopRequested == p.stopRequested
      && q.currentDma == Some(if val & 0x80 != 0 then HDMA else GDMA)
    ensures !(IsHdmaActive(p) && val & 0x80 == 0) && !p.stopRequested ==> Counting(q)
  {
    if IsHdmaActive(p) && val & 0x80 == 0 then
      p.(stopRequested := true, hdma5 := 0x80 | val)
    else
      var blocks := val & 0x7F;
      Progress(blocks, (blocks as int + 1) * 16, 0, Some(if val & 0x80 != 0 then HDMA else GDMA), p.stopRequested)
  }

  /** The bookkeeping half of `tick_hdma` after one word (two bytes) was
      copied: the counters advance, a finished block decrements `hdma5`, a
      pending stop ends the transfer at a block boundary with bit 7 of
      `hdma5` set, and an exhausted count ends it with `hdma5 = 0xFF`. */
  function Advance(p: Progress): (q: Progress)
    requires WellFormed(p)
    ensures WellFormed(q)
  {
    var left := if p.bytesToTransfer >= 2 then p.bytesToTransfer - 2 else p.bytesToTransfer - 2 + 0x10000;
    var blockDone := p.bytesTransfered + 2 == 16;
    var hdma5 := if blockDone then p.hdma5 - 1 else p.hdma5;
    var copied := if blockDone then 0 else p.bytesTransfered + 2;
    if p.stopRequested && blockDone then
      Progress(hdma5 | 0x80, left, copied, None, false)
    else if left == 0 then
      Progress(0xFF, left, copied, None, p.stopRequested)
    else
      Progress(hdma5, left, copied, p.currentDma, p.stopRequested)
  }

  /** A word completes a block exactly when it is the block's eighth. */
  predicate CompletesBlock(p: Progress)
  {
    p.bytesTransfered == 14
  }

  /** One word takes two off the bytes left modulo 2^16, the wrap of the
      source's 16-bit subtraction, and moves the bytes of the block on by
      two modulo a block, whatever else it ends. */
  lemma AdvanceCounters(p: Progress)
    requires WellFormed(p)
    ensures Advance(p).bytesToTransfer == (p.bytesToTransfer - 2) % 0x10000
    ensures Advance(p).bytesTransfered == (p.bytesTransfered + 2) % 16
  {
    SubTwoWraps(p.bytesToTransfer);
    AddTwoWraps(p.bytesTransfered);
  }

  lemma SubTwoWraps(b: int)
    requires 0 <= b < 0x10000
    ensures (b - 2) % 0x10000 == if b >= 2 then b - 2 else b - 2 + 0x10000
  {
  }

  lemma AddTwoWraps(b: int)
    requires WordOffset(b)
    ensures (b + 2) % 16 == if b == 14 then 0 else b + 2
  {
  }

  /** Without a stop request a transfer keeps its kind and its count until
      the last word, and ends there with `hdma5 = 0xFF`, the value the
      decrement of the last block already left in it. */
  lemma AdvanceCounting(p: Progress)
    requires Counting(p)
    ensures Advance(p).bytesToTransfer == p.bytesToTransfer - 2
    ensures p.bytesToTransfer > 2 ==> Counting(Advance(p)) && Advance(p).currentDma == p.currentDma
    ensures p.bytesToTransfer == 2 ==> CompletesBlock(p) && p.hdma5 - 1 == 0xFF
    ensures p.bytesToTransfer == 2 ==> Advance(p) == Progress(0xFF, 0, 0, None, false)
    ensures CompletesBlock(p) && p.bytesToTransfer > 2 ==> Advance(p).hdma5 as int == p.hdma5 as int - 1
    ensures !CompletesBlock(p) ==> Advance(p).hdma5 == p.hdma5
  {
    CountersMoveOn(p);
    if CompletesBlock(p) {
      AdvanceEndsBlock(p);
    } else {
      AdvanceWithinBlock(p);
    }
  }

  /** While a transfer counts, at least one word is left to copy, so the
      bytes left do not wrap. */
  lemma CountersMoveOn(p: Progress)
    requires Counting(p)
    ensures p.bytesToTransfer >= 2
  {
  }

  /** A word inside a block moves both counters on by two and nothing else. */
  lemma AdvanceWithinBlock(p: Progress)
    requires Counting(p) && !CompletesBlock(p) && p.bytesToTransfer >= 2
    ensures p.bytesToTransfer >= 4
    ensures Advance(p) == p.(bytesToTransfer := p.bytesToTransfer - 2, bytesTransfered := p.bytesTransfered + 2)
  {
  }

  /** The last word of a block decrements `hdma5`; after the last block the
      transfer ends with `hdma5` at 0xFF. */
  lemma AdvanceEndsBlock(p: Progress)
    requires Counting(p) && CompletesBlock(p) && p.bytesToTransfer >= 2
    ensures p.bytesToTransfer == p.hdma5 as int * 16 + 2
    ensures p.bytesToTransfer == 2 ==> p.hdma5 == 0 && Advance(p) == Progress(0xFF, 0, 0, None, false)
    ensures p.bytesToTransfer > 2 ==>
      p.hdma5 != 0 && Advance(p) == p.(hdma5 := p.hdma5 - 1, bytesToTransfer := p.bytesToTransfer - 2, bytesTransfered := 0)
  {
  }

  /** A pending stop ends the transfer at the next block boundary, with
      bit 7 of the length register set and the request cleared; before the
      boundary it leaves the transfer running. */
  lemma StopEndsAtBlockBoundary(p: Progress)
    requires WellFormed(p) && p.stopRequested
    ensures CompletesBlock(p) ==>
      Advance(p).currentDma.None? && !Advance(p).stopRequested && Advance(p).hdma5 & 0x80 == 0x80
    ensures !CompletesBlock(p) && p.bytesToTransfer != 2 ==>
      Advance(p).currentDma == p.currentDma && Advance(p).stopRequested && Advance(p).hdma5 == p.hdma5
  {
  }

  /** `k` successive words. */
  function AdvanceN(p: Progress, k: nat): (q: Progress)
    requires WellFormed(p)
    ensures WellFormed(q)
    decreases k
  {
    if k == 0 then p else AdvanceN(Advance(p), k - 1)
  }

  /** The number of blocks completed during `k` successive words. */
  function BlocksDone(p: Progress, k: nat): (n: nat)
    requires WellFormed(p)
    ensures n <= k
    decreases k
  {
    if k == 0 then 0
    else (if CompletesBlock(p) then 1 else 0) + BlocksDone(Advance(p), k - 1)
  }

  /** A transfer started with no stop pending copies exactly its remaining
      words: it is still under way, of the same kind, after fewer of them,
      and it ends after the last one with the length register at 0xFF. */
  lemma {:induction false} RunsToCompletion(p: Progress, k: nat)
    requires Counting(p) && 2 * k <= p.bytesToTransfer
    ensures 2 * k < p.bytesToTransfer ==>
      Counting(AdvanceN(p, k)) && AdvanceN(p, k).currentDma == p.currentDma
    ensures 2 * k == p.bytesToTransfer ==> AdvanceN(p, k) == Progress(0xFF, 0, 0, None, false)
    decreases k
  {
    if k > 0 {
      AdvanceCounting(p);
      assert AdvanceN(p, k) == AdvanceN(Advance(p), k - 1);
      if p.bytesToTransfer == 2 {
        assert k == 1;
      } else {
        RunsToCompletion(Advance(p), k - 1);
      }
    }
  }

  /** Every eighth word of a running transfer completes a block: after `k`
      words the blocks completed are the whole blocks in the bytes of the
      current block plus the `2 * k` bytes copied. */
  lemma {:induction false} BlocksDoneCount(p: Progress, k: nat)
    requires Counting(p) && 2 * k <= p.bytesToTransfer
    ensures 16 * BlocksDone(p, k) <= p.bytesTransfered + 2 * k < 16 * BlocksDone(p, k) + 16
    decreases k
  {
    if k > 0 {
      AdvanceCounting(p);
      var q := Advance(p);
      if p.bytesToTransfer == 2 {
        assert BlocksDone(q, 0) == 0;
      } else {
        BlocksDoneCount(q, k - 1);
        if CompletesBlock(p) {
          assert q.bytesTransfered == 0;
        } else {
          assert q.bytesTransfered == p.bytesTransfered + 2;
        }
      }
    }
  }

  /** A freshly started transfer of `(val & 0x7F) + 1` blocks completes
      exactly that many blocks in eight words each and then ends with the
      length register at 0xFF. */
  lemma StartedTransferCopiesAllBlocks(p: Progress, val: u8)
    requires WellFormed(p) && !p.stopRequested && !(IsHdmaActive(p) && val & 0x80 == 0)
    ensures var q := ControlWrite(p, val);
      var words := ((val & 0x7F) as int + 1) * 8;
      BlocksDone(q, words) == (val & 0x7F) as int + 1
      && AdvanceN(q, words) == Progress(0xFF, 0, 0, None, false)
  {
    var q := ControlWrite(p, val);
    var words := ((val & 0x7F) as int + 1) * 8;
    RunsToCompletion(q, words);
    BlocksDoneCount(q, words);
  }

  /** `get_src_read_func`: the source of a transfer is the cartridge ROM,
      the cartridge RAM or work RAM; any other address panics. */
  predicate SourceReadable(addr: int)
  {
    0 <= addr <= 0x7FFF || 0xA000 <= addr <= 0xDFFF
  }

  /** `update_src_addr`: the source address from its two registers. */
  function SourceAddress(hi: u8, lo: u8): (a: int)
    ensures 0 <= a < 0x10000
  {
    hi as int * 0x100 + lo as int
  }

  /** `update_dest_addr`: the destination address from its two registers,
      always inside VRAM. */
  function DestAddress(hi: u8, lo: u8): (a: int)
    requires hi <= 0x1F
    ensures 0x8000 <= a < 0xA000
  {
    0x8000 + hi as int * 0x100 + lo as int
  }

  class Hdma {
    var srcHi: u8
    var srcLo: u8
    var destHi: u8
    var destLo: u8
    var hdma5: u8
    var currentDma: Option<DmaType>
    var stopRequested: bool
    var bytesToTransfer: int
    var bytesTransfered: int
    var srcAddr: int
    var destAddr: int
    var compatibility: CgbCompatibility

    /** The bookkeeping fields as one value. */
    function Counters(): Progress
      reads this
    {
      Progress(hdma5, bytesToTransfer, bytesTransfered, currentDma, stopRequested)
    }

    /** The counters are well formed and the addresses are 16-bit. */
    predicate Valid()
      reads this
    {
      WellFormed(Counters()) && 0 <= srcAddr < 0x10000 && 0 <= destAddr < 0x10000
      && srcLo & 0x0F == 0 && destHi <= 0x1F && destLo & 0x0F == 0
    }

    /** `Hdma::default`: idle, length register 0xFF, colour-only mode. */
    constructor ()
      ensures Valid()
      ensures srcHi == 0 && srcLo == 0 && destHi == 0 && destLo == 0 && srcAddr == 0 && destAddr == 0
      ensures Counters() == Progress(0xFF, 0, 0, None, false) && compatibility == CgbOnly
    {
      srcHi, srcLo, destHi, destLo := 0, 0, 0, 0;
      hdma5 := 0xFF;
      currentDma := None;
      stopRequested := false;
      bytesToTransfer, bytesTransfered := 0, 0;
      srcAddr, destAddr := 0, 0;
      compatibility := CgbOnly;
    }

    /** `set_console_compatibility`. */
    method SetConsoleCompatibility(mode: CgbCompatibility)
      modifies this`compatibility
      ensures compatibility == mode
    {
      compatibility := mode;
    }

    /** `read_u8`: on the monochrome console every register reads 0xFF;
      otherwise only the length register 0xFF55 reads back. The bus sends
      no other address. */
    function ReadU8(addr: int): (r: u8)
      requires 0xFF51 <= addr <= 0xFF55
      reads this
      ensures compatibility == Dmg || addr != 0xFF55 ==> r == 0xFF
      ensures compatibility != Dmg && addr == 0xFF55 ==> r == hdma5
    {
      if compatibility == Dmg then 0xFF
      else if addr == 0xFF55 then hdma5
      else 0xFF
    }

    /** Replaces the bookkeeping fields. */
    method SetCounters(p: Progress)
      modifies this`hdma5, this`bytesToTransfer, this`bytesTransfered, this`currentDma, this`stopRequested
      ensures Counters() == p
    {
      hdma5, bytesToTransfer, bytesTransfered := p.hdma5, p.bytesToTransfer, p.bytesTransfered;
      currentDma, stopRequested := p.currentDma, p.stopRequested;
    }

    /** `write_u8`: ignored on the monochrome console. The source address
      keeps the high nibble of its low byte and the destination address
      lies in VRAM, built from five high bits and the high nibble of the
      low byte; 0xFF55 starts or stops a transfer as `ControlWrite` says. */
    method WriteU8(addr: int, val: u8)
      requires Valid() && 0xFF51 <= addr <= 0xFF55
      modifies this
      ensures Valid() && compatibility == old(compatibility)
      ensures old(compatibility) == Dmg ==> unchanged(this)
      ensures old(compatibility) != Dmg && addr == 0xFF51 ==>
        srcHi == val && srcAddr == SourceAddress(val, old(srcLo))
        && unchanged(this`srcLo, this`destHi, this`destLo, this`destAddr) && Counters() == old(Counters())
      ensures old(compatibility) != Dmg && addr == 0xFF52 ==>
        srcLo == val & 0xF0 && srcAddr == SourceAddress(old(srcHi), val & 0xF0)
        && unchanged(this`srcHi, this`destHi, this`destLo, this`destAddr) && Counters() == old(Counters())
      ensures old(compatibility) != Dmg && addr == 0xFF53 ==>
        destHi == val & 0x1F && destAddr == DestAddress(val & 0x1F, old(destLo))
        && unchanged(this`srcHi, this`srcLo, this`destLo, this`srcAddr) && Counters() == old(Counters())
      ensures old(compatibility) != Dmg && addr == 0xFF54 ==>
        destLo == val & 0xF0 && destAddr == DestAddress(old(destHi), val & 0xF0)
        && unchanged(this`srcHi, this`srcLo, this`destHi, this`srcAddr) && Counters() == old(Counters())
      ensures old(compatibility) != Dmg && addr == 0xFF55 ==>
        Counters() == ControlWrite(old(Counters()), val)
        && unchanged(this`srcHi, this`srcLo, this`destHi, this`destLo, this`srcAddr, this`destAddr)
      ensures 0x8000 <= old(destAddr) ==> 0x8000 <= destAddr
    {
      if compatibility == Dmg {
        return;
      }
      if addr == 0xFF51 {
        WriteSource(val, srcLo);
      } else if addr == 0xFF52 {
        WriteSource(srcHi, val & 0xF0);
      } else if addr == 0xFF53 {
        WriteDest(val & 0x1F, destLo);
      } else if addr == 0xFF54 {
        WriteDest(destHi, val & 0xF0);
      } else {
        SetCounters(ControlWrite(Counters(), val));
      }
    }

    /** Stores the source registers and `update_src_addr`. */
    method WriteSource(hi: u8, lo: u8)
      requires Valid() && lo & 0x0F == 0
      modifies this`srcHi, this`srcLo, this`srcAddr
      ensures Valid()
      ensures srcHi == hi && srcLo == lo && srcAddr == SourceAddress(hi, lo)
    {
      srcHi, srcLo := hi, lo;
      srcAddr := SourceAddress(hi, lo);
    }

    /** Stores the destination registers and `update_dest_addr`. */
    method WriteDest(hi: u8, lo: u8)
      requires Valid() && hi <= 0x1F && lo & 0x0F == 0
      modifies this`destHi, this`destLo, this`destAddr
      ensures Valid()
      ensures destHi == hi && destLo == lo && destAddr == DestAddress(hi, lo)
    {
      destHi, destLo := hi, lo;
      destAddr := DestAddress(hi, lo);
    }

    /** `is_hdma_active`. */
    function IsActive(): (b: bool)
      reads this
      ensures b <==> IsHdmaActive(Counters())
    {
      currentDma == Some(HDMA)
    }

    /** `tick_hdma`: copies one word from the source to the selected VRAM
      bank, then advances the counters as `Advance` says and moves both
      addresses on by two. It reports whether the word completed a block.
      `source` is what the selected reader returns for an address (the
      cartridge's ROM or RAM, or a work RAM bank); a source outside the
      readable regions, a destination outside the bank, or a failing read
      panics. */
    method TickHdma(vram: array<u8>, source: int -> Result<u8>) returns (r: Result<bool>)
      requires Valid() && vram.Length == 0x2000
      modifies this, vram
      ensures r.Panic? <==>
        !SourceReadable(old(srcAddr)) || !(0x8000 <= old(destAddr) <= 0x9FFE)
        || source(old(srcAddr)).Panic? || source(old(srcAddr) + 1).Panic?
      ensures r.Ok? ==> Valid()
      ensures r.Ok? ==>
        var d := old(destAddr) - 0x8000;
        vram[d] == source(old(srcAddr)).value && vram[d + 1] == source(old(srcAddr) + 1).value
        && (forall i :: 0 <= i < 0x2000 && i != d && i != d + 1 ==> vram[i] == old(vram[i]))
      ensures r.Ok? ==>
        Counters() == Advance(old(Counters())) && r.value == CompletesBlock(old(Counters()))
        && srcAddr == Wrap16(old(srcAddr) + 2) && destAddr == old(destAddr) + 2
        && unchanged(this`srcHi, this`srcLo, this`destHi, this`destLo, this`compatibility)
    {
      if !SourceReadable(srcAddr) || !(0x8000 <= destAddr <= 0x9FFE) {
        return Panic;
      }
      var lo := source(srcAddr);
      var hi := source(srcAddr + 1);
      if lo.Panic? || hi.Panic? {
        return Panic;
      }
      var d := destAddr - 0x8000;
      vram[d] := lo.value;
      vram[d + 1] := hi.value;
      r := Ok(CompletesBlock(Counters()));
      SetCounters(Advance(Counters()));
      srcAddr := Wrap16(srcAddr + 2);
      destAddr := destAddr + 2;
    }

    /** `handle_stop_request`: ends the transfer with bit 7 of the length
      register set. */
    method HandleStopRequest()
      requires Valid()
      modifies this`stopRequested, this`currentDma, this`hdma5
      ensures Valid()
      ensures !stopRequested && currentDma.None? && hdma5 == old(hdma5) | 0x80
    {
      stopRequested := false;
      currentDma := None;
      hdma5 := hdma5 | 0x80;
    }
  }

  /** The per-word copy takes four T-cycles, and the first word of a block
      four more to wind up. */
  const TPerWordCopy: int := 4
  const WindUpT: int := 4

  datatype HdmaState = CopyBlock | WaitingForHBlank
  datatype ControllerState = Waiting | Started(s: HdmaState)

  /** The HBlank edge latch: low outside HBlank, high inside it, with a flag
      saying whether this HBlank's rising edge was already used. */
  datatype HBlankRisingEdge = Lo | Hi(consumed: bool)

  /** `handle_hblank_rising_edge`: entering HBlank raises the latch with a
      fresh edge, leaving HBlank lowers it, and otherwise it stays. */
  function TrackEdge(e: HBlankRisingEdge, isHblank: bool): (f: HBlankRisingEdge)
    ensures isHblank ==> f.Hi?
    ensures !isHblank ==> f == Lo
    ensures isHblank && e.Lo? ==> f == Hi(false)
    ensures isHblank && e.Hi? ==> f == e
  {
    match e
    case Lo => if isHblank then Hi(false) else Lo
    case Hi(_) => if !isHblank then Lo else e
  }

  /** `try_consume_rising_edge`: a fresh edge is used up and reported. */
  function ConsumeEdge(e: HBlankRisingEdge): (r: (HBlankRisingEdge, bool))
    ensures r.1 <==> e == Hi(false)
    ensures r.1 ==> r.0 == Hi(true)
    ensures !r.1 ==> r.0 == e
  {
    if e == Hi(false) then (Hi(true), true) else (e, false)
  }

  /** The number of edges consumed over a run of PPU samples, where
      `tries[i]` says whether the controller tries to consume one at step
      `i` (it only does so while waiting). */
  function Consumed(e: HBlankRisingEdge, samples: seq<bool>, tries: seq<bool>): (n: nat)
    requires |samples| == |tries|
    decreases |samples|
  {
    if |samples| == 0 then 0
    else
      var f := TrackEdge(e, samples[0]);
      var (g, used) := if tries[0] then ConsumeEdge(f) else (f, false);
      (if used then 1 else 0) + Consumed(g, samples[1..], tries[1..])
  }

  /** The number of times a run of samples enters HBlank, the latch's state
      telling whether the run starts inside it. */
  function Rises(wasHblank: bool, samples: seq<bool>): (n: nat)
    decreases |samples|
  {
    if |samples| == 0 then 0
    else (if samples[0] && !wasHblank then 1 else 0) + Rises(samples[0], samples[1..])
  }

  /** Each HBlank period yields at most one consumed edge: over any run the
      edges consumed are at most the HBlank entries, plus one for an edge
      still fresh at the start. */
  lemma {:induction false} EdgeConsumedOncePerHBlank(e: HBlankRisingEdge, samples: seq<bool>, tries: seq<bool>)
    requires |samples| == |tries|
    ensures Consumed(e, samples, tries) <= Rises(e.Hi?, samples) + (if e == Hi(false) then 1 else 0)
    decreases |samples|
  {
    if |samples| > 0 {
      var f := TrackEdge(e, samples[0]);
      var (g, used) := if tries[0] then ConsumeEdge(f) else (f, false);
      EdgeConsumedOncePerHBlank(g, samples[1..], tries[1..]);
      assert g.Hi? == samples[0];
    }
  }

  class HdmaController {
    var state: ControllerState
    var clock: int
    var hblankRisingEdge: HBlankRisingEdge

    /** The clock counts down the T-cycles of the current word: it sits at
      four outside a block and between one and seven inside one. */
    predicate Valid()
      reads this
    {
      (state != Started(CopyBlock) ==> clock == TPerWordCopy)
      && (state == Started(CopyBlock) ==> 1 <= clock <= TPerWordCopy + WindUpT - 1)
    }

    /** `HdmaController::default`: waiting, with a fresh edge. */
    constructor ()
      ensures Valid()
      ensures state == Waiting && clock == TPerWordCopy && hblankRisingEdge == Hi(false)
    {
      state := Waiting;
      clock := TPerWordCopy;
      hblankRisingEdge := Hi(false);
    }

    /** `try_consume_rising_edge`. */
    method TryConsumeRisingEdge() returns (used: bool)
      modifies this`hblankRisingEdge
      ensures (hblankRisingEdge, used) == ConsumeEdge(old(hblankRisingEdge))
    {
      if hblankRisingEdge == Hi(false) {
        hblankRisingEdge := Hi(true);
        used := true;
      } else {
        used := false;
      }
    }

    /** `handle_hdma`, called once per T-cycle. The edge latch follows the
      PPU's mode first. While waiting, and only between CPU instructions,
      a requested HDMA starts at a fresh HBlank edge with a wind-up. Inside
      a block every fourth cycle copies a word; once a block is complete
      the controller waits for the next HBlank if the HDMA goes on, and is
      idle otherwise. While waiting for HBlank a pending stop is served at
      once. `isHblank` is the PPU's mode, `cpuBusy` whether the CPU is
      inside an instruction; `vram` and `source` are as for `TickHdma`. */
    method HandleHdma(isHblank: bool, cpuBusy: bool, hdma: Hdma, vram: array<u8>, source: int -> Result<u8>)
      returns (r: Result<()>)
      requires Valid() && hdma.Valid() && vram.Length == 0x2000
      modifies this, hdma, vram
      ensures r.Ok? ==> Valid() && hdma.Valid()
      ensures old(state) == Waiting ==>
        r.Ok? && unchanged(hdma, vram)
        && var f := TrackEdge(old(hblankRisingEdge), isHblank);
           if !cpuBusy && old(hdma.IsActive()) && f == Hi(false) then
             state == Started(CopyBlock) && clock == TPerWordCopy + WindUpT - 1 && hblankRisingEdge == Hi(true)
           else
             state == Waiting && clock == old(clock) && hblankRisingEdge == f
      ensures old(state) == Started(WaitingForHBlank) ==>
        r.Ok? && unchanged(vram)
        && var f := TrackEdge(old(hblankRisingEdge), isHblank);
           if old(hdma.stopRequested) then
             state == Waiting && hblankRisingEdge == f && hdma.currentDma.None? && !hdma.stopRequested
             && hdma.hdma5 == old(hdma.hdma5) | 0x80
           else if f == Hi(false) then
             state == Started(CopyBlock) && clock == TPerWordCopy - 1 && hblankRisingEdge == Hi(true)
             && unchanged(hdma)
           else
             state == old(state) && clock == old(clock) && hblankRisingEdge == f && unchanged(hdma)
      ensures old(state) == Started(CopyBlock) && old(clock) > 1 ==>
        r.Ok? && unchanged(hdma, vram) && state == old(state) && clock == old(clock) - 1
        && hblankRisingEdge == TrackEdge(old(hblankRisingEdge), isHblank)
      ensures old(state) == Started(CopyBlock) && old(clock) == 1 && r.Ok? ==>
        clock == TPerWordCopy && hblankRisingEdge == TrackEdge(old(hblankRisingEdge), isHblank)
        && hdma.Counters() == Advance(old(hdma.Counters()))
        && state == (if !CompletesBlock(old(hdma.Counters())) then Started(CopyBlock)
                     else if hdma.IsActive() then Started(WaitingForHBlank)
                     else Waiting)
    {
      hblankRisingEdge := TrackEdge(hblankRisingEdge, isHblank);
      match state
      case Waiting =>
        StartOnEdge(cpuBusy, hdma);
        r := Ok(());
      case Started(CopyBlock) =>
        r := CopyCycle(hdma, vram, source);
      case Started(WaitingForHBlank) =>
        WaitForHBlank(hdma);
        r := Ok(());
    }

    /** `handle_hdma` while waiting: between CPU instructions, a requested
      HDMA starts at a fresh HBlank edge with a wind-up. */
    method StartOnEdge(cpuBusy: bool, hdma: Hdma)
      requires Valid() && state == Waiting
      modifies this
      ensures Valid()
      ensures if !cpuBusy && hdma.IsActive() && old(hblankRisingEdge) == Hi(false) then
          state == Started(CopyBlock) && clock == TPerWordCopy + WindUpT - 1 && hblankRisingEdge == Hi(true)
        else
          state == Waiting && clock == old(clock) && hblankRisingEdge == old(hblankRisingEdge)
    {
      if cpuBusy || !hdma.IsActive() {
        return;
      }
      var used := TryConsumeRisingEdge();
      if used {
        clock := TPerWordCopy + WindUpT;
        clock := clock - 1;
        state := Started(CopyBlock);
      }
    }

    /** `handle_hdma` inside a block: every fourth cycle copies a word; once
      the block is complete the controller waits for the next HBlank if
      the HDMA goes on, and is idle otherwise. */
    method CopyCycle(hdma: Hdma, vram: array<u8>, source: int -> Result<u8>) returns (r: Result<()>)
      requires Valid() && hdma.Valid() && vram.Length == 0x2000 && state == Started(CopyBlock)
      modifies this`clock, this`state, hdma, vram
      ensures r.Ok? ==> Valid() && hdma.Valid()
      ensures old(clock) > 1 ==>
        r.Ok? && unchanged(hdma, vram) && state == old(state) && clock == old(clock) - 1
      ensures old(clock) == 1 && r.Ok? ==>
        clock == TPerWordCopy && hdma.Counters() == Advance(old(hdma.Counters()))
        && state == (if !CompletesBlock(old(hdma.Counters())) then Started(CopyBlock)
                     else if hdma.IsActive() then Started(WaitingForHBlank)
                     else Waiting)
    {
      r := Ok(());
      clock := clock - 1;
      if clock == 0 {
        clock := TPerWordCopy;
        var copied := hdma.TickHdma(vram, source);
        if copied.Panic? {
          return Panic;
        }
        if copied.value {
          state := if hdma.currentDma == Some(HDMA) then Started(WaitingForHBlank) else Waiting;
        }
      }
    }

    /** `handle_hdma` between blocks: a pending stop is served at once;
      otherwise the next block starts at a fresh HBlank edge. */
    method WaitForHBlank(hdma: Hdma)
      requires Valid() && hdma.Valid() && state == Started(WaitingForHBlank)
      modifies this, hdma`stopRequested, hdma`currentDma, hdma`hdma5
      ensures Valid() && hdma.Valid()
      ensures if old(hdma.stopRequested) then
          state == Waiting && hblankRisingEdge == old(hblankRisingEdge) && hdma.currentDma.None?
          && !hdma.stopRequested && hdma.hdma5 == old(hdma.hdma5) | 0x80
        else if old(hblankRisingEdge) == Hi(false) then
          state == Started(CopyBlock) && clock == TPerWordCopy - 1 && hblankRisingEdge == Hi(true)
          && unchanged(hdma)
        else
          state == old(state) && clock == old(clock) && hblankRisingEdge == old(hblankRisingEdge)
          && unchanged(hdma)
    {
      if hdma.stopRequested {
        hdma.HandleStopRequest();
        state := Waiting;
        return;
      }
      var used := TryConsumeRisingEdge();
      if used {
        state := Started(CopyBlock);
        clock := clock - 1;
      }
    }

    /** `currently_copying`: inside an HDMA block, or while a GDMA runs. */
    function CurrentlyCopying(hdma: Hdma): (b: bool)
      reads this, hdma
      ensures b <==> state == Started(CopyBlock) || hdma.currentDma == Some(GDMA)
    {
      state == Started(CopyBlock) || hdma.currentDma == Some(GDMA)
    }
  }
}

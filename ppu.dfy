/** The picture processing unit's register file and its line timing: the
    LCD registers 0xFF40-0xFF4B, the VRAM bank 0xFF4F, the colour palette
    ports 0xFF68-0xFF6C, the mode and LY state machine, and the STAT
    interrupt line. */
module PpuUnit {
  import opened Bits
  import opened Rgb
  import opened CgbCompat
  import Interrupts
  import HdmaTransfer

  /** The four PPU modes with their STAT encodings 0-3. */
  datatype PpuMode = HBlank | VBlank | Oam | Vram

  function ModeBits(m: PpuMode): (b: u8)
    ensures b <= 3
  {
    match m
    case HBlank => 0
    case VBlank => 1
    case Oam => 2
    case Vram => 3
  }

  /** `PpuMode::from`, applied to the two mode bits of STAT. */
  function ModeOfBits(b: u8): (m: PpuMode)
    requires b <= 3
    ensures ModeBits(m) == b
  {
    if b == 0 then HBlank else if b == 1 then VBlank else if b == 2 then Oam else Vram
  }

  datatype ObjectPriorityMode = OamOrder | CoordinateOrder

  /** The attribute byte of a colour background map entry. */
  datatype BGMapFlags = BGMapFlags(bgOamPrio: bool, verticalFlip: bool, horizontalFlip: bool,
                                   tileBank: int, bgPaletteNumber: int)

  /** `BGMapFlags::from`: priority in bit 7, the flips in bits 6 and 5, the
      tile's VRAM bank in bit 3 and the palette in bits 0-2. */
  function BGMapFlagsFrom(val: u8): (f: BGMapFlags)
    ensures 0 <= f.tileBank <= 1 && 0 <= f.bgPaletteNumber <= 7
  {
    BGMapFlags(val & 0x80 != 0, val & 0x40 != 0, val & 0x20 != 0,
               ((val & 0x08) >> 3) as int, (val & 0x07) as int)
  }

  /** The attribute byte that carries the given flags. */
  function BGMapAttributes(f: BGMapFlags): (val: u8)
    requires 0 <= f.tileBank <= 1 && 0 <= f.bgPaletteNumber <= 7
    ensures val & 0x10 == 0
  {
    (if f.bgOamPrio then 0x80 else 0) | (if f.verticalFlip then 0x40 else 0)
    | (if f.horizontalFlip then 0x20 else 0) | (if f.tileBank == 1 then 0x08 else 0)
    | f.bgPaletteNumber as u8
  }

  /** Decoding the attribute byte of some flags reads back every flag. */
  lemma BGMapFlagsRoundTrip(f: BGMapFlags)
    requires 0 <= f.tileBank <= 1 && 0 <= f.bgPaletteNumber <= 7
    ensures BGMapFlagsFrom(BGMapAttributes(f)) == f
  {
    var a := BGMapAttributes(f);
    assert a & 0x07 == f.bgPaletteNumber as u8;
    assert (a & 0x08 != 0) == (f.tileBank == 1);
  }

  /** Every bit of the attribute byte but the unused bit 4 matters. */
  lemma BGMapAttributesRoundTrip(val: u8)
    ensures BGMapAttributes(BGMapFlagsFrom(val)) == val & !0x10
  {
    var g := BGMapFlagsFrom(val);
    assert (if g.tileBank == 1 then 0x08 else 0) == val & 0x08;
    assert g.bgPaletteNumber as u8 == val & 0x07;
  }

  /** `flip_tile_value`: the pixel column counted from the other edge of an
      eight-pixel tile. */
  function FlipTileValue(val: u8): (r: u8)
    requires val <= 7
    ensures r as int == 7 - val as int
  {
    match val
    case 0 => 7
    case 1 => 6
    case 2 => 5
    case 3 => 4
    case 4 => 3
    case 5 => 2
    case 6 => 1
    case 7 => 0
  }

  /** Flipping twice restores the column, and no two columns flip to the
      same one. */
  lemma FlipTileValueInvolution(a: u8, b: u8)
    requires a <= 7 && b <= 7
    ensures FlipTileValue(a) <= 7 && FlipTileValue(FlipTileValue(a)) == a
    ensures FlipTileValue(a) == FlipTileValue(b) ==> a == b
  {
  }

  /** The shade a DMG palette register gives colour `i`: bits `2i` and
      `2i + 1`. */
  function Shade(val: u8, i: nat): (s: u8)
    requires i < 4
    ensures s <= 3
  {
    if i == 0 then val & 3
    else if i == 1 then (val >> 2) & 3
    else if i == 2 then (val >> 4) & 3
    else (val >> 6) & 3
  }

  /** The four shades determine the register: they are its bit pairs. */
  lemma ShadesRebuildPalette(val: u8)
    ensures Shade(val, 0) | (Shade(val, 1) << 2) | (Shade(val, 2) << 4) | (Shade(val, 3) << 6) == val
  {
  }

  /** `update_ly_lyc`: the coincidence bit 2 of STAT tells whether LY equals
      LYC; no other bit changes. */
  function WithLyLyc(stat: u8, ly: u8, lyc: u8): (s: u8)
    ensures (s & 0x04 != 0) <==> ly == lyc
    ensures s & !0x04 == stat & !0x04
  {
    if ly == lyc then stat | 0x04 else stat & 0xFB
  }

  /** `set_mode_stat`: the mode goes into bits 0-1 of STAT; no other bit
      changes. */
  function WithModeStat(stat: u8, m: PpuMode): (s: u8)
    ensures ModeOfBits(s & 0x03) == m
    ensures s & 0xFC == stat & 0xFC
  {
    (stat & 0xFC) | ModeBits(m)
  }

  /** A write to STAT: only the four interrupt-select bits 3-6 are
      writable. */
  function StatWrite(stat: u8, val: u8): (s: u8)
    ensures s & 0x87 == stat & 0x87
    ensures s & 0x78 == val & 0x78
  {
    (stat & 0x87) | (val & 0x78)
  }

  /** The combined STAT interrupt condition of `update_stat_irq_conditions`:
      the select bit of the current mode (3 for HBlank, 4 for VBlank, 5 for
      OAM; VRAM has none), or bit 6 while LY equals LYC. */
  function StatIrqLine(stat: u8, ly: u8, lyc: u8): (line: bool)
    ensures line <==> (stat & 0x03 != 0x03 && stat & (0x08 << (stat & 0x03)) != 0)
                      || (stat & 0x40 != 0 && ly == lyc)
  {
    var selected := match ModeOfBits(stat & 0x03)
      case HBlank => stat & 0x08 != 0
      case VBlank => stat & 0x10 != 0
      case Oam => stat & 0x20 != 0
      case Vram => false;
    selected || (stat & 0x40 != 0 && ly == lyc)
  }

  /** With every select bit clear the STAT line stays low. */
  lemma StatLineNeedsASelectBit(stat: u8, ly: u8, lyc: u8)
    requires stat & 0x78 == 0
    ensures !StatIrqLine(stat, ly, lyc)
  {
  }

  /** The interrupt flags after one PPU cycle: the VBlank bit is raised
      when VBlank was entered, the STAT bit when the combined STAT line
      rose, and every other bit keeps its value. */
  function CycleFlags(flags: u8, vblank: bool, statRose: bool): (r: u8)
    ensures vblank ==> r & Interrupts.Bit(Interrupts.VBlank) == Interrupts.Bit(Interrupts.VBlank)
    ensures statRose ==> r & Interrupts.Bit(Interrupts.Stat) == Interrupts.Bit(Interrupts.Stat)
    ensures !vblank ==> r & Interrupts.Bit(Interrupts.VBlank) == flags & Interrupts.Bit(Interrupts.VBlank)
    ensures !statRose ==> r & Interrupts.Bit(Interrupts.Stat) == flags & Interrupts.Bit(Interrupts.Stat)
    ensures r & 0xFC == flags & 0xFC
  {
    flags | (if vblank then Interrupts.Bit(Interrupts.VBlank) else 0)
      | (if statRose then Interrupts.Bit(Interrupts.Stat) else 0)
  }

  /** `request_interrupt` sets its bit and keeps the others, so the new
      flags are the old ones with that bit or'd in. */
  lemma RequestIsOr(before: u8, after: u8, b: u8)
    requires after & b == b && after & !b == before & !b
    ensures after == before | b
  {
  }

  /** Requests the VBlank interrupt when VBlank was just entered. */
  method RequestVBlankIf(vblank: bool, interrupts: Interrupts.InterruptState)
    modifies interrupts
    ensures interrupts.flags == if vblank then old(interrupts.flags) | Interrupts.Bit(Interrupts.VBlank)
                                else old(interrupts.flags)
    ensures interrupts.master == old(interrupts.master) && interrupts.enable == old(interrupts.enable)
  {
    if vblank {
      interrupts.RequestInterrupt(Interrupts.VBlank);
      RequestIsOr(old(interrupts.flags), interrupts.flags, Interrupts.Bit(Interrupts.VBlank));
    }
  }

  /** A VBlank request and then a STAT request, each only when due, leave
      the flags of `CycleFlags`. */
  lemma CycleRequests(f0: u8, f1: u8, f2: u8, vblank: bool, statRose: bool)
    requires f1 == if vblank then f0 | Interrupts.Bit(Interrupts.VBlank) else f0
    requires f2 == if statRose then f1 | Interrupts.Bit(Interrupts.Stat) else f1
    ensures f2 == CycleFlags(f0, vblank, statRose)
  {
  }

  /** The mode and line timing of the PPU. */
  datatype Timing = Timing(mode: PpuMode, stat: u8, ly: u8, lineClock: nat, modeClock: nat,
                           ly153Early: bool, windowLineCounter: u8, drawFlag: bool, wyLyLatch: bool)

  /** The line timing invariant: outside VBlank LY names a visible line
      (0-143); inside it LY runs through 144-153, except that line 153
      reads as 0 once it is flagged to end early. */
  predicate LinesInRange(t: Timing)
  {
    (t.mode != VBlank ==> t.ly < 144 && !t.ly153Early)
    && (t.mode == VBlank ==> (144 <= t.ly <= 153 && !t.ly153Early) || (t.ly == 0 && t.ly153Early))
    && (t.mode == VBlank && t.ly == 153 ==> t.lineClock <= 3)
  }

  /** The line invariant does not involve STAT. */
  lemma StatOutsideLineInvariant(t: Timing, stat: u8)
    requires LinesInRange(t)
    ensures LinesInRange(t.(stat := stat))
  {
  }

  /** `hblank`: at the end of a 456-cycle line LY moves on; line 144
      enters VBlank, requests the VBlank interrupt and marks a finished
      frame; any other line starts with OAM search. The flag says whether
      the VBlank interrupt was requested. */
  function HBlankStep(t: Timing, lyc: u8): (r: (Timing, bool))
    ensures t.lineClock != 456 ==> r == (t, false)
    ensures t.lineClock == 456 ==>
      r.0.ly == t.ly + 1 && r.0.lineClock == 0 && r.0.modeClock == 0
      && ((r.0.stat & 0x04 != 0) <==> r.0.ly == lyc)
      && ModeOfBits(r.0.stat & 0x03) == r.0.mode
      && (r.1 <==> r.0.ly == 144)
      && (r.0.ly == 144 ==> r.0.mode == VBlank && r.0.drawFlag)
      && (r.0.ly != 144 ==> r.0.mode == Oam && r.0.drawFlag == t.drawFlag)
  {
    if t.lineClock == 456 then
      var ly := t.ly + 1;
      var stat := WithLyLyc(t.stat, ly, lyc);
      if ly == 144 then
        (t.(modeClock := 0, lineClock := 0, ly := ly, mode := VBlank,
            stat := WithModeStat(stat, VBlank), drawFlag := true), true)
      else
        (t.(modeClock := 0, lineClock := 0, ly := ly, mode := Oam,
            stat := WithModeStat(stat, Oam)), false)
    else
      (t, false)
  }

  /** `vblank`: four cycles into line 153 LY already reads 0 and the line
      is flagged to end early; at the end of each line LY moves on, and
      after line 153 a new frame starts with OAM search. */
  function VBlankStep(t: Timing, lyc: u8): (r: Timing)
    ensures t.lineClock != 456 && !(t.ly == 153 && t.lineClock == 4) ==> r == t
    ensures t.lineClock == 456 && t.ly < 153 && !t.ly153Early ==>
      r.mode == t.mode && r.ly == t.ly + 1 && r.lineClock == 0
    ensures t.lineClock == 456 && (t.ly >= 153 || t.ly153Early) ==>
      r.mode == Oam && r.ly == t.ly && !r.ly153Early && r.lineClock == 0 && r.modeClock == 0
      && r.windowLineCounter == 0 && ModeOfBits(r.stat & 0x03) == Oam
  {
    var t1 := if t.ly == 153 && t.lineClock == 4
      then t.(ly := 0, stat := WithLyLyc(t.stat, 0, lyc), ly153Early := true)
      else t;
    if t1.lineClock == 456 then
      var t2 := t1.(lineClock := 0);
      if t2.ly < 153 && !t2.ly153Early then
        t2.(ly := t2.ly + 1, stat := WithLyLyc(t2.stat, t2.ly + 1, lyc))
      else
        t2.(ly153Early := false, modeClock := 0, windowLineCounter := 0,
            stat := WithModeStat(t2.stat, Oam), mode := Oam)
    else
      t1
  }

  /** `oam`: one cycle in, whether the window's top line has been reached
      is latched; after 80 cycles pixel transfer starts. */
  function OamStep(t: Timing, wy: u8): (r: Timing)
    ensures t.modeClock == 1 ==> r.wyLyLatch == (wy <= t.ly)
    ensures t.modeClock == 80 ==> r.mode == Vram && r.modeClock == 0 && ModeOfBits(r.stat & 0x03) == Vram
    ensures t.modeClock != 80 ==> r.mode == t.mode && r.modeClock == t.modeClock && r.stat == t.stat
    ensures r.ly == t.ly && r.lineClock == t.lineClock
  {
    var t1 := if t.modeClock == 1 then t.(wyLyLatch := wy <= t.ly) else t;
    if t1.modeClock == 80 then t1.(modeClock := 0, mode := Vram, stat := WithModeStat(t1.stat, Vram))
    else t1
  }

  /** `vram`: once the pixel pipeline has pushed the line (`fifoDone`),
      HBlank starts. */
  function VramStep(t: Timing, fifoDone: bool): (r: Timing)
    ensures fifoDone ==> r == t.(modeClock := 0, mode := HBlank, stat := WithModeStat(t.stat, HBlank))
    ensures !fifoDone ==> r == t
  {
    if fifoDone then t.(modeClock := 0, mode := HBlank, stat := WithModeStat(t.stat, HBlank)) else t
  }

  /** One cycle of `tick` with the LCD on: both clocks advance and the
      current mode's handler runs. The flag says whether the VBlank
      interrupt was requested. */
  function StepTiming(t: Timing, lyc: u8, wy: u8, fifoDone: bool): (r: (Timing, bool))
    ensures r.1 ==> t.mode == HBlank && r.0.mode == VBlank
  {
    var t0 := t.(modeClock := t.modeClock + 1, lineClock := t.lineClock + 1);
    match t.mode
    case HBlank => HBlankStep(t0, lyc)
    case VBlank => (VBlankStep(t0, lyc), false)
    case Oam => (OamStep(t0, wy), false)
    case Vram => (VramStep(t0, fifoDone), false)
  }

  /** The end of an HBlank line keeps LY in range and enters VBlank from
      line 143 only. */
  lemma HBlankKeepsLinesInRange(t: Timing, lyc: u8)
    requires t.mode == HBlank && t.ly < 144 && !t.ly153Early
    ensures LinesInRange(HBlankStep(t, lyc).0)
    ensures HBlankStep(t, lyc).1 ==> t.ly == 143
  {
    if t.lineClock == 456 {
      assert HBlankStep(t, lyc).0.ly == t.ly + 1;
    }
  }

  /** A VBlank cycle keeps LY within 144-153, or at 0 while line 153 is
      flagged to end early, and leaves VBlank with LY at 0. */
  lemma VBlankKeepsLinesInRange(t: Timing, lyc: u8)
    requires t.mode == VBlank && t.lineClock >= 1
    requires (144 <= t.ly <= 153 && !t.ly153Early) || (t.ly == 0 && t.ly153Early)
    requires t.ly == 153 ==> t.lineClock <= 4
    ensures LinesInRange(VBlankStep(t, lyc))
  {
    var r := VBlankStep(t, lyc);
    if t.ly == 153 && t.lineClock == 4 {
      assert r.ly == 0 && r.ly153Early;
    } else if t.lineClock == 456 {
      if t.ly < 153 && !t.ly153Early {
        assert r.ly == t.ly + 1 && r.lineClock == 0;
      } else {
        assert r.mode == Oam && r.ly == 0;
      }
    }
  }

  /** Every cycle keeps LY within its range for the mode: the counter
      never passes 153, and VBlank is entered from line 143 only. */
  lemma StepKeepsLinesInRange(t: Timing, lyc: u8, wy: u8, fifoDone: bool)
    requires LinesInRange(t)
    ensures LinesInRange(StepTiming(t, lyc, wy, fifoDone).0)
    ensures StepTiming(t, lyc, wy, fifoDone).1 ==> t.mode == HBlank && t.ly == 143
  {
    match t.mode
    case HBlank => StepFromHBlank(t, lyc, wy, fifoDone);
    case VBlank => StepFromVBlank(t, lyc, wy, fifoDone);
    case Oam => StepFromOam(t, lyc, wy, fifoDone);
    case Vram => StepFromVram(t, lyc, wy, fifoDone);
  }

  lemma StepFromHBlank(t: Timing, lyc: u8, wy: u8, fifoDone: bool)
    requires LinesInRange(t) && t.mode == HBlank
    ensures LinesInRange(StepTiming(t, lyc, wy, fifoDone).0)
    ensures StepTiming(t, lyc, wy, fifoDone).1 ==> t.ly == 143
  {
    HBlankKeepsLinesInRange(t.(modeClock := t.modeClock + 1, lineClock := t.lineClock + 1), lyc);
  }

  lemma StepFromVBlank(t: Timing, lyc: u8, wy: u8, fifoDone: bool)
    requires LinesInRange(t) && t.mode == VBlank
    ensures LinesInRange(StepTiming(t, lyc, wy, fifoDone).0)
    ensures !StepTiming(t, lyc, wy, fifoDone).1
  {
    VBlankKeepsLinesInRange(t.(modeClock := t.modeClock + 1, lineClock := t.lineClock + 1), lyc);
  }

  lemma StepFromOam(t: Timing, lyc: u8, wy: u8, fifoDone: bool)
    requires LinesInRange(t) && t.mode == Oam
    ensures LinesInRange(StepTiming(t, lyc, wy, fifoDone).0)
    ensures !StepTiming(t, lyc, wy, fifoDone).1
  {
  }

  lemma StepFromVram(t: Timing, lyc: u8, wy: u8, fifoDone: bool)
    requires LinesInRange(t) && t.mode == Vram
    ensures LinesInRange(StepTiming(t, lyc, wy, fifoDone).0)
    ensures !StepTiming(t, lyc, wy, fifoDone).1
  {
  }

  /** Outside VBlank no cycle touches the early-line-153 flag, so a flag
      left set survives the visible lines into the next VBlank. */
  lemma EarlyFlagSurvivesVisibleLines(t: Timing, lyc: u8, wy: u8, fifoDone: bool)
    requires t.mode != VBlank
    ensures StepTiming(t, lyc, wy, fifoDone).0.ly153Early == t.ly153Early
  {
  }

  /** `reset` as the source writes it, run when the LCD is switched off: LY
      and both clocks return to 0, OAM search is the mode and STAT shows
      mode 0; the early-line-153 flag is left as it was. */
  function ResetTimingAsWritten(t: Timing): (r: Timing)
    ensures r.ly == 0 && r.mode == Oam && r.lineClock == 0 && r.modeClock == 0
    ensures r.stat & 0x03 == 0 && r.stat & 0xFC == t.stat & 0xFC
    ensures r.ly153Early == t.ly153Early
  {
    t.(ly := 0, lineClock := 0, modeClock := 0, mode := Oam, stat := t.stat & 0xFC)
  }

  /** `reset` with the early-line-153 flag cleared as well, which is what
      the timing relies on. */
  function ResetTiming(t: Timing): (r: Timing)
    ensures r == ResetTimingAsWritten(t).(ly153Early := false)
    ensures LinesInRange(r)
  {
    t.(ly := 0, lineClock := 0, modeClock := 0, mode := Oam, stat := t.stat & 0xFC, ly153Early := false)
  }

  /** Switching the LCD off while line 153 already reads LY 0 leaves the
      early flag set: the reset state breaks the timing invariant, and once
      the next frame reaches VBlank at line 144 with the flag still set, the
      end of that line leaves VBlank with LY at 144 instead of counting on
      to 153, so LY then runs past 143 outside VBlank. */
  lemma ResetAsWrittenKeepsEarlyLine()
    ensures var t := Timing(VBlank, 0x01, 0, 10, 10, true, 0, false, false);
      LinesInRange(t) && !LinesInRange(ResetTimingAsWritten(t))
    ensures var v := Timing(VBlank, 0x01, 144, 455, 10, true, 0, false, false);
      var r := StepTiming(v, 0, 0, false).0;
      r.mode == Oam && r.ly == 144 && !LinesInRange(r)
  {
    var v := Timing(VBlank, 0x01, 144, 455, 10, true, 0, false, false);
    var v0 := v.(modeClock := 11, lineClock := 456);
    assert StepTiming(v, 0, 0, false).0 == VBlankStep(v0, 0);
  }

  /** A colour palette port pair (0xFF68/0xFF69 for the background,
      0xFF6A/0xFF6B for sprites): 64 bytes of palette RAM, the eight
      four-colour palettes decoded from it, and the index register. */
  class ColorPalette {
    const ram: array<u8>
    const colors: array2<Rgb>
    var specification: u8
    var index: int
    var autoIncrement: bool

    predicate Valid()
      reads this`index
    {
      ram.Length == 64 && colors.Length0 == 8 && colors.Length1 == 4 && 0 <= index < 64
    }

    /** Palette RAM filled with 0xFF, the index register 0xFF read as index
      0 without auto-increment. */
    constructor ()
      ensures Valid() && fresh(ram) && fresh(colors)
      ensures specification == 0xFF && index == 0 && !autoIncrement
      ensures forall i :: 0 <= i < 64 ==> ram[i] == 0xFF
    {
      ram := new u8[64](_ => 0xFF);
      colors := new Rgb[8, 4]((_, _) => Rgb(0, 0, 0));
      specification := 0xFF;
      index := 0;
      autoIncrement := false;
    }

    /** Reading the index register: bit 6 reads as set as well as bit 7. */
    function ReadSpecification(): (r: u8)
      reads this
      ensures r & 0xC0 == 0xC0 && r & 0x3F == specification & 0x3F
    {
      specification | 0xC0
    }

    /** Reading the data port: the palette RAM byte at the index. */
    function ReadData(): (r: u8)
      requires Valid()
      reads this, ram
      ensures r == ram[index]
    {
      ram[index]
    }

    /** Writing the index register: the index is the low six bits and bit 7
      turns on auto-increment. */
    method WriteSpecification(val: u8)
      requires Valid()
      modifies this
      ensures Valid()
      ensures specification == val && index == (val & 0x3F) as int && autoIncrement == (val & 0x80 != 0)
    {
      specification := val;
      index := (val & 0x3F) as int;
      autoIncrement := val & 0x80 != 0;
    }

    /** Writing the data port: stores the byte at the index, re-decodes the
      colour the byte belongs to from its two bytes (low byte at the even
      index), and with auto-increment moves the index on, wrapping from 63
      to 0 and storing it as the index register. */
    method WriteData(val: u8)
      requires Valid()
      modifies this, ram, colors
      ensures Valid() && autoIncrement == old(autoIncrement)
      ensures ram[old(index)] == val
      ensures forall i :: 0 <= i < 64 && i != old(index) ==> ram[i] == old(ram[i])
      ensures colors[old(index) / 8, (old(index) % 8) / 2] == FromBgr555(ColorEntry(ram[..], old(index)))
      ensures forall p, c :: 0 <= p < 8 && 0 <= c < 4 && (p, c) != (old(index) / 8, (old(index) % 8) / 2) ==>
        colors[p, c] == old(colors[p, c])
      ensures autoIncrement ==> index == NextPaletteIndex(old(index)) && specification == index as u8
      ensures !autoIncrement ==> index == old(index) && specification == old(specification)
    {
      var i := index;
      ram[i] := val;
      colors[i / 8, (i % 8) / 2] := FromBgr555(ColorEntry(ram[..], i));
      if autoIncrement {
        index := NextPaletteIndex(index);
        specification := index as u8;
      }
    }
  }

  /** The 15-bit colour stored in the two palette bytes around `i`: the
      byte at the odd index is the high byte. */
  function ColorEntry(ram: seq<u8>, i: int): (v: u16)
    requires |ram| == 64 && 0 <= i < 64
  {
    var lo := i - i % 2;
    ((ram[lo + 1] as u16) << 8) | (ram[lo] as u16)
  }

  /** The auto-incremented palette index, wrapping within 0-63. */
  function NextPaletteIndex(i: int): (n: int)
    requires 0 <= i < 64
    ensures 0 <= n < 64
    ensures i < 63 ==> n == i + 1
    ensures i == 63 ==> n == 0
  {
    (i + 1) % 64
  }

  /** Within one lap of sixty-four data writes with auto-increment the
      index moves on by one per write, wrapping once past 63: the writes
      visit every palette byte once and the sixty-fourth comes back to the
      starting index. */
  lemma {:induction false} AutoIncrementCycles(i: int, k: nat)
    requires 0 <= i < 64 && k <= 64
    ensures IterateIndex(i, k) == if i + k < 64 then i + k else i + k - 64
    decreases k
  {
    if k > 0 {
      AutoIncrementCycles(i, k - 1);
    }
  }

  /** The index after `k` auto-incrementing writes. */
  function IterateIndex(i: int, k: nat): (n: int)
    requires 0 <= i < 64
    ensures 0 <= n < 64
    decreases k
  {
    if k == 0 then i else NextPaletteIndex(IterateIndex(i, k - 1))
  }

  /** The PPU register snapshot that writes to plain registers change. */
  datatype Registers = Registers(lcdc: u8, scy: u8, scx: u8, lyc: u8, dma: u8, bgp: u8, obp0: u8,
                                 obp1: u8, wy: u8, wx: u8, gpuVramBank: u8)

  /** The registers `write_u8` stores without side effects. */
  predicate IsPlainRegister(addr: int)
  {
    addr == 0xFF42 || addr == 0xFF43 || addr == 0xFF44 || addr == 0xFF46
    || addr == 0xFF4A || addr == 0xFF4B || addr == 0xFF4F
  }

  /** The registers after a write to a plain register: the addressed one
      takes the value (the VRAM bank register with every bit but bit 0
      set), LY ignores the write, and no other register changes. */
  function AfterRegisterWrite(r: Registers, addr: int, val: u8): (n: Registers)
    requires IsPlainRegister(addr)
    ensures n.lcdc == r.lcdc && n.lyc == r.lyc && n.bgp == r.bgp && n.obp0 == r.obp0 && n.obp1 == r.obp1
    ensures addr == 0xFF44 ==> n == r
    ensures addr == 0xFF4F ==> n.gpuVramBank & 1 == val & 1 && n.gpuVramBank | 1 == 0xFF
  {
    match addr
    case 0xFF42 => r.(scy := val)
    case 0xFF43 => r.(scx := val)
    case 0xFF44 => r
    case 0xFF46 => r.(dma := val)
    case 0xFF4A => r.(wy := val)
    case 0xFF4B => r.(wx := val)
    case 0xFF4F => r.(gpuVramBank := val | 0xFE)
  }

  /** The two VRAM banks, cleared, and the three identity DMG palettes,
    all fresh and distinct. */
  method NewBuffers() returns (bank0: array<u8>, bank1: array<u8>, bg: array<int>, obj0: array<int>, obj1: array<int>)
    ensures fresh(bank0) && fresh(bank1) && fresh(bg) && fresh(obj0) && fresh(obj1)
    ensures bank0.Length == 0x2000 && bank1.Length == 0x2000 && bank0 != bank1
    ensures bg[..] == [0, 1, 2, 3] && obj0[..] == [0, 1, 2, 3] && obj1[..] == [0, 1, 2, 3]
    ensures bg != obj0 && bg != obj1 && obj0 != obj1
  {
    bank0 := ClearedBank();
    bank1 := ClearedBank();
    bg := IdentityPalette();
    obj0 := IdentityPalette();
    obj1 := IdentityPalette();
  }

  /** The background and sprite colour palettes, fresh and sharing no
    buffer. */
  method NewColorPalettes() returns (bg: ColorPalette, sprite: ColorPalette)
    ensures fresh(bg) && fresh(sprite) && bg.Valid() && sprite.Valid()
    ensures bg != sprite && bg.ram != sprite.ram && bg.colors != sprite.colors
  {
    bg := new ColorPalette();
    sprite := new ColorPalette();
  }

  /** A fresh VRAM bank of 8 KiB, all zero. */
  method ClearedBank() returns (a: array<u8>)
    ensures fresh(a) && a.Length == 0x2000
    ensures forall i :: 0 <= i < a.Length ==> a[i] == 0
  {
    a := new u8[0x2000](_ => 0);
  }

  /** A fresh DMG palette mapping each shade to itself. */
  method IdentityPalette() returns (a: array<int>)
    ensures fresh(a) && a[..] == [0, 1, 2, 3]
  {
    a := new int[] [0, 1, 2, 3];
  }

  class Ppu {
    const vram0: array<u8>
    const vram1: array<u8>
    const bgPalette: array<int>
    const objPalette0: array<int>
    const objPalette1: array<int>
    const bgColor: ColorPalette
    const spriteColor: ColorPalette
    const hdma: HdmaTransfer.Hdma

    var lcdc: u8
    var scy: u8
    var scx: u8
    var lyc: u8
    var dma: u8
    var bgp: u8
    var obp0: u8
    var obp1: u8
    var wy: u8
    var wx: u8
    var gpuVramBank: u8

    var mode: PpuMode
    var stat: u8
    var ly: u8
    var lineClockCycles: nat
    var modeClockCycles: nat
    var ly153Early: bool
    var windowInternalLineCounter: u8
    var drawFlag: bool
    var wyLyEqualityLatch: bool

    var statIrqState: bool
    var handleLcdPoweredOff: bool
    var objPrioMode: ObjectPriorityMode
    var compatibility: CgbCompatibility
    var statChangeOffset: int

    function Regs(): Registers
      reads this`lcdc, this`scy, this`scx, this`lyc, this`dma, this`bgp, this`obp0, this`obp1,
        this`wy, this`wx, this`gpuVramBank
    {
      Registers(lcdc, scy, scx, lyc, dma, bgp, obp0, obp1, wy, wx, gpuVramBank)
    }

    function LineTiming(): Timing
      reads this`mode, this`stat, this`ly, this`lineClockCycles, this`modeClockCycles,
        this`ly153Early, this`windowInternalLineCounter, this`drawFlag, this`wyLyEqualityLatch
    {
      Timing(mode, stat, ly, lineClockCycles, modeClockCycles, ly153Early,
             windowInternalLineCounter, drawFlag, wyLyEqualityLatch)
    }

    /** The buffers have their sizes and are distinct, and the line timing
      keeps its invariant. */
    predicate Valid()
      reads this`mode, this`stat, this`ly, this`lineClockCycles, this`modeClockCycles,
        this`ly153Early, this`windowInternalLineCounter, this`drawFlag, this`wyLyEqualityLatch,
        bgColor`index, spriteColor`index
    {
      Buffers() && LinesInRange(LineTiming())
    }

    /** The buffers have their sizes and are distinct. */
    predicate Buffers()
      reads bgColor`index, spriteColor`index
    {
      vram0.Length == 0x2000 && vram1.Length == 0x2000 && vram0 != vram1
      && bgPalette.Length == 4 && objPalette0.Length == 4 && objPalette1.Length == 4
      && bgPalette != objPalette0 && bgPalette != objPalette1 && objPalette0 != objPalette1
      && bgColor != spriteColor && bgColor.ram != spriteColor.ram && bgColor.colors != spriteColor.colors
      && bgColor.Valid() && spriteColor.Valid()
    }

    /** `Ppu::new`: LCD registers cleared, VRAM bank register 0xFE, the
      identity DMG palettes, OAM search on line 0. */
    constructor ()
      ensures Valid() && fresh(hdma)
      ensures Regs() == Registers(0, 0, 0, 0, 0, 0, 0, 0, 0, 0, 0xFE)
      ensures LineTiming() == Timing(Oam, 0, 0, 0, 0, false, 0, false, false)
      ensures bgPalette[..] == [0, 1, 2, 3] && objPalette0[..] == [0, 1, 2, 3] && objPalette1[..] == [0, 1, 2, 3]
      ensures !statIrqState && handleLcdPoweredOff && compatibility == CgbOnly
    {
      var bank0, bank1, bg, obj0, obj1 := NewBuffers();
      vram0, vram1, bgPalette, objPalette0, objPalette1 := bank0, bank1, bg, obj0, obj1;
      var bgc, spc := NewColorPalettes();
      bgColor, spriteColor := bgc, spc;
      hdma := new HdmaTransfer.Hdma();
      lcdc, scy, scx, lyc, dma, bgp, obp0, obp1, wy, wx := 0, 0, 0, 0, 0, 0, 0, 0, 0, 0;
      gpuVramBank := 0xFE;
      mode, stat, ly, lineClockCycles, modeClockCycles := Oam, 0, 0, 0, 0;
      ly153Early, windowInternalLineCounter, drawFlag, wyLyEqualityLatch := false, 0, false, false;
      statIrqState := false;
      handleLcdPoweredOff := true;
      objPrioMode := OamOrder;
      compatibility := CgbOnly;
      statChangeOffset := 0;
    }

    /** `set_console_compatibility`, passed on to the HDMA registers; the
      monochrome console shifts STAT changes by four cycles. */
    method SetConsoleCompatibility(m: CgbCompatibility)
      modifies this`compatibility, this`statChangeOffset, hdma`compatibility
      ensures compatibility == m && hdma.compatibility == m
      ensures statChangeOffset == if m == Dmg then 4 else old(statChangeOffset)
    {
      compatibility := m;
      hdma.SetConsoleCompatibility(m);
      if m == Dmg {
        statChangeOffset := 4;
      }
    }

    /** `consume_draw_flag`: reports a finished frame once. */
    method ConsumeDrawFlag() returns (flag: bool)
      modifies this`drawFlag
      ensures flag == old(drawFlag) && !drawFlag
    {
      flag := drawFlag;
      drawFlag := false;
    }

    /** The VRAM bank the CPU sees: bit 0 of the bank register. */
    function VramBank(): (a: array<u8>)
      reads this
      ensures a == if gpuVramBank & 1 == 0 then vram0 else vram1
    {
      if gpuVramBank & 1 == 0 then vram0 else vram1
    }

    /** `read_vram`. */
    function ReadVram(addr: int): (r: u8)
      requires Valid() && 0 <= addr < 0x2000
      reads this, bgColor, spriteColor, vram0, vram1
      ensures r == VramBank()[addr]
    {
      VramBank()[addr]
    }

    /** `write_vram`: one byte of the selected bank changes. */
    method WriteVram(addr: int, val: u8)
      requires Valid() && 0 <= addr < 0x2000
      modifies vram0, vram1
      ensures VramBank()[addr] == val
      ensures forall a :: 0 <= a < 0x2000 && a != addr ==> VramBank()[a] == old(VramBank()[a])
      ensures unchanged(if gpuVramBank & 1 == 0 then vram1 else vram0)
    {
      VramBank()[addr] := val;
    }

    /** `get_mode_stat`: the mode STAT shows. */
    function GetModeStat(): (m: PpuMode)
      reads this
      ensures ModeBits(m) == stat & 0x03
    {
      ModeOfBits(stat & 0x03)
    }

    /** `read_u8`: STAT reads with bit 7 set, the palette index registers
      with bits 6-7 set, the palette data ports the byte at the index, and
      0xFF6C as 0xFF; the others read as stored. The bus sends no other
      address. */
    function ReadU8(addr: int): (r: u8)
      requires Valid()
      requires 0xFF40 <= addr <= 0xFF4B || addr == 0xFF4F || 0xFF68 <= addr <= 0xFF6C
      reads this, bgColor, spriteColor, bgColor.ram, spriteColor.ram
      ensures addr == 0xFF40 ==> r == lcdc
      ensures addr == 0xFF41 ==> r & 0x80 == 0x80 && r & 0x7F == stat & 0x7F
      ensures addr == 0xFF42 ==> r == scy
      ensures addr == 0xFF43 ==> r == scx
      ensures addr == 0xFF44 ==> r == ly
      ensures addr == 0xFF45 ==> r == lyc
      ensures addr == 0xFF46 ==> r == dma
      ensures addr == 0xFF47 ==> r == bgp
      ensures addr == 0xFF48 ==> r == obp0
      ensures addr == 0xFF49 ==> r == obp1
      ensures addr == 0xFF4A ==> r == wy
      ensures addr == 0xFF4B ==> r == wx
      ensures addr == 0xFF4F ==> r == gpuVramBank
      ensures addr == 0xFF68 ==> r == bgColor.ReadSpecification()
      ensures addr == 0xFF69 ==> r == bgColor.ReadData()
      ensures addr == 0xFF6A ==> r == spriteColor.ReadSpecification()
      ensures addr == 0xFF6B ==> r == spriteColor.ReadData()
      ensures addr == 0xFF6C ==> r == 0xFF
    {
      match addr
      case 0xFF40 => lcdc
      case 0xFF41 => 0x80 | stat
      case 0xFF42 => scy
      case 0xFF43 => scx
      case 0xFF44 => ly
      case 0xFF45 => lyc
      case 0xFF46 => dma
      case 0xFF47 => bgp
      case 0xFF48 => obp0
      case 0xFF49 => obp1
      case 0xFF4A => wy
      case 0xFF4B => wx
      case 0xFF4F => gpuVramBank
      case 0xFF68 => bgColor.ReadSpecification()
      case 0xFF69 => bgColor.ReadData()
      case 0xFF6A => spriteColor.ReadSpecification()
      case 0xFF6B => spriteColor.ReadData()
      case 0xFF6C => 0xFF
    }

    /** Replaces the line timing fields. */
    method SetTiming(t: Timing)
      modifies this`mode, this`stat, this`ly, this`lineClockCycles, this`modeClockCycles,
        this`ly153Early, this`windowInternalLineCounter, this`drawFlag, this`wyLyEqualityLatch
      ensures LineTiming() == t
    {
      mode, stat, ly, lineClockCycles, modeClockCycles := t.mode, t.stat, t.ly, t.lineClock, t.modeClock;
      ly153Early, windowInternalLineCounter, drawFlag, wyLyEqualityLatch :=
        t.ly153Early, t.windowLineCounter, t.drawFlag, t.wyLyLatch;
    }

    /** `update_stat_irq_conditions`: the STAT interrupt is requested only
      when the combined condition goes from false to true, and the
      condition is remembered. */
    method UpdateStatIrqConditions(interrupts: Interrupts.InterruptState)
      requires Valid()
      modifies this`statIrqState, interrupts
      ensures Valid()
      ensures statIrqState == StatIrqLine(stat, ly, lyc)
      ensures !old(statIrqState) && statIrqState ==>
        interrupts.flags == old(interrupts.flags) | Interrupts.Bit(Interrupts.Stat)
      ensures old(statIrqState) || !statIrqState ==> interrupts.flags == old(interrupts.flags)
      ensures interrupts.master == old(interrupts.master) && interrupts.enable == old(interrupts.enable)
    {
      var line := StatIrqLine(stat, ly, lyc);
      if !statIrqState && line {
        interrupts.RequestInterrupt(Interrupts.Stat);
        assert interrupts.flags == old(interrupts.flags) | Interrupts.Bit(Interrupts.Stat);
      }
      statIrqState := line;
    }

    /** `tick`: nothing happens while the LCD is off; otherwise one cycle of
      the line timing runs, a VBlank interrupt is requested on entering
      VBlank, and the STAT line is re-evaluated. `fifoDone` stands for the
      pixel pipeline reporting the end of the line during pixel transfer. */
    method Tick(interrupts: Interrupts.InterruptState, fifoDone: bool)
      requires Valid()
      modifies this`mode, this`stat, this`ly, this`lineClockCycles, this`modeClockCycles,
        this`ly153Early, this`windowInternalLineCounter, this`drawFlag, this`wyLyEqualityLatch,
        this`statIrqState, interrupts
      ensures Valid()
      ensures lcdc & 0x80 == 0 ==> unchanged(this) && unchanged(interrupts)
      ensures lcdc & 0x80 != 0 ==>
        LineTiming() == StepTiming(old(LineTiming()), lyc, wy, fifoDone).0
        && statIrqState == StatIrqLine(stat, ly, lyc)
      ensures StepTiming(old(LineTiming()), lyc, wy, fifoDone).1 && lcdc & 0x80 != 0 ==>
        interrupts.flags & Interrupts.Bit(Interrupts.VBlank) == Interrupts.Bit(Interrupts.VBlank)
      ensures lcdc & 0x80 != 0 ==>
        interrupts.flags == CycleFlags(old(interrupts.flags), StepTiming(old(LineTiming()), lyc, wy, fifoDone).1,
                                       !old(statIrqState) && statIrqState)
      ensures interrupts.master == old(interrupts.master) && interrupts.enable == old(interrupts.enable)
    {
      if lcdc & 0x80 == 0 {
        return;
      }
      var vblank := StepLine(fifoDone);
      RaiseLineInterrupts(vblank, interrupts);
    }

    /** The interrupts of a cycle: VBlank when it was entered, then the
      STAT line is re-evaluated. */
    method RaiseLineInterrupts(vblank: bool, interrupts: Interrupts.InterruptState)
      requires Valid()
      modifies this`statIrqState, interrupts
      ensures Valid()
      ensures statIrqState == StatIrqLine(stat, ly, lyc)
      ensures vblank ==> interrupts.flags & Interrupts.Bit(Interrupts.VBlank) == Interrupts.Bit(Interrupts.VBlank)
      ensures interrupts.flags == CycleFlags(old(interrupts.flags), vblank, !old(statIrqState) && statIrqState)
      ensures interrupts.master == old(interrupts.master) && interrupts.enable == old(interrupts.enable)
    {
      ghost var f0 := interrupts.flags;
      RequestVBlankIf(vblank, interrupts);
      ghost var f1 := interrupts.flags;
      UpdateStatIrqConditions(interrupts);
      CycleRequests(f0, f1, interrupts.flags, vblank, !old(statIrqState) && statIrqState);
    }

    /** One cycle of the line timing; the flag says whether VBlank was
      entered. */
    method StepLine(fifoDone: bool) returns (vblank: bool)
      requires Valid()
      modifies this`mode, this`stat, this`ly, this`lineClockCycles, this`modeClockCycles,
        this`ly153Early, this`windowInternalLineCounter, this`drawFlag, this`wyLyEqualityLatch
      ensures Valid()
      ensures (LineTiming(), vblank) == StepTiming(old(LineTiming()), lyc, wy, fifoDone)
    {
      var next := StepTiming(LineTiming(), lyc, wy, fifoDone);
      StepKeepsLinesInRange(LineTiming(), lyc, wy, fifoDone);
      SetTiming(next.0);
      vblank := next.1;
    }

    /** A DMG palette register write: the register and the four shades it
      assigns. */
    method WritePalette(val: u8, pal: array<int>)
      requires pal.Length == 4
      modifies pal
      ensures forall i :: 0 <= i < 4 ==> pal[i] == Shade(val, i) as int
    {
      for i := 0 to 4
        invariant forall j :: 0 <= j < i ==> pal[j] == Shade(val, j) as int
      {
        pal[i] := Shade(val, i) as int;
      }
    }

    /** A write to LCDC: switching the LCD on clears the powered-off mark,
      switching it off resets the line timing. */
    method WriteLcdc(val: u8)
      requires Valid()
      modifies this`lcdc, this`handleLcdPoweredOff, this`mode, this`stat, this`ly, this`lineClockCycles, this`modeClockCycles,
        this`ly153Early, this`windowInternalLineCounter, this`drawFlag, this`wyLyEqualityLatch
      ensures Valid()
      ensures lcdc == val
      ensures val & 0x80 == 0 ==> LineTiming() == ResetTiming(old(LineTiming())) && handleLcdPoweredOff
      ensures val & 0x80 != 0 ==>
        LineTiming() == old(LineTiming())
        && handleLcdPoweredOff == (old(handleLcdPoweredOff) && old(lcdc) & 0x80 != 0)
    {
      if lcdc & 0x80 == 0 && val & 0x80 != 0 {
        handleLcdPoweredOff := false;
      }
      lcdc := val;
      if lcdc & 0x80 == 0 {
        handleLcdPoweredOff := true;
        SetTiming(ResetTiming(LineTiming()));
      }
    }

    /** `write_u8` for the plain registers: SCY, SCX, the OAM DMA source,
      WY, WX and the VRAM bank register; LY ignores writes. */
    method WriteRegister(addr: int, val: u8)
      requires IsPlainRegister(addr)
      modifies this`scy, this`scx, this`dma, this`wy, this`wx, this`gpuVramBank
      ensures Regs() == AfterRegisterWrite(old(Regs()), addr, val)
    {
      match addr
      case 0xFF42 => scy := val;
      case 0xFF43 => scx := val;
      case 0xFF44 =>
      case 0xFF46 => dma := val;
      case 0xFF4A => wy := val;
      case 0xFF4B => wx := val;
      case 0xFF4F => gpuVramBank := val | 0xFE;
    }

    /** `write_u8` for STAT: the read-only bits stay, and the interrupt
      line is re-evaluated with the new select bits. */
    method WriteStat(val: u8, interrupts: Interrupts.InterruptState)
      requires Valid()
      modifies this`stat, this`statIrqState, interrupts
      ensures Valid()
      ensures stat == StatWrite(old(stat), val) && statIrqState == StatIrqLine(stat, ly, lyc)
      ensures !old(statIrqState) && statIrqState ==>
        interrupts.flags == old(interrupts.flags) | Interrupts.Bit(Interrupts.Stat)
      ensures old(statIrqState) || !statIrqState ==> interrupts.flags == old(interrupts.flags)
    {
      stat := StatWrite(stat, val);
      UpdateStatIrqConditions(interrupts);
    }

    /** `write_u8` for LYC: while the LCD is on the coincidence bit follows
      the new value at once. */
    method WriteLyc(val: u8)
      requires Valid()
      modifies this`lyc, this`stat
      ensures Valid()
      ensures lyc == val
      ensures lcdc & 0x80 != 0 ==> stat == WithLyLyc(old(stat), ly, val)
      ensures lcdc & 0x80 == 0 ==> stat == old(stat)
    {
      var s := if lcdc & 0x80 != 0 then WithLyLyc(stat, ly, val) else stat;
      StatOutsideLineInvariant(LineTiming(), s);
      lyc := val;
      stat := s;
      assert LineTiming() == old(LineTiming()).(stat := s);
    }

    /** `write_u8` for BGP, OBP0 and OBP1: the register and the four shades
      it assigns. */
    method WriteDmgPalette(addr: int, val: u8)
      requires Valid() && 0xFF47 <= addr <= 0xFF49
      modifies this`bgp, this`obp0, this`obp1, bgPalette, objPalette0, objPalette1
      ensures Valid()
      ensures addr == 0xFF47 ==>
        bgp == val && obp0 == old(obp0) && obp1 == old(obp1)
        && unchanged(objPalette0, objPalette1)
        && forall i :: 0 <= i < 4 ==> bgPalette[i] == Shade(val, i) as int
      ensures addr == 0xFF48 ==>
        obp0 == val && bgp == old(bgp) && obp1 == old(obp1)
        && unchanged(bgPalette, objPalette1)
        && forall i :: 0 <= i < 4 ==> objPalette0[i] == Shade(val, i) as int
      ensures addr == 0xFF49 ==>
        obp1 == val && bgp == old(bgp) && obp0 == old(obp0)
        && unchanged(bgPalette, objPalette0)
        && forall i :: 0 <= i < 4 ==> objPalette1[i] == Shade(val, i) as int
    {
      if addr == 0xFF47 {
        bgp := val;
        WritePalette(val, bgPalette);
      } else if addr == 0xFF48 {
        obp0 := val;
        WritePalette(val, objPalette0);
      } else {
        obp1 := val;
        WritePalette(val, objPalette1);
      }
    }

    /** `write_u8` for the colour palette ports and the object priority
      mode register 0xFF6C, whose bit 0 chooses coordinate order. */
    method WriteColorRegister(addr: int, val: u8)
      requires Valid() && 0xFF68 <= addr <= 0xFF6C
      modifies bgColor, bgColor.ram, bgColor.colors, spriteColor, spriteColor.ram, spriteColor.colors,
        this`objPrioMode
      ensures Valid()
      ensures addr == 0xFF6C ==> objPrioMode == if val & 1 == 0 then OamOrder else CoordinateOrder
      ensures addr != 0xFF6C ==> objPrioMode == old(objPrioMode)
      ensures addr == 0xFF68 || addr == 0xFF69 ==> unchanged(spriteColor, spriteColor.ram, spriteColor.colors)
      ensures addr == 0xFF6A || addr == 0xFF6B ==> unchanged(bgColor, bgColor.ram, bgColor.colors)
      ensures addr == 0xFF68 ==>
        bgColor.specification == val && bgColor.index == (val & 0x3F) as int
        && bgColor.autoIncrement == (val & 0x80 != 0) && unchanged(bgColor.ram, bgColor.colors)
      ensures addr == 0xFF69 ==> bgColor.ram[old(bgColor.index)] == val && bgColor.autoIncrement == old(bgColor.autoIncrement)
      ensures addr == 0xFF69 ==> forall i :: 0 <= i < 64 && i != old(bgColor.index) ==> bgColor.ram[i] == old(bgColor.ram[i])
      ensures addr == 0xFF69 ==>
        bgColor.colors[old(bgColor.index) / 8, (old(bgColor.index) % 8) / 2] == FromBgr555(ColorEntry(bgColor.ram[..], old(bgColor.index)))
      ensures addr == 0xFF69 ==> forall q, c :: 0 <= q < 8 && 0 <= c < 4 && (q, c) != (old(bgColor.index) / 8, (old(bgColor.index) % 8) / 2) ==>
        bgColor.colors[q, c] == old(bgColor.colors[q, c])
      ensures addr == 0xFF69 && bgColor.autoIncrement ==>
        bgColor.index == NextPaletteIndex(old(bgColor.index)) && bgColor.specification == bgColor.index as u8
      ensures addr == 0xFF69 && !bgColor.autoIncrement ==>
        bgColor.index == old(bgColor.index) && bgColor.specification == old(bgColor.specification)
      ensures addr == 0xFF6A ==>
        spriteColor.specification == val && spriteColor.index == (val & 0x3F) as int
        && spriteColor.autoIncrement == (val & 0x80 != 0) && unchanged(spriteColor.ram, spriteColor.colors)
      ensures addr == 0xFF6B ==> spriteColor.ram[old(spriteColor.index)] == val && spriteColor.autoIncrement == old(spriteColor.autoIncrement)
      ensures addr == 0xFF6B ==> forall i :: 0 <= i < 64 && i != old(spriteColor.index) ==> spriteColor.ram[i] == old(spriteColor.ram[i])
      ensures addr == 0xFF6B ==>
        spriteColor.colors[old(spriteColor.index) / 8, (old(spriteColor.index) % 8) / 2] == FromBgr555(ColorEntry(spriteColor.ram[..], old(spriteColor.index)))
      ensures addr == 0xFF6B ==> forall q, c :: 0 <= q < 8 && 0 <= c < 4 && (q, c) != (old(spriteColor.index) / 8, (old(spriteColor.index) % 8) / 2) ==>
        spriteColor.colors[q, c] == old(spriteColor.colors[q, c])
      ensures addr == 0xFF6B && spriteColor.autoIncrement ==>
        spriteColor.index == NextPaletteIndex(old(spriteColor.index)) && spriteColor.specification == spriteColor.index as u8
      ensures addr == 0xFF6B && !spriteColor.autoIncrement ==>
        spriteColor.index == old(spriteColor.index) && spriteColor.specification == old(spriteColor.specification)
    {
      if addr == 0xFF68 {
        bgColor.WriteSpecification(val);
      } else if addr == 0xFF69 {
        bgColor.WriteData(val);
      } else if addr == 0xFF6A {
        spriteColor.WriteSpecification(val);
      } else if addr == 0xFF6B {
        spriteColor.WriteData(val);
      } else {
        objPrioMode := if val & 1 == 0 then OamOrder else CoordinateOrder;
      }
    }
  }

  /** Reading the VRAM bank register tells which bank is mapped: all bits
      but bit 0 read as set. */
  lemma VramBankRegisterReadsBank(val: u8)
    ensures (val | 0xFE) & 1 == val & 1 && (val | 0xFE) & 0xFE == 0xFE
  {
  }
}

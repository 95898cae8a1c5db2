/** The memory map: which component answers each 16-bit address. The bus
    owns the boot ROM, the eight 4 KiB work RAM banks and their bank
    register, the I/O byte array, high RAM and the console compatibility;
    it forwards the interrupt registers to the interrupt state and the OAM
    to the sprite table, gated by OAM DMA. Addresses owned by the
    cartridge, the picture unit, the timer, the joypad, the sound unit, the
    speed switch and the serial port are routed to them: their reads come
    in through a `device` function and their writes are handed back as a
    `Forward` value. */
module MemoryBus {
  import opened Bits
  import opened CgbCompat
  import Interrupts
  import opened OamDmaUnit

  /** The component an address is routed to. */
  datatype Region =
    | Bios(offset: int)
    | CartridgeRom
    | Vram
    | CartridgeRam
    | WorkRam(banked: bool, offset: int)
    | Oam(offset: int)
    | Unusable
    | Joypad
    | SerialPort
    | TimerRegs
    | InterruptFlags
    | InterruptEnable
    | BiosDisable
    | OamDmaRegister
    | HdmaRegs
    | PpuRegs
    | Compatibility
    | SpeedSwitch
    | WorkRamBankRegister
    | ApuRegs
    | Io(offset: int)
    | HighRam(offset: int)

  /** The regions whose bytes belong to another component. */
  predicate DeviceRegion(r: Region)
  {
    r.CartridgeRom? || r.Vram? || r.CartridgeRam? || r.Joypad? || r.SerialPort? || r.TimerRegs?
    || r.HdmaRegs? || r.PpuRegs? || r.SpeedSwitch? || r.ApuRegs?
  }

  /** The sound registers the bus forwards. */
  predicate IsApuAddress(addr: int)
  {
    0xFF10 <= addr <= 0xFF14 || 0xFF16 <= addr <= 0xFF19 || 0xFF24 <= addr <= 0xFF26
  }

  /** The work RAM region of 0xC000-0xFDFF: 0xC000-0xCFFF and its echo are
      bank 0, 0xD000-0xDFFF and its echo the selected bank. */
  function WorkRamRegion(addr: int): (r: Region)
    requires 0xC000 <= addr <= 0xFDFF
    ensures r.WorkRam? && 0 <= r.offset < 0x1000
  {
    if addr < 0xD000 then WorkRam(false, addr - 0xC000)
    else if addr < 0xE000 then WorkRam(true, addr - 0xD000)
    else if addr < 0xF000 then WorkRam(false, addr - 0xE000)
    else WorkRam(true, addr - 0xF000)
  }

  /** The I/O registers at 0xFF00-0xFF7F as `read_u8` routes them, in the
      order of its match arms. */
  function IoReadRegion(addr: int): (r: Region)
    requires 0xFF00 <= addr <= 0xFF7F
    ensures r.Io? ==> r.offset == addr - 0xFF00
  {
    if addr == 0xFF00 then Joypad
    else if 0xFF04 <= addr <= 0xFF07 then TimerRegs
    else if addr == 0xFF0F then InterruptFlags
    else if addr == 0xFF46 then OamDmaRegister
    else if 0xFF51 <= addr <= 0xFF55 then HdmaRegs
    else if 0xFF40 <= addr <= 0xFF4B then PpuRegs
    else if addr == 0xFF4D then SpeedSwitch
    else if addr == 0xFF4F then PpuRegs
    else if 0xFF68 <= addr <= 0xFF6B then PpuRegs
    else if addr == 0xFF70 then WorkRamBankRegister
    else if IsApuAddress(addr) then ApuRegs
    else Io(addr - 0xFF00)
  }

  /** `read_u8`'s routing: the boot ROM overlays 0x0000-0x00FF and
      0x0200-0x08FF while enabled, leaving the cartridge header visible. */
  function ReadRegion(addr: Addr, biosEnabled: bool): (r: Region)
    ensures r.Bios? ==> 0 <= r.offset < 0x900
    ensures r.Oam? ==> 0 <= r.offset < 0xA0
    ensures r.Io? ==> 0 <= r.offset < 0x80
    ensures r.HighRam? ==> 0 <= r.offset < 0x7F
  {
    if biosEnabled && (addr <= 0x00FF || 0x0200 <= addr <= 0x08FF) then Bios(addr)
    else if addr <= 0x7FFF then CartridgeRom
    else if addr <= 0x9FFF then Vram
    else if addr <= 0xBFFF then CartridgeRam
    else if addr <= 0xFDFF then WorkRamRegion(addr)
    else if addr <= 0xFEFF then (if addr < 0xFEA0 then Oam(addr - 0xFE00) else Unusable)
    else if addr == 0xFFFF then InterruptEnable
    else if addr <= 0xFF7F then IoReadRegion(addr)
    else HighRam(addr - 0xFF80)
  }

  /** The I/O registers at 0xFF00-0xFF7F as `write_u8` routes them, in the
      order of its match arms. */
  function IoWriteRegion(addr: int): (r: Region)
    requires 0xFF00 <= addr <= 0xFF7F
    ensures r.Io? ==> r.offset == addr - 0xFF00
  {
    if IsApuAddress(addr) then ApuRegs
    else if addr == 0xFF00 then Joypad
    else if addr == 0xFF01 then SerialPort
    else if 0xFF03 <= addr <= 0xFF07 then TimerRegs
    else if addr == 0xFF0F then InterruptFlags
    else if addr == 0xFF50 then BiosDisable
    else if addr == 0xFF46 then OamDmaRegister
    else if 0xFF51 <= addr <= 0xFF55 then HdmaRegs
    else if 0xFF40 <= addr <= 0xFF4B then PpuRegs
    else if addr == 0xFF4C then Compatibility
    else if addr == 0xFF4D then SpeedSwitch
    else if addr == 0xFF4F then PpuRegs
    else if 0xFF68 <= addr <= 0xFF6C then PpuRegs
    else if addr == 0xFF70 then WorkRamBankRegister
    else Io(addr - 0xFF00)
  }

  /** `write_u8`'s routing; the boot ROM is never written. */
  function WriteRegion(addr: Addr): (r: Region)
    ensures !r.Bios?
    ensures r.Oam? ==> 0 <= r.offset < 0xA0
    ensures r.Io? ==> 0 <= r.offset < 0x80
    ensures r.HighRam? ==> 0 <= r.offset < 0x7F
  {
    if addr <= 0x7FFF then CartridgeRom
    else if addr <= 0x9FFF then Vram
    else if addr <= 0xBFFF then CartridgeRam
    else if addr <= 0xFDFF then WorkRamRegion(addr)
    else if addr <= 0xFEFF then (if addr < 0xFEA0 then Oam(addr - 0xFE00) else Unusable)
    else if addr == 0xFFFF then InterruptEnable
    else if addr <= 0xFF7F then IoWriteRegion(addr)
    else HighRam(addr - 0xFF80)
  }

  /** Echo RAM: 0xE000-0xFDFF reaches the same work RAM bytes as
      0xC000-0xDDFF, for reads and for writes. */
  lemma EchoAliasesWorkRam(addr: Addr, biosEnabled: bool)
    requires 0xE000 <= addr <= 0xFDFF
    ensures ReadRegion(addr, biosEnabled) == ReadRegion(addr - 0x2000, biosEnabled)
    ensures WriteRegion(addr) == WriteRegion(addr - 0x2000)
    ensures WriteRegion(addr) == ReadRegion(addr, biosEnabled)
  {
  }

  /** Work RAM, echo RAM and high RAM read back what was written there, and
      the boot ROM never covers them. */
  predicate PlainRam(addr: int)
  {
    0xC000 <= addr <= 0xFDFF || 0xFF80 <= addr <= 0xFFFE
  }

  /** Plain RAM routes the same way for reads and for writes, to storage
      the bus owns. */
  lemma PlainRamRoutesAlike(addr: Addr, biosEnabled: bool)
    requires PlainRam(addr)
    ensures ReadRegion(addr, biosEnabled) == WriteRegion(addr)
    ensures WriteRegion(addr).WorkRam? || WriteRegion(addr).HighRam?
  {
  }

  /** The routes of reads and writes differ only at I/O registers: the
      serial port, the boot ROM switch, the compatibility byte, 0xFF03,
      0xFF6C and the boot ROM overlay. */
  lemma ReadAndWriteRoutesDiffer(addr: Addr)
    requires addr !in {0xFF01, 0xFF03, 0xFF4C, 0xFF50, 0xFF6C}
    ensures ReadRegion(addr, false) == WriteRegion(addr)
  {
  }

  /** The bank selected by a write to 0xFF70: 0 selects bank 1, anything
      else its low three bits. */
  function WorkRamBankFor(val: u8): (bank: int)
    ensures 1 <= bank <= 7
    ensures val & 0x07 != 0 ==> bank == (val & 0x07) as int
    ensures val & 0x07 == 0 ==> bank == 1
  {
    var b := (val & 0x07) as int;
    if b == 0 then 1 else b
  }

  /** The compatibility a write to 0xFF4C sets: a header byte that marks a
      colour cartridge of either kind selects colour mode, anything else
      the monochrome mode. */
  function CompatibilityAfterWrite(val: u8): (c: CgbCompatibility)
    ensures c == CgbOnly <==> val == 0x80 || val == 0xC0
    ensures c == Dmg <==> val != 0x80 && val != 0xC0
  {
    var c := FromByte(val);
    if c == Dmg then c else CgbOnly
  }

  /** What a write leaves for another component: nothing, or the byte for
      the component the address is routed to. */
  datatype Forward = Handled | ToDevice(region: Region, addr: Addr, val: u8)

  /** A work RAM or high RAM cell. */
  datatype Cell = WorkRamCell(bank: int, offset: int) | HighRamCell(offset: int)

  /** Two 16-bit little-endian halves put back together. */
  function Join16(lo: u8, hi: u8): (v: u16)
    ensures LowByte(v) == lo && HighByte(v) == hi
  {
    (lo as u16) + ((hi as u16) << 8)
  }

  /** Splitting a 16-bit value into its bytes and joining them restores it. */
  lemma Join16Split(v: u16)
    ensures Join16(LowByte(v), HighByte(v)) == v
  {
  }

  class Bus {
    const bios: array<u8>
    const workingRam: array2<u8>
    const io: array<u8>
    const zeroPage: array<u8>
    const spriteTable: array<u8>
    const interrupts: Interrupts.InterruptState
    const oamDma: OamDma

    var workingRamBank: int
    var biosEnabled: bool
    var compatibility: CgbCompatibility

    /** The buffers have their sizes, are distinct, and the selected work
      RAM bank is one of 1-7. */
    predicate Valid()
      reads this, oamDma
    {
      bios.Length == 0x900 && workingRam.Length0 == 8 && workingRam.Length1 == 0x1000
      && io.Length == 0x100 && zeroPage.Length == 0x80 && spriteTable.Length == 0xA0
      && bios != io && bios != zeroPage && bios != spriteTable && io != zeroPage
      && io != spriteTable && zeroPage != spriteTable
      && 1 <= workingRamBank <= 7
      && oamDma.Valid()
    }

    /** `Bus::new`: empty RAM, work RAM bank 1, the boot ROM mapped in and
      colour mode. */
    constructor (bootRom: seq<u8>)
      requires |bootRom| == 0x900
      ensures Valid() && fresh(interrupts) && fresh(oamDma)
      ensures bios[..] == bootRom && biosEnabled && workingRamBank == 1 && compatibility == CgbOnly
      ensures forall b, o :: 0 <= b < 8 && 0 <= o < 0x1000 ==> workingRam[b, o] == 0
    {
      bios := new u8[0x900](i requires 0 <= i < 0x900 => bootRom[i]);
      workingRam := new u8[8, 0x1000]((b, o) => 0);
      io := new u8[0x100](_ => 0);
      zeroPage := new u8[0x80](_ => 0);
      spriteTable := new u8[0xA0](_ => 0);
      interrupts := new Interrupts.InterruptState();
      oamDma := new OamDma();
      workingRamBank := 1;
      biosEnabled := true;
      compatibility := CgbOnly;
    }

    /** The work RAM or high RAM cell a plain RAM address reaches. */
    function CellOf(addr: Addr): (c: Cell)
      requires Valid() && PlainRam(addr)
      reads this, oamDma
      ensures c.WorkRamCell? ==> 0 <= c.bank < 8 && 0 <= c.offset < 0x1000
      ensures c.HighRamCell? ==> 0 <= c.offset < 0x7F
    {
      match WriteRegion(addr)
      case WorkRam(banked, offset) => WorkRamCell(if banked then workingRamBank else 0, offset)
      case HighRam(offset) => HighRamCell(offset)
    }

    /** The byte held in the cell a plain RAM address reaches. */
    function RamByte(addr: Addr): u8
      requires Valid() && PlainRam(addr)
      reads this, workingRam, zeroPage, oamDma
    {
      match CellOf(addr)
      case WorkRamCell(b, o) => workingRam[b, o]
      case HighRamCell(o) => zeroPage[o]
    }

    /** `read_u8`: OAM reads 0xFF while OAM DMA runs and above 0xFE9F; IF
      reads with its three unused bits set; 0xFF70 reads the bank number;
      `device` answers for the addresses other components own. */
    function ReadU8(addr: Addr, device: Addr -> u8): (r: u8)
      requires Valid()
      reads this, bios, workingRam, io, zeroPage, spriteTable, interrupts, oamDma
      ensures DeviceRegion(ReadRegion(addr, biosEnabled)) ==> r == device(addr)
      ensures PlainRam(addr) ==> r == RamByte(addr)
      ensures 0xFE00 <= addr <= 0xFEFF && (oamDma.active || addr >= 0xFEA0) ==> r == 0xFF
      ensures addr == 0xFF0F ==> r & 0xE0 == 0xE0 && r & 0x1F == interrupts.flags & 0x1F
    {
      match ReadRegion(addr, biosEnabled)
      case Bios(o) => bios[o]
      case WorkRam(banked, o) => workingRam[if banked then workingRamBank else 0, o]
      case Oam(o) => if oamDma.active then 0xFF else spriteTable[o]
      case Unusable => 0xFF
      case InterruptFlags => 0xE0 | (interrupts.flags & 0x1F)
      case InterruptEnable => interrupts.enable
      case OamDmaRegister => oamDma.ReadU8()
      case WorkRamBankRegister => workingRamBank as u8
      case Io(o) => io[o]
      case HighRam(o) => zeroPage[o]
      case _ => device(addr)
    }

    /** Stores a byte into a work RAM bank. */
    method WriteWorkRam(bank: int, offset: int, val: u8)
      requires Valid() && 0 <= bank < 8 && 0 <= offset < 0x1000
      modifies workingRam
      ensures workingRam[bank, offset] == val
      ensures forall b, o :: 0 <= b < 8 && 0 <= o < 0x1000 && (b, o) != (bank, offset) ==>
        workingRam[b, o] == old(workingRam[b, o])
    {
      workingRam[bank, offset] := val;
    }

    /** `write_u8` to bus-owned storage and registers: work RAM (echo
      included), OAM unless OAM DMA runs, the interrupt registers, the
      boot ROM switch, the OAM DMA register, the compatibility byte, the
      work RAM bank, the I/O bytes and high RAM. Writes to the area above
      the sprite table are dropped. */
    method WriteOwned(addr: Addr, val: u8)
      requires Valid() && !DeviceRegion(WriteRegion(addr))
      modifies this, workingRam, io, zeroPage, spriteTable, interrupts, oamDma
      ensures Valid()
      ensures WriteRegion(addr).WorkRam? ==>
        (var c := old(CellOf(addr)); workingRam[c.bank, c.offset] == val)
      ensures WriteRegion(addr).HighRam? ==> zeroPage[WriteRegion(addr).offset] == val
      ensures WriteRegion(addr).Io? ==> io[WriteRegion(addr).offset] == val
      ensures WriteRegion(addr).Oam? && !old(oamDma.active) ==> spriteTable[WriteRegion(addr).offset] == val
      ensures WriteRegion(addr).Oam? && old(oamDma.active) ==> unchanged(spriteTable)
      ensures WriteRegion(addr).InterruptFlags? ==> interrupts.flags == val
      ensures WriteRegion(addr).InterruptEnable? ==> interrupts.enable == val
      ensures WriteRegion(addr).BiosDisable? ==> !biosEnabled
      ensures WriteRegion(addr).OamDmaRegister? ==>
        oamDma.ioReg == val && oamDma.Counters() == Queued(old(oamDma.Counters()), val)
      ensures WriteRegion(addr).Compatibility? ==> compatibility == CompatibilityAfterWrite(val)
      ensures WriteRegion(addr).WorkRamBankRegister? ==> workingRamBank == WorkRamBankFor(val)
      ensures !WriteRegion(addr).WorkRamBankRegister? ==> workingRamBank == old(workingRamBank)
      ensures !WriteRegion(addr).BiosDisable? ==> biosEnabled == old(biosEnabled)
      ensures !WriteRegion(addr).OamDmaRegister? ==> unchanged(oamDma)
      ensures !WriteRegion(addr).WorkRam? ==> unchanged(workingRam)
      ensures !WriteRegion(addr).HighRam? ==> unchanged(zeroPage)
      ensures !WriteRegion(addr).Io? ==> unchanged(io)
      ensures !WriteRegion(addr).Oam? ==> unchanged(spriteTable)
      ensures !WriteRegion(addr).InterruptFlags? && !WriteRegion(addr).InterruptEnable? ==> unchanged(interrupts)
      ensures WriteRegion(addr).WorkRam? ==>
        forall b, o :: 0 <= b < 8 && 0 <= o < 0x1000 && WorkRamCell(b, o) != old(CellOf(addr)) ==>
          workingRam[b, o] == old(workingRam[b, o])
      ensures WriteRegion(addr).HighRam? ==>
        forall o :: 0 <= o < 0x80 && o != WriteRegion(addr).offset ==> zeroPage[o] == old(zeroPage[o])
    {
      match WriteRegion(addr)
      case WorkRam(banked, o) =>
        WriteWorkRam(if banked then workingRamBank else 0, o, val);
      case Oam(o) =>
        if !oamDma.active {
          spriteTable[o] := val;
        }
      case Unusable =>
      case InterruptFlags =>
        interrupts.flags := val;
      case InterruptEnable =>
        interrupts.enable := val;
      case BiosDisable =>
        biosEnabled := false;
      case OamDmaRegister =>
        oamDma.WriteU8(val);
      case Compatibility =>
        compatibility := CompatibilityAfterWrite(val);
      case WorkRamBankRegister =>
        workingRamBank := WorkRamBankFor(val);
      case Io(o) =>
        io[o] := val;
      case HighRam(o) =>
        zeroPage[o] := val;
    }

    /** `write_u8`: bus-owned storage is written here; a write to another
      component's address is handed back for it. The compatibility byte is
      stored here and also handed on, to the picture unit and the speed
      switch. */
    method WriteU8(addr: Addr, val: u8) returns (f: Forward)
      requires Valid()
      modifies this, workingRam, io, zeroPage, spriteTable, interrupts, oamDma
      ensures Valid()
      ensures DeviceRegion(WriteRegion(addr)) || WriteRegion(addr).Compatibility? ==>
        f == ToDevice(WriteRegion(addr), addr, val)
      ensures !DeviceRegion(WriteRegion(addr)) && !WriteRegion(addr).Compatibility? ==> f == Handled
      ensures DeviceRegion(WriteRegion(addr)) ==>
        unchanged(this) && unchanged(workingRam, io, zeroPage, spriteTable, interrupts, oamDma)
      ensures WriteRegion(addr).Compatibility? ==> compatibility == CompatibilityAfterWrite(val)
      ensures PlainRam(addr) ==> RamByte(addr) == val
      ensures PlainRam(addr) ==>
        forall a: Addr :: PlainRam(a) && CellOf(a) != CellOf(addr) ==> RamByte(a) == old(RamByte(a))
    {
      var region := WriteRegion(addr);
      if DeviceRegion(region) {
        return ToDevice(region, addr, val);
      }
      WriteOwned(addr, val);
      f := if region.Compatibility? then ToDevice(region, addr, val) else Handled;
    }

    /** `read_u16`: little-endian, the byte at `addr` low and the byte
      after it high; the address after 0xFFFF wraps to 0. */
    function ReadU16(addr: Addr, device: Addr -> u8): (r: u16)
      requires Valid()
      reads this, bios, workingRam, io, zeroPage, spriteTable, interrupts, oamDma
      ensures LowByte(r) == ReadU8(addr, device) && HighByte(r) == ReadU8(Wrap16(addr + 1), device)
      ensures PlainRam(addr) && PlainRam(addr + 1) ==> r == Join16(RamByte(addr), RamByte(addr + 1))
    {
      Join16(ReadU8(addr, device), ReadU8(Wrap16(addr + 1), device))
    }

    /** `write_u16`: the low byte to `addr`, then the high byte to the
      address after it. Over plain RAM the word reads back. */
    method WriteU16(addr: Addr, val: u16) returns (lo: Forward, hi: Forward)
      requires Valid()
      modifies this, workingRam, io, zeroPage, spriteTable, interrupts, oamDma
      ensures Valid()
      ensures PlainRam(addr) && PlainRam(addr + 1) ==>
        lo == Handled && hi == Handled && Join16(RamByte(addr), RamByte(addr + 1)) == val
      ensures PlainRam(addr) && PlainRam(addr + 1) ==>
        forall a: Addr :: PlainRam(a) && CellOf(a) != CellOf(addr) && CellOf(a) != CellOf(addr + 1) ==>
          RamByte(a) == old(RamByte(a))
    {
      lo := WriteU8(addr, LowByte(val));
      hi := WriteU8(Wrap16(addr + 1), HighByte(val));
      if PlainRam(addr) && PlainRam(addr + 1) {
        assert CellOf(addr) != CellOf(addr + 1);
        Join16Split(val);
      }
    }

    /** One cycle of `dma_tick`: on the fourth cycle of a running transfer
      the byte at the transfer base plus the index is read through the bus
      (with the transfer still running, so OAM itself reads 0xFF) and
      stored at that index of the sprite table; then the counters move
      on. */
    method DmaTick(device: Addr -> u8)
      requires Valid()
      modifies oamDma, spriteTable
      ensures Valid()
      ensures oamDma.ioReg == old(oamDma.ioReg)
      ensures oamDma.Counters() == Step(old(oamDma.Counters()))
      ensures CopiesByte(old(oamDma.Counters())) ==>
        spriteTable[old(oamDma.transferIndex)]
          == old(ReadU8(oamDma.transferBaseAddr + oamDma.transferIndex, device))
        && forall i :: 0 <= i < 0xA0 && i != old(oamDma.transferIndex) ==> spriteTable[i] == old(spriteTable[i])
      ensures !CopiesByte(old(oamDma.Counters())) ==> unchanged(spriteTable)
    {
      var s := oamDma.Counters();
      if CopiesByte(s) {
        var v := ReadU8(s.base + s.index, device);
        spriteTable[s.index] := v;
      }
      oamDma.SetCounters(Step(s));
    }
  }
}

/** The MBC1 bank controller: a 5-bit low ROM bank register, a 2-bit
    register shared between the upper ROM bank bits and the RAM bank, a
    banking mode, and a RAM enable latch. */
module CartMbc1 {
  import opened Bits
  import opened CartridgeBanks

  datatype BankingMode = Mode0 | Mode1

  /** `rom_bank_mask_lo`, chosen from `num_rom_banks - 1` (a count of 0
      wraps around to the widest mask). */
  function RomBankMaskLo(numRomBanks: nat): (m: u8)
    ensures m == 0x01 || m == 0x03 || m == 0x07 || m == 0x0F || m == 0x1F
    ensures StandardBankCount(numRomBanks) && numRomBanks <= 32 ==> m as int == numRomBanks - 1
  {
    if 1 <= numRomBanks <= 2 then 0x01
    else if 3 <= numRomBanks <= 4 then 0x03
    else if 5 <= numRomBanks <= 8 then 0x07
    else if 9 <= numRomBanks <= 16 then 0x0F
    else 0x1F
  }

  /** `rom_bank_mask_hi`, chosen from `num_rom_banks - 1`. */
  function RomBankMaskHi(numRomBanks: nat): (m: u8)
    ensures m == 0x00 || m == 0x20 || m == 0x60
    ensures StandardBankCount(numRomBanks) && 32 <= numRomBanks <= 128 ==> (m | 0x1F) as int == numRomBanks - 1
  {
    if 1 <= numRomBanks <= 0x20 then 0x00
    else if 0x21 <= numRomBanks <= 0x40 then 0x20
    else 0x60
  }

  /** A bank number whose bits all lie inside the two masks is a bank the
      cartridge has, whenever its bank count is one the header can state
      with a plain power-of-two code. */
  lemma MaskedBankInRange(numRomBanks: nat, b: u8)
    requires StandardBankCount(numRomBanks)
    requires b & !(RomBankMaskLo(numRomBanks) | RomBankMaskHi(numRomBanks)) == 0
    ensures (b as int) < numRomBanks
  {
    var m := RomBankMaskLo(numRomBanks) | RomBankMaskHi(numRomBanks);
    assert b <= m;
    assert (m as int) < numRomBanks;
  }

  /** The registers of the controller, as values. */
  datatype Mbc1Regs = Mbc1Regs(
    isRamEnabled: bool,
    romLoReg: u8,
    romHiReg: u8,
    currentZeroBank: u8,
    currentRomBank: u8,
    currentRamBank: u8,
    mode: BankingMode)

  /** `write_rom` at 0x0000-0x1FFF. */
  function RamEnableWrite(r: Mbc1Regs, value: u8): (n: Mbc1Regs)
    ensures n.isRamEnabled <==> value & 0x0F == 0x0A
    ensures n.(isRamEnabled := r.isRamEnabled) == r
  {
    r.(isRamEnabled := value & 0x0F == 0x0A)
  }

  /** The ROM bank after a write to 0x2000-0x3FFF: bits 5-6 stay and the
      low five bits come from the value, 0 counting as 1, cut to the mask. */
  function SelectLow(cur: u8, value: u8, maskLo: u8): (b: u8)
    ensures maskLo <= 0x1F ==> b & !0x1F == cur & 0x60 && b & 0x1F <= maskLo
    ensures maskLo & 1 == 1 && value & 0x1F == 0 ==> b & 0x1F == 1
  {
    (cur & 0x60) | ((if value & 0x1F == 0 then 1 else value) & maskLo)
  }

  /** The ROM bank a write to 0x4000-0x5FFF selects: the low five bits
      stay and bits 5-6 come from the value, cut to the mask. */
  function SelectHigh(cur: u8, value: u8, maskHi: u8): (b: u8)
    ensures maskHi & 0x1F == 0 ==> b & 0x1F == cur & 0x1F && b & !0x1F <= maskHi
  {
    (cur & 0x1F) | ((value << 5) & maskHi)
  }

  /** `write_rom` at 0x2000-0x3FFF. */
  function RomBankLoWrite(r: Mbc1Regs, maskLo: u8, value: u8): (n: Mbc1Regs)
    ensures n.romLoReg <= 0x1F && n.currentRomBank == SelectLow(r.currentRomBank, value, maskLo)
    ensures n.(romLoReg := r.romLoReg, currentRomBank := r.currentRomBank) == r
  {
    r.(romLoReg := value & 0x1F, currentRomBank := SelectLow(r.currentRomBank, value, maskLo))
  }

  /** `write_rom` at 0x4000-0x5FFF: in mode 1 a cartridge with four RAM
      banks takes the RAM bank, and a selection whose low bits are zero
      goes to the 0x0000 window instead of the switchable one. */
  function RomBankHiWrite(r: Mbc1Regs, maskHi: u8, numRamBanks: nat, value: u8): (n: Mbc1Regs)
    ensures n.isRamEnabled == r.isRamEnabled && n.romLoReg == r.romLoReg && n.mode == r.mode
    ensures n.romHiReg != r.romHiReg ==> n.romHiReg == value & 0x03
    ensures n.currentRamBank != r.currentRamBank ==> r.mode == Mode1 && numRamBanks == 4
    ensures n.currentZeroBank != r.currentZeroBank ==> r.mode == Mode1 && n.currentZeroBank & 0x1F == 0
  {
    var selected := SelectHigh(r.currentRomBank, value, maskHi);
    match r.mode
    case Mode0 =>
      r.(romHiReg := value & 0x03, currentRomBank := selected)
    case Mode1 =>
      if numRamBanks == 4 then r.(currentRamBank := value & 0x03)
      else if selected == 0x00 || selected == 0x20 || selected == 0x40 || selected == 0x60
      then r.(romHiReg := value & 0x03, currentZeroBank := selected)
      else r.(romHiReg := value & 0x03, currentRomBank := selected)
  }

  /** `write_rom` at 0x6000-0x7FFF. */
  function ModeWrite(r: Mbc1Regs, value: u8): (n: Mbc1Regs)
    ensures n.mode == Mode1 <==> value & 1 == 1
    ensures n.(mode := r.mode) == r
  {
    r.(mode := if value & 1 == 0 then Mode0 else Mode1)
  }

  /** The registers after a `write_rom` of `value` at `addr`, for a
      cartridge with the given masks and RAM bank count. */
  function AfterWriteRom(r: Mbc1Regs, maskLo: u8, maskHi: u8, numRamBanks: nat, addr: int, value: u8): (n: Mbc1Regs)
    ensures n.isRamEnabled != r.isRamEnabled ==> addr < 0x2000
    ensures n.romLoReg != r.romLoReg ==> 0x2000 <= addr < 0x4000
    ensures (n.romHiReg != r.romHiReg || n.currentRamBank != r.currentRamBank
             || n.currentZeroBank != r.currentZeroBank) ==> 0x4000 <= addr < 0x6000
    ensures n.mode != r.mode ==> 0x6000 <= addr
  {
    if addr < 0x2000 then RamEnableWrite(r, value)
    else if addr < 0x4000 then RomBankLoWrite(r, maskLo, value)
    else if addr < 0x6000 then RomBankHiWrite(r, maskHi, numRamBanks, value)
    else ModeWrite(r, value)
  }

  /** The bits of `b` all lie inside the two bank masks. */
  predicate InMasks(b: u8, maskLo: u8, maskHi: u8)
  {
    b & !(maskLo | maskHi) == 0
  }

  lemma LowBitsWriteInMasks(cur: u8, value: u8, maskLo: u8, maskHi: u8)
    requires maskLo & !0x1F == 0 && maskHi & !0x60 == 0 && InMasks(cur, maskLo, maskHi)
    ensures InMasks(SelectLow(cur, value, maskLo), maskLo, maskHi)
  {
  }

  lemma HighBitsWriteInMasks(cur: u8, value: u8, maskLo: u8, maskHi: u8)
    requires maskLo & !0x1F == 0 && maskHi & !0x60 == 0 && InMasks(cur, maskLo, maskHi)
    ensures InMasks(SelectHigh(cur, value, maskHi), maskLo, maskHi)
  {
  }

  lemma HighBitsWriteKeepsBanks(r: Mbc1Regs, maskLo: u8, maskHi: u8, numRamBanks: nat, value: u8)
    requires maskLo & !0x1F == 0 && maskHi & !0x60 == 0
    requires InMasks(r.currentRomBank, maskLo, maskHi)
    ensures InMasks(RomBankHiWrite(r, maskHi, numRamBanks, value).currentRomBank, maskLo, maskHi)
  {
    var selected := SelectHigh(r.currentRomBank, value, maskHi);
    HighBitsWriteInMasks(r.currentRomBank, value, maskLo, maskHi);
    match r.mode
    case Mode0 =>
    case Mode1 =>
      if numRamBanks != 4 && !(selected == 0x00 || selected == 0x20 || selected == 0x40 || selected == 0x60) {
        assert RomBankHiWrite(r, maskHi, numRamBanks, value).currentRomBank == selected;
      }
  }

  /** No `write_rom` moves the selected ROM bank outside the masks, and the
      RAM bank stays below four. */
  lemma WriteKeepsBankInMasks(r: Mbc1Regs, maskLo: u8, maskHi: u8, numRamBanks: nat, addr: int, value: u8)
    requires maskLo & !0x1F == 0 && maskHi & !0x60 == 0
    requires InMasks(r.currentRomBank, maskLo, maskHi) && r.currentRamBank <= 3
    ensures InMasks(AfterWriteRom(r, maskLo, maskHi, numRamBanks, addr, value).currentRomBank, maskLo, maskHi)
    ensures AfterWriteRom(r, maskLo, maskHi, numRamBanks, addr, value).currentRamBank <= 3
  {
    if 0x2000 <= addr < 0x4000 {
      LowBitsWriteInMasks(r.currentRomBank, value, maskLo, maskHi);
    } else if 0x4000 <= addr < 0x6000 {
      HighBitsWriteKeepsBanks(r, maskLo, maskHi, numRamBanks, value);
    }
  }

  /** Writing a low bank number of 0 selects bank 1, and with the widest
      low mask the low five bits of the switchable bank are never zero. */
  lemma LowBankZeroSelectsOne(cur: u8, value: u8, maskLo: u8)
    requires maskLo & 1 == 1 && maskLo & !0x1F == 0
    ensures value & 0x1F == 0 ==> SelectLow(cur, value, maskLo) & 0x1F == 1
    ensures maskLo == 0x1F ==> SelectLow(cur, value, maskLo) & 0x1F != 0
    ensures SelectLow(cur, value, maskLo) & 0x60 == cur & 0x60
  {
  }

  /** In mode 1 a cartridge with four RAM banks spends 0x4000-0x5FFF on the
      RAM bank alone: no ROM bank register changes. */
  lemma FourRamBanksKeepRomBanks(r: Mbc1Regs, maskLo: u8, maskHi: u8, addr: int, value: u8)
    requires r.mode == Mode1 && 0x4000 <= addr < 0x6000
    ensures var next := AfterWriteRom(r, maskLo, maskHi, 4, addr, value);
      next.currentRomBank == r.currentRomBank && next.currentZeroBank == r.currentZeroBank
      && next.romHiReg == r.romHiReg && next.currentRamBank == value & 0x03
  {
  }

  class Mbc1 {
    var isRamEnabled: bool
    var romLoReg: u8
    var romHiReg: u8
    var currentZeroBank: u8
    var currentRomBank: u8
    var currentRamBank: u8
    var mode: BankingMode
    var romBankMaskLo: u8
    var romBankMaskHi: u8
    var romBanks: seq<seq<u8>>
    var ramBanks: seq<seq<u8>>

    function Regs(): Mbc1Regs
      reads this
    {
      Mbc1Regs(isRamEnabled, romLoReg, romHiReg, currentZeroBank, currentRomBank, currentRamBank, mode)
    }

    /** The banks have their sizes, the masks are those of the bank count,
        and the selected ROM bank only has bits inside the masks. */
    predicate Valid()
      reads this
    {
      Sized(romBanks, RomBankSize) && Sized(ramBanks, RamBankSize)
      && romBankMaskLo == RomBankMaskLo(|romBanks|) && romBankMaskHi == RomBankMaskHi(|romBanks|)
      && InMasks(currentRomBank, romBankMaskLo, romBankMaskHi)
      && currentRamBank <= 3
    }

    /** The controller after power-on, over already split banks. */
    constructor (romBanks: seq<seq<u8>>, ramBanks: seq<seq<u8>>)
      requires Sized(romBanks, RomBankSize) && Sized(ramBanks, RamBankSize)
      ensures Valid()
      ensures Regs() == Mbc1Regs(false, 0, 0, 0, 1, 0, Mode0)
      ensures this.romBanks == romBanks && this.ramBanks == ramBanks
    {
      isRamEnabled := false;
      romLoReg := 0;
      romHiReg := 0;
      currentZeroBank := 0;
      currentRomBank := 1;
      currentRamBank := 0;
      mode := Mode0;
      romBankMaskLo := RomBankMaskLo(|romBanks|);
      romBankMaskHi := RomBankMaskHi(|romBanks|);
      this.romBanks := romBanks;
      this.ramBanks := ramBanks;
    }

    /** `get_mapped_0_bank`: the bank seen at 0x0000-0x3FFF. */
    function MappedZeroBank(): (b: u8)
      reads this
      ensures mode == Mode0 ==> b == 0
      ensures b & !romBankMaskHi == 0
    {
      match mode
      case Mode0 => 0
      case Mode1 => (romHiReg << 5) & romBankMaskHi
    }

    /** `get_mapped_ram_bank`. */
    function MappedRamBank(): (b: u8)
      reads this
      ensures mode == Mode0 ==> b == 0
      ensures mode == Mode1 ==> b == currentRamBank
    {
      match mode
      case Mode0 => 0
      case Mode1 => currentRamBank
    }

    /** `read_rom`: a bank the cartridge does not have makes the source
        index out of bounds. */
    function ReadRom(addr: int): (r: Result<u8>)
      requires Valid() && 0 <= addr < 0x8000
      reads this
      ensures addr < 0x4000 ==>
        r == if (MappedZeroBank() as int) < |romBanks| then Ok(romBanks[MappedZeroBank()][addr]) else Panic
      ensures addr >= 0x4000 ==>
        r == if (currentRomBank as int) < |romBanks| then Ok(romBanks[currentRomBank][addr - 0x4000]) else Panic
    {
      var bank := if addr < 0x4000 then MappedZeroBank() else currentRomBank;
      var offset := if addr < 0x4000 then addr else addr - 0x4000;
      if (bank as int) < |romBanks| then Ok(romBanks[bank][offset]) else Panic
    }

    /** `write_rom`: the register range the address falls in takes the
        value, as `AfterWriteRom` says; the banks and masks stay. */
    method WriteRom(addr: int, value: u8)
      requires Valid() && 0 <= addr < 0x8000
      modifies this
      ensures Valid()
      ensures unchanged(this`romBankMaskLo, this`romBankMaskHi, this`romBanks, this`ramBanks)
      ensures Regs() == AfterWriteRom(old(Regs()), old(romBankMaskLo), old(romBankMaskHi), old(|ramBanks|), addr, value)
    {
      var next := AfterWriteRom(Regs(), romBankMaskLo, romBankMaskHi, |ramBanks|, addr, value);
      WriteKeepsBankInMasks(Regs(), romBankMaskLo, romBankMaskHi, |ramBanks|, addr, value);
      SetRegs(next);
    }

    /** Stores a full set of register values. */
    method SetRegs(next: Mbc1Regs)
      requires Valid() && InMasks(next.currentRomBank, romBankMaskLo, romBankMaskHi) && next.currentRamBank <= 3
      modifies this
      ensures Valid() && Regs() == next
      ensures unchanged(this`romBankMaskLo, this`romBankMaskHi, this`romBanks, this`ramBanks)
    {
      isRamEnabled := next.isRamEnabled;
      romLoReg := next.romLoReg;
      romHiReg := next.romHiReg;
      currentZeroBank := next.currentZeroBank;
      currentRomBank := next.currentRomBank;
      currentRamBank := next.currentRamBank;
      mode := next.mode;
    }

    /** `read_ram`: 0xFF while RAM is disabled; a cartridge without RAM
        banks makes the source index out of bounds. */
    function ReadRam(addr: int): (r: Result<u8>)
      requires Valid() && 0 <= addr < 0x2000
      reads this
      ensures !isRamEnabled ==> r == Ok(0xFF)
      ensures isRamEnabled ==>
        r == if (MappedRamBank() as int) < |ramBanks| then Ok(ramBanks[MappedRamBank()][addr]) else Panic
    {
      if !isRamEnabled then Ok(0xFF)
      else
        var bank := MappedRamBank() as int;
        if bank < |ramBanks| then Ok(ramBanks[bank][addr]) else Panic
    }

    /** `write_ram`: dropped while RAM is disabled; otherwise one byte of
        the mapped bank changes. */
    method WriteRam(addr: int, value: u8) returns (r: Result<()>)
      requires Valid() && 0 <= addr < 0x2000
      modifies this
      ensures Valid() && Regs() == old(Regs()) && romBanks == old(romBanks)
      ensures !isRamEnabled ==> r == Ok(()) && ramBanks == old(ramBanks)
      ensures isRamEnabled && (MappedRamBank() as int) < |old(ramBanks)| ==>
        r == Ok(()) && ramBanks == old(ramBanks)[MappedRamBank() := old(ramBanks)[MappedRamBank()][addr := value]]
      ensures isRamEnabled && (MappedRamBank() as int) >= |old(ramBanks)| ==> r == Panic && ramBanks == old(ramBanks)
      ensures r.Ok? && isRamEnabled ==> ReadRam(addr) == Ok(value)
      ensures forall a :: 0 <= a < 0x2000 && a != addr ==> ReadRam(a) == old(ReadRam(a))
    {
      if !isRamEnabled {
        return Ok(());
      }
      var bank := MappedRamBank() as int;
      if bank >= |ramBanks| {
        return Panic;
      }
      ramBanks := StoreByte(ramBanks, RamBankSize, bank, addr, value);
      r := Ok(());
    }

    /** `has_ram`. */
    function HasRam(): (b: bool)
      reads this
      ensures b <==> |ramBanks| > 0
    {
      |ramBanks| != 0
    }
  }

  /** For a bank count the header states with codes 0x00-0x09, reading the
      ROM never selects a bank the cartridge lacks. */
  lemma ReadRomNeverFailsForStandardSizes(m: Mbc1, addr: int)
    requires m.Valid() && 0 <= addr < 0x8000 && StandardBankCount(|m.romBanks|)
    ensures m.ReadRom(addr).Ok?
  {
    var n := |m.romBanks|;
    var zero := m.MappedZeroBank();
    HiMaskInMasks(zero, m.romBankMaskLo, m.romBankMaskHi);
    MaskedBankInRange(n, m.currentRomBank);
    MaskedBankInRange(n, zero);
  }

  /** Bits inside the high mask are inside both masks. */
  lemma HiMaskInMasks(b: u8, maskLo: u8, maskHi: u8)
    requires b & !maskHi == 0
    ensures InMasks(b, maskLo, maskHi)
  {
  }

  /** With RAM disabled, RAM reads give 0xFF and RAM writes change nothing. */
  lemma DisabledRamIsInert(m: Mbc1, addr: int)
    requires m.Valid() && 0 <= addr < 0x2000 && !m.isRamEnabled
    ensures m.ReadRam(addr) == Ok(0xFF)
  {
  }

  /** `Mbc1::new`: the masks come from the bank count and the images are
      split by `init_rom_and_ram`, whose failed checks panic. */
  method New(rom: seq<u8>, ram: Option<seq<u8>>, numRomBanks: nat, numRamBanks: nat)
    returns (r: Result<Mbc1>)
    ensures r.Ok? <==> InitRomAndRam(rom, ram, numRomBanks, numRamBanks).Ok?
    ensures r.Ok? ==> fresh(r.value) && r.value.Valid()
    ensures r.Ok? ==> r.value.Regs() == Mbc1Regs(false, 0, 0, 0, 1, 0, Mode0)
    ensures r.Ok? ==> (r.value.romBanks, r.value.ramBanks) == InitRomAndRam(rom, ram, numRomBanks, numRamBanks).value
  {
    var banks := InitRomAndRam(rom, ram, numRomBanks, numRamBanks);
    if banks.Panic? {
      return Panic;
    }
    var m := new Mbc1(banks.value.0, banks.value.1);
    r := Ok(m);
  }
}

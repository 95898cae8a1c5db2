/** The MBC2 bank controller: a 4-bit ROM bank register and a RAM enable
    latch, both written through 0x0000-0x3FFF and told apart by address bit
    8, and 512 half-bytes of built-in RAM. */
module CartMbc2 {
  import opened Bits
  import opened CartridgeBanks

  /** Address bit 8 of a ROM write chooses the ROM bank register. */
  predicate AddrBit8(addr: int)
  {
    (addr / 0x100) % 2 == 1
  }

  /** The offset into the RAM bank: only the low nine address bits count. */
  function RamOffset(addr: int): (o: int)
    requires 0 <= addr
    ensures 0 <= o < 0x200
    ensures addr < 0x200 ==> o == addr
  {
    addr % 0x200
  }

  /** The ROM bank a write with address bit 8 set selects: the low nibble,
      0 counting as 1, cut to the mask. */
  function SelectRomBank(value: u8, mask: u8): (b: u8)
    ensures b & !mask == 0 && b <= 0x0F
    ensures mask & 1 == 1 && value & 0x0F == 0 ==> b == 1
  {
    var v := value & 0x0F;
    var v := if v == 0 then 1 else v;
    v & mask
  }

  class Mbc2 {
    var isRamEnabled: bool
    var currentRomBank: u8
    var romBankMask: u8
    var romBanks: seq<seq<u8>>
    var ramBanks: seq<seq<u8>>

    /** The banks have their sizes, there is at least one RAM bank, and the
        selected ROM bank lies inside the mask. */
    predicate Valid()
      reads this
    {
      Sized(romBanks, RomBankSize) && Sized(ramBanks, RamBankSize) && |ramBanks| >= 1
      && romBankMask == RomBankMask(|romBanks|) & 0x0F
      && currentRomBank & !romBankMask == 0
    }

    /** The controller after power-on, over already split banks; a
        cartridge whose header states no RAM still gets one bank. */
    constructor (romBanks: seq<seq<u8>>, ramBanks: seq<seq<u8>>)
      requires Sized(romBanks, RomBankSize) && Sized(ramBanks, RamBankSize)
      ensures Valid()
      ensures !isRamEnabled && currentRomBank == 1
      ensures this.romBanks == romBanks
      ensures this.ramBanks == if |ramBanks| == 0 then ZeroedBanks(1) else ramBanks
    {
      isRamEnabled := false;
      currentRomBank := 1;
      romBankMask := RomBankMask(|romBanks|) & 0x0F;
      this.romBanks := romBanks;
      this.ramBanks := if |ramBanks| == 0 then ZeroedBanks(1) else ramBanks;
    }

    /** `read_rom`: bank 0 at 0x0000-0x3FFF, the selected bank above; a
        bank the cartridge lacks makes the source index out of bounds. */
    function ReadRom(addr: int): (r: Result<u8>)
      requires Valid() && 0 <= addr < 0x8000
      reads this
      ensures addr < 0x4000 ==> r == if |romBanks| > 0 then Ok(romBanks[0][addr]) else Panic
      ensures addr >= 0x4000 ==>
        r == if (currentRomBank as int) < |romBanks| then Ok(romBanks[currentRomBank][addr - 0x4000]) else Panic
    {
      var bank := if addr < 0x4000 then 0 else currentRomBank as int;
      var offset := if addr < 0x4000 then addr else addr - 0x4000;
      if bank < |romBanks| then Ok(romBanks[bank][offset]) else Panic
    }

    /** `write_rom`: below 0x4000 address bit 8 chooses between the ROM
        bank register and the RAM enable latch; 0x4000-0x7FFF ignores the
        write. */
    method WriteRom(addr: int, value: u8)
      requires Valid() && 0 <= addr < 0x8000
      modifies this
      ensures Valid()
      ensures unchanged(this`romBankMask, this`romBanks, this`ramBanks)
      ensures addr < 0x4000 && AddrBit8(addr) ==>
        currentRomBank == SelectRomBank(value, romBankMask) && isRamEnabled == old(isRamEnabled)
      ensures addr < 0x4000 && !AddrBit8(addr) ==>
        isRamEnabled == (value & 0x0F == 0x0A) && currentRomBank == old(currentRomBank)
      ensures addr >= 0x4000 ==> unchanged(this)
    {
      if addr < 0x4000 {
        if AddrBit8(addr) {
          currentRomBank := SelectRomBank(value, romBankMask);
        } else {
          isRamEnabled := value & 0x0F == 0x0A;
        }
      }
    }

    /** `read_ram`: 0xFF while disabled; otherwise the half-byte at the low
        nine address bits of bank 0, upper nibble read as ones. */
    function ReadRam(addr: int): (r: u8)
      requires Valid() && 0 <= addr < 0x2000
      reads this
      ensures r & 0xF0 == 0xF0
      ensures !isRamEnabled ==> r == 0xFF
      ensures isRamEnabled ==> r & 0x0F == ramBanks[0][RamOffset(addr)] & 0x0F
    {
      if !isRamEnabled then 0xFF
      else ramBanks[0][RamOffset(addr)] | 0xF0
    }

    /** `write_ram`: dropped while disabled; otherwise stores the byte at
        the low nine address bits of bank 0. */
    method WriteRam(addr: int, value: u8)
      requires Valid() && 0 <= addr < 0x2000
      modifies this
      ensures Valid()
      ensures unchanged(this`isRamEnabled, this`currentRomBank, this`romBankMask, this`romBanks)
      ensures !isRamEnabled ==> ramBanks == old(ramBanks)
      ensures isRamEnabled ==>
        ramBanks == old(ramBanks)[0 := old(ramBanks)[0][RamOffset(addr) := value]]
      ensures isRamEnabled ==> ReadRam(addr) == value | 0xF0
      ensures forall a :: 0 <= a < 0x2000 && RamOffset(a) != RamOffset(addr) ==> ReadRam(a) == old(ReadRam(a))
    {
      if !isRamEnabled {
        return;
      }
      var offset := RamOffset(addr);
      ramBanks := ramBanks[0 := ramBanks[0][offset := value]];
    }

    /** `has_ram`: always, since there is at least one RAM bank. */
    function HasRam(): (b: bool)
      requires Valid()
      reads this
      ensures b
    {
      |ramBanks| != 0
    }
  }

  /** The 512 RAM cells repeat across the whole RAM window. */
  lemma RamMirrorsEvery512Bytes(m: Mbc2, addr: int)
    requires m.Valid() && 0 <= addr && addr + 0x200 < 0x2000
    ensures m.ReadRam(addr) == m.ReadRam(addr + 0x200)
  {
    assert RamOffset(addr + 0x200) == RamOffset(addr);
  }

  /** For a bank count the header states with codes 0x00-0x09, reading the
      ROM never selects a bank the cartridge lacks. */
  lemma ReadRomNeverFailsForStandardSizes(m: Mbc2, addr: int)
    requires m.Valid() && 0 <= addr < 0x8000 && StandardBankCount(|m.romBanks|)
    ensures m.ReadRom(addr).Ok?
  {
    MaskedBankExists(|m.romBanks|, 0x0F, m.currentRomBank);
  }

  /** `Mbc2::new`: the images are split by `init_rom_and_ram`, whose failed
      checks panic, and a missing RAM bank is added zeroed. */
  method New(rom: seq<u8>, ram: Option<seq<u8>>, numRomBanks: nat, numRamBanks: nat)
    returns (r: Result<Mbc2>)
    ensures r.Ok? <==> InitRomAndRam(rom, ram, numRomBanks, numRamBanks).Ok?
    ensures r.Ok? ==> fresh(r.value) && r.value.Valid()
    ensures r.Ok? ==> !r.value.isRamEnabled && r.value.currentRomBank == 1
    ensures r.Ok? ==> r.value.romBanks == InitRomAndRam(rom, ram, numRomBanks, numRamBanks).value.0
    ensures r.Ok? ==> |r.value.ramBanks| == if numRamBanks == 0 then 1 else numRamBanks
  {
    var banks := InitRomAndRam(rom, ram, numRomBanks, numRamBanks);
    if banks.Panic? {
      return Panic;
    }
    var m := new Mbc2(banks.value.0, banks.value.1);
    r := Ok(m);
  }
}

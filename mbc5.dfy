/** The MBC5 bank controller: a 9-bit ROM bank register written as a low
    byte and a high bit, a 4-bit RAM bank register and a RAM enable latch. */
module CartMbc5 {
  import opened Bits
  import opened CartridgeBanks

  /** The ROM bank after a write to 0x2000-0x2FFF: bit 8 stays and the low
      byte becomes the value cut to the mask. */
  function WithLowByte(bank: int, value: u8, mask: u8): (b: int)
    requires 0 <= bank < 0x200
    ensures 0 <= b < 0x200
    ensures b / 0x100 == bank / 0x100 && b % 0x100 == (value & mask) as int
    ensures b % 0x100 <= mask as int
  {
    (bank / 0x100) * 0x100 + (value & mask) as int
  }

  /** The ROM bank after a write to 0x3000-0x3FFF: the low byte stays and
      bit 8 becomes bit 0 of the value. */
  function WithHighBit(bank: int, value: u8): (b: int)
    requires 0 <= bank < 0x200
    ensures 0 <= b < 0x200
    ensures b % 0x100 == bank % 0x100 && b / 0x100 == (value & 1) as int
  {
    bank % 0x100 + (if value & 1 == 1 then 0x100 else 0)
  }

  class Mbc5 {
    var isRamEnabled: bool
    var romBankMask: u8
    var currentRomBank: int
    var currentRamBank: u8
    var romBanks: seq<seq<u8>>
    var ramBanks: seq<seq<u8>>

    /** The banks have their sizes, the ROM bank has nine bits whose low
        byte lies inside the mask, and the RAM bank has four bits. */
    predicate Valid()
      reads this
    {
      Sized(romBanks, RomBankSize) && Sized(ramBanks, RamBankSize)
      && romBankMask == RomBankMask(|romBanks|)
      && 0 <= currentRomBank < 0x200 && currentRomBank % 0x100 <= romBankMask as int
      && currentRamBank <= 0x0F
    }

    /** The controller after power-on, over already split banks. */
    constructor (romBanks: seq<seq<u8>>, ramBanks: seq<seq<u8>>)
      requires Sized(romBanks, RomBankSize) && Sized(ramBanks, RamBankSize)
      ensures Valid()
      ensures !isRamEnabled && currentRomBank == 1 && currentRamBank == 0
      ensures this.romBanks == romBanks && this.ramBanks == ramBanks
    {
      isRamEnabled := false;
      romBankMask := RomBankMask(|romBanks|);
      currentRomBank := 1;
      currentRamBank := 0;
      this.romBanks := romBanks;
      this.ramBanks := ramBanks;
    }

    /** `read_rom`: bank 0 at 0x0000-0x3FFF, the selected bank above; a
        bank the cartridge lacks makes the source index out of bounds. */
    function ReadRom(addr: int): (r: Result<u8>)
      requires Valid() && 0 <= addr < 0x8000
      reads this
      ensures addr < 0x4000 ==> r == if |romBanks| > 0 then Ok(romBanks[0][addr]) else Panic
      ensures addr >= 0x4000 ==>
        r == if currentRomBank < |romBanks| then Ok(romBanks[currentRomBank][addr - 0x4000]) else Panic
    {
      var bank := if addr < 0x4000 then 0 else currentRomBank;
      var offset := if addr < 0x4000 then addr else addr - 0x4000;
      if bank < |romBanks| then Ok(romBanks[bank][offset]) else Panic
    }

    /** `write_rom`: RAM enable, the ROM bank's low byte, its bit 8, and the
        RAM bank (values above 0x0F ignored); 0x6000-0x7FFF ignores the
        write. */
    method WriteRom(addr: int, value: u8)
      requires Valid() && 0 <= addr < 0x8000
      modifies this
      ensures Valid()
      ensures unchanged(this`romBankMask, this`romBanks, this`ramBanks)
      ensures addr < 0x2000 ==>
        isRamEnabled == EnableAfter(old(isRamEnabled), value)
        && unchanged(this`currentRomBank, this`currentRamBank)
      ensures 0x2000 <= addr < 0x3000 ==>
        currentRomBank == WithLowByte(old(currentRomBank), value, romBankMask)
        && unchanged(this`isRamEnabled, this`currentRamBank)
      ensures 0x3000 <= addr < 0x4000 ==>
        currentRomBank == WithHighBit(old(currentRomBank), value)
        && unchanged(this`isRamEnabled, this`currentRamBank)
      ensures 0x4000 <= addr < 0x6000 ==>
        currentRamBank == (if value <= 0x0F then value else old(currentRamBank))
        && unchanged(this`isRamEnabled, this`currentRomBank)
      ensures 0x6000 <= addr ==> unchanged(this)
    {
      if addr < 0x2000 {
        isRamEnabled := EnableAfter(isRamEnabled, value);
      } else if addr < 0x3000 {
        currentRomBank := WithLowByte(currentRomBank, value, romBankMask);
      } else if addr < 0x4000 {
        currentRomBank := WithHighBit(currentRomBank, value);
      } else if addr < 0x6000 {
        if value <= 0x0F {
          currentRamBank := value;
        }
      }
    }

    /** `read_ram`: 0xFF while disabled; a bank the cartridge lacks makes
        the source index out of bounds. */
    function ReadRam(addr: int): (r: Result<u8>)
      requires Valid() && 0 <= addr < 0x2000
      reads this
      ensures !isRamEnabled ==> r == Ok(0xFF)
      ensures isRamEnabled ==>
        r == if (currentRamBank as int) < |ramBanks| then Ok(ramBanks[currentRamBank][addr]) else Panic
    {
      if !isRamEnabled then Ok(0xFF)
      else if (currentRamBank as int) < |ramBanks| then Ok(ramBanks[currentRamBank][addr])
      else Panic
    }

    /** `write_ram`: dropped while disabled; otherwise one byte of the
        selected RAM bank changes. */
    method WriteRam(addr: int, value: u8) returns (r: Result<()>)
      requires Valid() && 0 <= addr < 0x2000
      modifies this
      ensures Valid()
      ensures unchanged(this`isRamEnabled, this`romBankMask, this`currentRomBank, this`currentRamBank, this`romBanks)
      ensures !isRamEnabled ==> r == Ok(()) && ramBanks == old(ramBanks)
      ensures isRamEnabled && (currentRamBank as int) < |old(ramBanks)| ==>
        r == Ok(()) && ramBanks == old(ramBanks)[currentRamBank := old(ramBanks)[currentRamBank][addr := value]]
      ensures isRamEnabled && (currentRamBank as int) >= |old(ramBanks)| ==> r == Panic && ramBanks == old(ramBanks)
      ensures r.Ok? && isRamEnabled ==> ReadRam(addr) == Ok(value)
      ensures forall a :: 0 <= a < 0x2000 && a != addr ==> ReadRam(a) == old(ReadRam(a))
    {
      if !isRamEnabled {
        return Ok(());
      }
      var bank := currentRamBank as int;
      if bank >= |ramBanks| {
        return Panic;
      }
      ramBanks := StoreByte(ramBanks, RamBankSize, bank, addr, value);
      r := Ok(());
    }

    /** `has_ram`. */
    function HasRam(): (b: bool)
      reads this
      ensures b <==> |ramBanks| > 0
    {
      |ramBanks| != 0
    }
  }

  /** Writing the low byte and then bit 8 selects the bank they spell out,
      whatever was selected before, when the low byte fits the mask. */
  lemma LowThenHighSelectsBank(bank: int, lo: u8, hi: u8, mask: u8)
    requires 0 <= bank < 0x200 && lo & !mask == 0
    ensures WithHighBit(WithLowByte(bank, lo, mask), hi) == (hi & 1) as int * 0x100 + lo as int
  {
    assert lo & mask == lo;
  }

  /** A standard-size cartridge never selects a missing ROM bank while bit 8
      is clear; with 512 or more banks bit 8 is safe as well. Bit 8 is not
      masked, so on a cartridge of 256 banks or fewer it does select a
      missing bank. */
  lemma ReadRomFailsOnlyThroughBit8(m: Mbc5, addr: int)
    requires m.Valid() && 0 <= addr < 0x8000 && StandardBankCount(|m.romBanks|)
    ensures m.currentRomBank < 0x100 || |m.romBanks| >= 0x200 ==> m.ReadRom(addr).Ok?
    ensures addr >= 0x4000 && m.currentRomBank >= 0x100 && |m.romBanks| <= 0x100 ==> m.ReadRom(addr) == Panic
  {
  }

  /** `Mbc5::new`: the images are split by `init_rom_and_ram`, whose failed
      checks panic. */
  method New(rom: seq<u8>, ram: Option<seq<u8>>, numRomBanks: nat, numRamBanks: nat)
    returns (r: Result<Mbc5>)
    ensures r.Ok? <==> InitRomAndRam(rom, ram, numRomBanks, numRamBanks).Ok?
    ensures r.Ok? ==> fresh(r.value) && r.value.Valid()
    ensures r.Ok? ==> !r.value.isRamEnabled && r.value.currentRomBank == 1 && r.value.currentRamBank == 0
    ensures r.Ok? ==> (r.value.romBanks, r.value.ramBanks) == InitRomAndRam(rom, ram, numRomBanks, numRamBanks).value
  {
    var banks := InitRomAndRam(rom, ram, numRomBanks, numRamBanks);
    if banks.Panic? {
      return Panic;
    }
    var m := new Mbc5(banks.value.0, banks.value.1);
    r := Ok(m);
  }
}

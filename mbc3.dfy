/** The MBC3 bank controller: a 7-bit-and-wider ROM bank register, a RAM
    bank or real-time-clock register select, a RAM/RTC enable latch, and
    the RTC latch sequence. */
module CartMbc3 {
  import opened Bits
  import opened CartridgeBanks

  /** The ROM bank a write to 0x2000-0x3FFF selects: the value, 0 counting
      as 1, cut to the mask. */
  function SelectRomBank(value: u8, mask: u8): (b: u8)
    ensures b & !mask == 0
    ensures mask & 1 == 1 && value == 0 ==> b == 1
    ensures value != 0 ==> b == value & mask
  {
    (if value == 0 then 1 else value) & mask
  }

  /** The seconds, minutes and hours of a clock reading, as the latch
      stores them. */
  function ClockFields(now: nat): (f: seq<u8>)
    ensures |f| == 3 && f[0] < 60 && f[1] < 60 && f[2] < 24
  {
    [(now % 60) as u8, ((now / 60) % 60) as u8, ((now / 3600) % 24) as u8]
  }

  class Mbc3 {
    var isRamRtcEnabled: bool
    var currentRomBank: u8
    var currentRamBank: u8
    var romBankMask: u8
    var romBanks: seq<seq<u8>>
    var ramBanks: seq<seq<u8>>
    var rtcRegs: seq<u8>
    var rtcBanked: bool
    var prevLatchVal: u8

    /** The banks have their sizes, there are five RTC registers, the
        selected ROM bank lies inside the mask and the RAM bank is at most 3. */
    predicate Valid()
      reads this
    {
      Sized(romBanks, RomBankSize) && Sized(ramBanks, RamBankSize)
      && |rtcRegs| == 5
      && romBankMask == RomBankMask(|romBanks|)
      && currentRomBank & !romBankMask == 0
      && currentRamBank <= 3
    }

    /** The controller after power-on, over already split banks. */
    constructor (romBanks: seq<seq<u8>>, ramBanks: seq<seq<u8>>)
      requires Sized(romBanks, RomBankSize) && Sized(ramBanks, RamBankSize)
      ensures Valid()
      ensures !isRamRtcEnabled && currentRomBank == 1 && currentRamBank == 0
      ensures rtcRegs == [0, 0, 0, 0, 0] && !rtcBanked && prevLatchVal == 204
      ensures this.romBanks == romBanks && this.ramBanks == ramBanks
    {
      isRamRtcEnabled := false;
      currentRomBank := 1;
      currentRamBank := 0;
      romBankMask := RomBankMask(|romBanks|);
      this.romBanks := romBanks;
      this.ramBanks := ramBanks;
      rtcRegs := [0, 0, 0, 0, 0];
      rtcBanked := false;
      prevLatchVal := 204;
    }

    /** `read_rom`: bank 0 at 0x0000-0x3FFF, the selected bank above; a
        bank the cartridge lacks makes the source index out of bounds. */
    function ReadRom(addr: int): (r: Result<u8>)
      requires Valid() && 0 <= addr < 0x8000
      reads this
      ensures addr < 0x4000 ==> r == if |romBanks| > 0 then Ok(romBanks[0][addr]) else Panic
      ensures addr >= 0x4000 ==>
        r == if (currentRomBank as int) < |romBanks| then Ok(romBanks[currentRomBank][addr - 0x4000]) else Panic
    {
      var bank := if addr < 0x4000 then 0 else currentRomBank as int;
      var offset := if addr < 0x4000 then addr else addr - 0x4000;
      if bank < |romBanks| then Ok(romBanks[bank][offset]) else Panic
    }

    /** `write_rom` at 0x4000-0x5FFF: 0-3 select a RAM bank and unmap the
        clock, 0x08-0x0C map a clock register, anything else is ignored. */
    method SelectRamOrRtc(value: u8)
      requires Valid()
      modifies this
      ensures Valid()
      ensures value <= 0x03 ==> currentRamBank == value && !rtcBanked
      ensures 0x08 <= value <= 0x0C ==> currentRamBank == old(currentRamBank) && rtcBanked
      ensures (0x03 < value < 0x08 || 0x0C < value) ==>
        currentRamBank == old(currentRamBank) && rtcBanked == old(rtcBanked)
      ensures unchanged(this`isRamRtcEnabled, this`currentRomBank, this`romBankMask, this`romBanks,
                        this`ramBanks, this`rtcRegs, this`prevLatchVal)
    {
      if value <= 0x03 {
        currentRamBank := value;
        rtcBanked := false;
      } else if 0x08 <= value <= 0x0C {
        rtcBanked := true;
      }
    }

    /** `write_rom` at 0x6000-0x7FFF: writing 0 then 1 latches the clock
        reading `now` (seconds since the epoch) into the first three RTC
        registers; every write is remembered for the next one. */
    method LatchClock(value: u8, now: nat)
      requires Valid()
      modifies this
      ensures Valid()
      ensures prevLatchVal == value
      ensures old(prevLatchVal) == 0x00 && value == 0x01 ==>
        rtcRegs == ClockFields(now) + old(rtcRegs)[3..]
      ensures !(old(prevLatchVal) == 0x00 && value == 0x01) ==> rtcRegs == old(rtcRegs)
      ensures unchanged(this`isRamRtcEnabled, this`currentRomBank, this`currentRamBank, this`romBankMask,
                        this`romBanks, this`ramBanks, this`rtcBanked)
    {
      if prevLatchVal == 0x00 && value == 0x01 {
        var fields := ClockFields(now);
        rtcRegs := rtcRegs[0 := fields[0]][1 := fields[1]][2 := fields[2]];
      }
      prevLatchVal := value;
    }

    /** `write_rom`: the four register ranges; `now` is the wall clock the
        latch reads. */
    method WriteRom(addr: int, value: u8, now: nat)
      requires Valid() && 0 <= addr < 0x8000
      modifies this
      ensures Valid()
      ensures unchanged(this`romBankMask, this`romBanks, this`ramBanks)
      ensures addr < 0x2000 ==>
        isRamRtcEnabled == EnableAfter(old(isRamRtcEnabled), value)
        && unchanged(this`currentRomBank, this`currentRamBank, this`rtcRegs, this`rtcBanked, this`prevLatchVal)
      ensures 0x2000 <= addr < 0x4000 ==>
        currentRomBank == SelectRomBank(value, romBankMask)
        && unchanged(this`isRamRtcEnabled, this`currentRamBank, this`rtcRegs, this`rtcBanked, this`prevLatchVal)
      ensures 0x4000 <= addr < 0x6000 ==>
        (value <= 0x03 ==> currentRamBank == value && !rtcBanked)
        && (0x08 <= value <= 0x0C ==> currentRamBank == old(currentRamBank) && rtcBanked)
        && ((0x03 < value < 0x08 || 0x0C < value) ==>
              currentRamBank == old(currentRamBank) && rtcBanked == old(rtcBanked))
        && unchanged(this`isRamRtcEnabled, this`currentRomBank, this`rtcRegs, this`prevLatchVal)
      ensures 0x6000 <= addr ==>
        prevLatchVal == value
        && rtcRegs == (if old(prevLatchVal) == 0x00 && value == 0x01 then ClockFields(now) + old(rtcRegs)[3..]
                       else old(rtcRegs))
        && unchanged(this`isRamRtcEnabled, this`currentRomBank, this`currentRamBank, this`rtcBanked)
    {
      if addr < 0x2000 {
        isRamRtcEnabled := EnableAfter(isRamRtcEnabled, value);
      } else if addr < 0x4000 {
        currentRomBank := SelectRomBank(value, romBankMask);
      } else if addr < 0x6000 {
        SelectRamOrRtc(value);
      } else {
        LatchClock(value, now);
      }
    }

    /** `read_ram`: 0xFF while disabled; otherwise the selected RAM bank
        (also while a clock register is mapped), and a bank the cartridge
        lacks makes the source index out of bounds. */
    function ReadRam(addr: int): (r: Result<u8>)
      requires Valid() && 0 <= addr < 0x2000
      reads this
      ensures !isRamRtcEnabled ==> r == Ok(0xFF)
      ensures isRamRtcEnabled ==>
        r == if (currentRamBank as int) < |ramBanks| then Ok(ramBanks[currentRamBank][addr]) else Panic
    {
      if !isRamRtcEnabled then Ok(0xFF)
      else if (currentRamBank as int) < |ramBanks| then Ok(ramBanks[currentRamBank][addr])
      else Panic
    }

    /** `write_ram`: dropped while disabled; otherwise one byte of the
        selected RAM bank changes. */
    method WriteRam(addr: int, value: u8) returns (r: Result<()>)
      requires Valid() && 0 <= addr < 0x2000
      modifies this
      ensures Valid()
      ensures unchanged(this`isRamRtcEnabled, this`currentRomBank, this`currentRamBank, this`romBankMask,
                        this`romBanks, this`rtcRegs, this`rtcBanked, this`prevLatchVal)
      ensures !isRamRtcEnabled ==> r == Ok(()) && ramBanks == old(ramBanks)
      ensures isRamRtcEnabled && (currentRamBank as int) < |old(ramBanks)| ==>
        r == Ok(()) && ramBanks == old(ramBanks)[currentRamBank := old(ramBanks)[currentRamBank][addr := value]]
      ensures isRamRtcEnabled && (currentRamBank as int) >= |old(ramBanks)| ==> r == Panic && ramBanks == old(ramBanks)
      ensures r.Ok? && isRamRtcEnabled ==> ReadRam(addr) == Ok(value)
      ensures forall a :: 0 <= a < 0x2000 && a != addr ==> ReadRam(a) == old(ReadRam(a))
    {
      if !isRamRtcEnabled {
        return Ok(());
      }
      var bank := currentRamBank as int;
      if bank >= |ramBanks| {
        return Panic;
      }
      ramBanks := StoreByte(ramBanks, RamBankSize, bank, addr, value);
      r := Ok(());
    }

    /** `has_ram`. */
    function HasRam(): (b: bool)
      reads this
      ensures b <==> |ramBanks| > 0
    {
      |ramBanks| != 0
    }
  }

  /** For a bank count the header states with codes 0x00-0x09, reading the
      ROM never selects a bank the cartridge lacks. */
  lemma ReadRomNeverFailsForStandardSizes(m: Mbc3, addr: int)
    requires m.Valid() && 0 <= addr < 0x8000 && StandardBankCount(|m.romBanks|)
    ensures m.ReadRom(addr).Ok?
  {
    assert RomBankMask(|m.romBanks|) & 0xFF == RomBankMask(|m.romBanks|);
    MaskedBankExists(|m.romBanks|, 0xFF, m.currentRomBank);
  }

  /** With four RAM banks every selectable RAM bank exists, so enabled RAM
      reads never fail. */
  lemma ReadRamNeverFailsWithFourBanks(m: Mbc3, addr: int)
    requires m.Valid() && 0 <= addr < 0x2000 && |m.ramBanks| == 4
    ensures m.ReadRam(addr).Ok?
  {
  }

  /** `Mbc3::new`: the images are split by `init_rom_and_ram`, whose failed
      checks panic. */
  method New(rom: seq<u8>, ram: Option<seq<u8>>, numRomBanks: nat, numRamBanks: nat)
    returns (r: Result<Mbc3>)
    ensures r.Ok? <==> InitRomAndRam(rom, ram, numRomBanks, numRamBanks).Ok?
    ensures r.Ok? ==> fresh(r.value) && r.value.Valid()
    ensures r.Ok? ==> !r.value.isRamRtcEnabled && r.value.currentRomBank == 1 && r.value.currentRamBank == 0
    ensures r.Ok? ==> (r.value.romBanks, r.value.ramBanks) == InitRomAndRam(rom, ram, numRomBanks, numRamBanks).value
  {
    var banks := InitRomAndRam(rom, ram, numRomBanks, numRamBanks);
    if banks.Panic? {
      return Panic;
    }
    var m := new Mbc3(banks.value.0, banks.value.1);
    r := Ok(m);
  }
}

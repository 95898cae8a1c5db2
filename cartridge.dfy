/** The cartridge: header decoding, the choice of bank controller, and the
    dispatch of bus accesses to it. */
module Cartridge {
  import opened Bits
  import opened CartridgeBanks
  import CartRom
  import CartMbc1
  import CartMbc2
  import CartMbc3
  import CartMbc5

  /** The number of 16 KiB ROM banks (bank 0 included) a ROM size code
      announces: 32 KiB doubled per step for 0x00-0x09, and the three
      irregular sizes 0x52-0x54; any other code panics. */
  function RomBankCount(code: u8): (r: Option<nat>)
    ensures r.Some? <==> code <= 0x09 || 0x52 <= code <= 0x54
    ensures code <= 0x09 ==> StandardBankCount(r.value)
    ensures 0x52 <= code <= 0x54 ==> r.value in {72, 80, 96}
  {
    match code
    case 0x00 => Some(2)
    case 0x01 => Some(4)
    case 0x02 => Some(8)
    case 0x03 => Some(16)
    case 0x04 => Some(32)
    case 0x05 => Some(64)
    case 0x06 => Some(128)
    case 0x07 => Some(256)
    case 0x08 => Some(512)
    case 0x09 => Some(1024)
    case 0x52 => Some(72)
    case 0x53 => Some(80)
    case 0x54 => Some(96)
    case _ => None
  }

  /** Each step of the regular ROM size codes doubles the size. */
  lemma RomSizeDoubles(code: u8)
    requires 1 <= code <= 0x09
    ensures RomBankCount(code).value == 2 * RomBankCount(code - 1).value
  {
  }

  /** The number of 8 KiB RAM banks a RAM size code announces; code 0x01
      and codes above 0x05 panic. */
  function RamBankCount(code: u8): (r: Option<nat>)
    ensures r.Some? <==> code == 0x00 || 0x02 <= code <= 0x05
    ensures r.Some? ==> r.value in {0, 1, 4, 8, 16}
    ensures code == 0x00 <==> r == Some(0)
  {
    match code
    case 0x00 => Some(0)
    case 0x02 => Some(1)
    case 0x03 => Some(4)
    case 0x04 => Some(16)
    case 0x05 => Some(8)
    case _ => None
  }

  datatype Kind = RomOnly | Mbc1 | Mbc2 | Mbc3 | Mbc5

  /** The controller a cartridge type code names; other codes are not
      handled and panic. */
  function KindOf(code: u8): (k: Option<Kind>)
    ensures k == Some(RomOnly) <==> code == 0x00
    ensures k == Some(Mbc1) <==> 0x01 <= code <= 0x03
    ensures k == Some(Mbc2) <==> code == 0x05 || code == 0x06
    ensures k == Some(Mbc3) <==> 0x0F <= code <= 0x13
    ensures k == Some(Mbc5) <==> 0x19 <= code <= 0x1E
  {
    if code == 0x00 then Some(RomOnly)
    else if 0x01 <= code <= 0x03 then Some(Mbc1)
    else if code == 0x05 || code == 0x06 then Some(Mbc2)
    else if 0x0F <= code <= 0x13 then Some(Mbc3)
    else if 0x19 <= code <= 0x1E then Some(Mbc5)
    else None
  }

  datatype Cartridge =
    | RomCart(rom: CartRom.Rom)
    | Mbc1Cart(m1: CartMbc1.Mbc1)
    | Mbc2Cart(m2: CartMbc2.Mbc2)
    | Mbc3Cart(m3: CartMbc3.Mbc3)
    | Mbc5Cart(m5: CartMbc5.Mbc5)

  /** The controller kind of a built cartridge; only the plain ROM has no
      controller object. */
  function KindOfCart(c: Cartridge): (k: Kind)
    ensures k == RomOnly <==> Objects(c) == {}
  {
    match c
    case RomCart(_) => RomOnly
    case Mbc1Cart(_) => Mbc1
    case Mbc2Cart(_) => Mbc2
    case Mbc3Cart(_) => Mbc3
    case Mbc5Cart(_) => Mbc5
  }

  /** The controller object a cartridge holds, if any. */
  function Objects(c: Cartridge): set<object>
  {
    match c
    case RomCart(_) => {}
    case Mbc1Cart(m) => {m}
    case Mbc2Cart(m) => {m}
    case Mbc3Cart(m) => {m}
    case Mbc5Cart(m) => {m}
  }

  predicate Valid(c: Cartridge)
    reads Objects(c)
  {
    match c
    case RomCart(r) => CartRom.Valid(r)
    case Mbc1Cart(m) => m.Valid()
    case Mbc2Cart(m) => m.Valid()
    case Mbc3Cart(m) => m.Valid()
    case Mbc5Cart(m) => m.Valid()
  }

  /** The header fields the constructor relies on, decoded. */
  datatype Header = Header(kind: Kind, numRomBanks: nat, numRamBanks: nat)

  /** Decodes the header bytes at 0x147-0x149; a ROM too short to hold them
      or an unknown code panics. */
  function DecodeHeader(rom: seq<u8>): (h: Result<Header>)
    ensures h.Ok? <==> |rom| > 0x149 && KindOf(rom[0x147]).Some?
                       && RomBankCount(rom[0x148]).Some? && RamBankCount(rom[0x149]).Some?
    ensures h.Ok? ==> h.value == Header(KindOf(rom[0x147]).value, RomBankCount(rom[0x148]).value,
                                        RamBankCount(rom[0x149]).value)
  {
    if |rom| <= 0x149 then Panic
    else
      match (KindOf(rom[0x147]), RomBankCount(rom[0x148]), RamBankCount(rom[0x149]))
      case (Some(k), Some(nRom), Some(nRam)) => Ok(Header(k, nRom, nRam))
      case _ => Panic
  }

  /** Builds the bank controller of the given kind over the images. */
  method NewController(kind: Kind, rom: seq<u8>, ram: Option<seq<u8>>, nRom: nat, nRam: nat)
    returns (r: Result<Cartridge>)
    requires kind != RomOnly
    ensures r.Ok? <==> InitRomAndRam(rom, ram, nRom, nRam).Ok?
    ensures r.Ok? ==> KindOfCart(r.value) == kind
    ensures r.Ok? ==> Valid(r.value) && forall o :: o in Objects(r.value) ==> fresh(o)
    ensures r.Ok? && ram.Some? && kind != Mbc2 ==> IterRam(r.value) == Ok(ram.value)
  {
    if InitRomAndRam(rom, ram, nRom, nRam).Ok? {
      InitRomAndRamKeepsImages(rom, ram, nRom, nRam);
    }
    match kind {
      case Mbc1 =>
        var cart := CartMbc1.New(rom, ram, nRom, nRam);
        r := if cart.Ok? then Ok(Mbc1Cart(cart.value)) else Panic;
      case Mbc2 =>
        var cart := CartMbc2.New(rom, ram, nRom, nRam);
        r := if cart.Ok? then Ok(Mbc2Cart(cart.value)) else Panic;
      case Mbc3 =>
        var cart := CartMbc3.New(rom, ram, nRom, nRam);
        r := if cart.Ok? then Ok(Mbc3Cart(cart.value)) else Panic;
      case Mbc5 =>
        var cart := CartMbc5.New(rom, ram, nRom, nRam);
        r := if cart.Ok? then Ok(Mbc5Cart(cart.value)) else Panic;
    }
  }

  /** `Cartridge::new`: decodes the header and builds the controller it
      names over the ROM image and the optional saved RAM; the saved RAM
      comes back unchanged from `iter_ram`. */
  method New(rom: seq<u8>, ram: Option<seq<u8>>) returns (r: Result<Cartridge>)
    ensures DecodeHeader(rom).Panic? ==> r.Panic?
    ensures r.Ok? ==> DecodeHeader(rom).Ok? && KindOfCart(r.value) == DecodeHeader(rom).value.kind
    ensures r.Ok? ==> Valid(r.value) && forall o :: o in Objects(r.value) ==> fresh(o)
    ensures DecodeHeader(rom).Ok? && DecodeHeader(rom).value.kind == RomOnly ==> (r.Ok? <==> |rom| == 0x8000)
    ensures DecodeHeader(rom).Ok? && DecodeHeader(rom).value.kind != RomOnly ==>
      (r.Ok? <==> InitRomAndRam(rom, ram, DecodeHeader(rom).value.numRomBanks, DecodeHeader(rom).value.numRamBanks).Ok?)
    ensures r.Ok? && ram.Some? && !r.value.RomCart? && !r.value.Mbc2Cart? ==> IterRam(r.value) == Ok(ram.value)
  {
    var header := DecodeHeader(rom);
    if header.Panic? {
      return Panic;
    }
    var Header(kind, nRom, nRam) := header.value;
    if kind == RomOnly {
      var cart := CartRom.New(rom);
      r := if cart.Ok? then Ok(RomCart(cart.value)) else Panic;
    } else {
      r := NewController(kind, rom, ram, nRom, nRam);
    }
  }

  /** `read_rom`, dispatched to the controller. */
  function ReadRom(c: Cartridge, addr: int): (r: Result<u8>)
    requires Valid(c) && 0 <= addr < 0x8000
    reads Objects(c)
    ensures c.RomCart? ==> r == Ok(CartRom.ReadRom(c.rom, addr))
  {
    match c
    case RomCart(rc) => Ok(CartRom.ReadRom(rc, addr))
    case Mbc1Cart(m) => m.ReadRom(addr)
    case Mbc2Cart(m) => m.ReadRom(addr)
    case Mbc3Cart(m) => m.ReadRom(addr)
    case Mbc5Cart(m) => m.ReadRom(addr)
  }

  /** `write_rom`, dispatched to the controller; a ROM cartridge ignores it
      and `now` is the wall clock only the MBC3 latch reads. */
  method WriteRom(c: Cartridge, addr: int, value: u8, now: nat)
    requires Valid(c) && 0 <= addr < 0x8000
    modifies Objects(c)
    ensures Valid(c)
  {
    match c {
      case RomCart(_) =>
      case Mbc1Cart(m) => m.WriteRom(addr, value);
      case Mbc2Cart(m) => m.WriteRom(addr, value);
      case Mbc3Cart(m) => m.WriteRom(addr, value, now);
      case Mbc5Cart(m) => m.WriteRom(addr, value);
    }
  }

  /** `read_ram`, dispatched to the controller; a ROM cartridge reads 0. */
  function ReadRam(c: Cartridge, addr: int): (r: Result<u8>)
    requires Valid(c) && 0 <= addr < 0x2000
    reads Objects(c)
    ensures c.RomCart? ==> r == Ok(0)
  {
    match c
    case RomCart(_) => Ok(0)
    case Mbc1Cart(m) => m.ReadRam(addr)
    case Mbc2Cart(m) => Ok(m.ReadRam(addr))
    case Mbc3Cart(m) => m.ReadRam(addr)
    case Mbc5Cart(m) => m.ReadRam(addr)
  }

  /** `write_ram`, dispatched to the controller; a ROM cartridge ignores it. */
  method WriteRam(c: Cartridge, addr: int, value: u8) returns (r: Result<()>)
    requires Valid(c) && 0 <= addr < 0x2000
    modifies Objects(c)
    ensures Valid(c)
    ensures c.RomCart? ==> r == Ok(())
    ensures c.Mbc1Cart? ==> c.m1.Regs() == old(c.m1.Regs()) && c.m1.romBanks == old(c.m1.romBanks)
    ensures c.Mbc1Cart? && !c.m1.isRamEnabled ==> r == Ok(()) && c.m1.ramBanks == old(c.m1.ramBanks)
    ensures c.Mbc1Cart? && c.m1.isRamEnabled && (c.m1.MappedRamBank() as int) < |old(c.m1.ramBanks)| ==>
      r == Ok(()) && c.m1.ramBanks == old(c.m1.ramBanks)[c.m1.MappedRamBank() :=
        old(c.m1.ramBanks)[c.m1.MappedRamBank()][addr := value]]
    ensures c.Mbc1Cart? && c.m1.isRamEnabled && (c.m1.MappedRamBank() as int) >= |old(c.m1.ramBanks)| ==>
      r == Panic && c.m1.ramBanks == old(c.m1.ramBanks)
    ensures c.Mbc2Cart? ==>
      r == Ok(()) && unchanged(c.m2`isRamEnabled, c.m2`currentRomBank, c.m2`romBankMask, c.m2`romBanks)
    ensures c.Mbc2Cart? && !c.m2.isRamEnabled ==> c.m2.ramBanks == old(c.m2.ramBanks)
    ensures c.Mbc2Cart? && c.m2.isRamEnabled ==>
      c.m2.ramBanks == old(c.m2.ramBanks)[0 := old(c.m2.ramBanks)[0][CartMbc2.RamOffset(addr) := value]]
    ensures c.Mbc3Cart? ==>
      unchanged(c.m3`isRamRtcEnabled, c.m3`currentRomBank, c.m3`currentRamBank, c.m3`romBankMask,
                c.m3`romBanks, c.m3`rtcRegs, c.m3`rtcBanked, c.m3`prevLatchVal)
    ensures c.Mbc3Cart? && !c.m3.isRamRtcEnabled ==> r == Ok(()) && c.m3.ramBanks == old(c.m3.ramBanks)
    ensures c.Mbc3Cart? && c.m3.isRamRtcEnabled && (c.m3.currentRamBank as int) < |old(c.m3.ramBanks)| ==>
      r == Ok(()) && c.m3.ramBanks == old(c.m3.ramBanks)[c.m3.currentRamBank :=
        old(c.m3.ramBanks)[c.m3.currentRamBank][addr := value]]
    ensures c.Mbc3Cart? && c.m3.isRamRtcEnabled && (c.m3.currentRamBank as int) >= |old(c.m3.ramBanks)| ==>
      r == Panic && c.m3.ramBanks == old(c.m3.ramBanks)
    ensures c.Mbc5Cart? ==>
      unchanged(c.m5`isRamEnabled, c.m5`romBankMask, c.m5`currentRomBank, c.m5`currentRamBank, c.m5`romBanks)
    ensures c.Mbc5Cart? && !c.m5.isRamEnabled ==> r == Ok(()) && c.m5.ramBanks == old(c.m5.ramBanks)
    ensures c.Mbc5Cart? && c.m5.isRamEnabled && (c.m5.currentRamBank as int) < |old(c.m5.ramBanks)| ==>
      r == Ok(()) && c.m5.ramBanks == old(c.m5.ramBanks)[c.m5.currentRamBank :=
        old(c.m5.ramBanks)[c.m5.currentRamBank][addr := value]]
    ensures c.Mbc5Cart? && c.m5.isRamEnabled && (c.m5.currentRamBank as int) >= |old(c.m5.ramBanks)| ==>
      r == Panic && c.m5.ramBanks == old(c.m5.ramBanks)
  {
    match c {
      case RomCart(_) =>
        r := Ok(());
      case Mbc1Cart(m) =>
        r := m.WriteRam(addr, value);
      case Mbc2Cart(m) =>
        m.WriteRam(addr, value);
        r := Ok(());
      case Mbc3Cart(m) =>
        r := m.WriteRam(addr, value);
      case Mbc5Cart(m) =>
        r := m.WriteRam(addr, value);
    }
  }

  /** `has_ram`: every controller counts as having RAM, the plain ROM
      cartridge does not. */
  function HasRam(c: Cartridge): (b: bool)
    ensures b <==> KindOfCart(c) != RomOnly
  {
    !c.RomCart?
  }

  /** `iter_ram`: the RAM banks laid end to end, as a save file holds them;
      a ROM cartridge has none and panics. */
  function IterRam(c: Cartridge): (r: Result<seq<u8>>)
    reads Objects(c)
    ensures r.Ok? <==> HasRam(c)
  {
    match c
    case RomCart(_) => Panic
    case Mbc1Cart(m) => Ok(Flatten(m.ramBanks))
    case Mbc2Cart(m) => Ok(Flatten(m.ramBanks))
    case Mbc3Cart(m) => Ok(Flatten(m.ramBanks))
    case Mbc5Cart(m) => Ok(Flatten(m.ramBanks))
  }
}

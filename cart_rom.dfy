/** The plain 32 KiB cartridge without a bank controller: two fixed ROM
    banks, no RAM, and writes that change nothing. */
module CartRom {
  import opened Bits
  import opened CartridgeBanks

  datatype Rom = Rom(data: seq<seq<u8>>)

  /** Exactly two 16 KiB banks. */
  predicate Valid(r: Rom)
  {
    |r.data| == 2 && Sized(r.data, RomBankSize)
  }

  /** `Rom::new`: the image must be exactly 32 KiB (the `assert_eq!`
      panics otherwise) and is split into its two banks. */
  function New(rom: seq<u8>): (r: Result<Rom>)
    ensures r.Ok? <==> |rom| == 0x8000
    ensures r.Ok? ==> Valid(r.value) && Flatten(r.value.data) == rom
  {
    if |rom| != 0x8000 then Panic
    else
      FlattenChunks(rom, 2, RomBankSize);
      Ok(Rom(Chunks(rom, 2, RomBankSize)))
  }

  /** `read_rom`: bank 0 at 0x0000-0x3FFF, bank 1 at 0x4000-0x7FFF. */
  function ReadRom(r: Rom, addr: int): (b: u8)
    requires Valid(r) && 0 <= addr < 0x8000
    ensures |Flatten(r.data)| == 0x8000 && b == Flatten(r.data)[addr]
  {
    assert Flatten(r.data) == r.data[0] + r.data[1] by {
      assert Flatten(r.data[1..][1..]) == [];
    }
    if addr < 0x4000 then r.data[0][addr] else r.data[1][addr - 0x4000]
  }

  /** A ROM cartridge reads back its image byte for byte. */
  lemma {:induction false} ReadRomIsImage(rom: seq<u8>, addr: int)
    requires |rom| == 0x8000 && 0 <= addr < 0x8000
    ensures ReadRom(New(rom).value, addr) == rom[addr]
  {
    if addr < 0x4000 {
      ChunkAt(rom, 2, RomBankSize, 0);
    } else {
      ChunkAt(rom, 2, RomBankSize, 1);
    }
  }
}

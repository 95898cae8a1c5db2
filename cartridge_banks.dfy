/** Splitting a cartridge image into its 16 KiB ROM banks and 8 KiB RAM
    banks (`init_rom_and_ram`), shared by every bank controller. */
module CartridgeBanks {
  import opened Bits

  const RomBankSize: nat := 0x4000
  const RamBankSize: nat := 0x2000

  /** `count` consecutive pieces of `n` bytes each (`chunks_exact`). */
  function Chunks(s: seq<u8>, count: nat, n: nat): (r: seq<seq<u8>>)
    requires |s| == count * n
    ensures |r| == count
    ensures forall i :: 0 <= i < count ==> |r[i]| == n
    decreases count
  {
    if count == 0 then []
    else
      MulStep(count, n);
      [s[..n]] + Chunks(s[n..], count - 1, n)
  }

  lemma MulStep(count: nat, n: nat)
    requires count > 0
    ensures n <= count * n && (count - 1) * n == count * n - n
  {
  }

  /** The pieces laid end to end. */
  function Flatten(banks: seq<seq<u8>>): (s: seq<u8>)
    decreases |banks|
  {
    if |banks| == 0 then [] else banks[0] + Flatten(banks[1..])
  }

  /** Chunking loses and reorders nothing: the chunks laid end to end are
      the original bytes. */
  lemma {:induction false} FlattenChunks(s: seq<u8>, count: nat, n: nat)
    requires |s| == count * n
    ensures Flatten(Chunks(s, count, n)) == s
    decreases count
  {
    if count > 0 {
      MulStep(count, n);
      FlattenChunks(s[n..], count - 1, n);
      assert Chunks(s, count, n)[1..] == Chunks(s[n..], count - 1, n);
      assert s == s[..n] + s[n..];
    }
  }

  /** Chunk `i` holds bytes `i * n` up to `i * n + n` of the original, so
      the chunks come in order. */
  lemma {:induction false} ChunkAt(s: seq<u8>, count: nat, n: nat, i: nat)
    requires |s| == count * n && i < count
    ensures i * n + n <= |s|
    ensures Chunks(s, count, n)[i] == s[i * n .. i * n + n]
    decreases i
  {
    MulStep(count, n);
    if i > 0 {
      ChunkAt(s[n..], count - 1, n, i - 1);
      MulStep(i, n);
    }
  }

  /** `num_ram_banks` banks of zeroes. */
  function ZeroedBanks(count: nat): (r: seq<seq<u8>>)
    ensures |r| == count
    ensures forall i, j :: 0 <= i < count && 0 <= j < RamBankSize ==> |r[i]| == RamBankSize && r[i][j] == 0
  {
    seq(count, _ => seq(RamBankSize, _ => 0))
  }

  /** Every bank of a list has the given size. */
  predicate Sized(banks: seq<seq<u8>>, size: nat)
  {
    forall i :: 0 <= i < |banks| ==> |banks[i]| == size
  }

  /** A byte stored into one bank: the banks keep their sizes, the byte
      reads back, and every other byte of every bank is unchanged. */
  function StoreByte(banks: seq<seq<u8>>, size: nat, bank: nat, addr: nat, value: u8): (r: seq<seq<u8>>)
    requires Sized(banks, size) && bank < |banks| && addr < size
    ensures Sized(r, size) && |r| == |banks|
    ensures r[bank][addr] == value
    ensures forall i, a :: 0 <= i < |r| && 0 <= a < size && (i != bank || a != addr) ==> r[i][a] == banks[i][a]
  {
    banks[bank := banks[bank][addr := value]]
  }

  /** `init_rom_and_ram`: the ROM image must hold exactly `numRomBanks`
      banks, and a supplied RAM image exactly `numRamBanks` banks (each
      `assert_eq!` panics otherwise); without a RAM image the RAM starts
      zeroed. */
  function InitRomAndRam(rom: seq<u8>, ram: Option<seq<u8>>, numRomBanks: nat, numRamBanks: nat)
    : (r: Result<(seq<seq<u8>>, seq<seq<u8>>)>)
    ensures r.Ok? <==> |rom| == numRomBanks * RomBankSize
                       && (ram.Some? ==> |ram.value| == numRamBanks * RamBankSize)
    ensures r.Ok? ==> |r.value.0| == numRomBanks && Sized(r.value.0, RomBankSize)
    ensures r.Ok? ==> |r.value.1| == numRamBanks && Sized(r.value.1, RamBankSize)
  {
    if |rom| != numRomBanks * RomBankSize then Panic
    else
      var romBanks := Chunks(rom, numRomBanks, RomBankSize);
      match ram
      case Some(image) =>
        if |image| != numRamBanks * RamBankSize then Panic
        else Ok((romBanks, Chunks(image, numRamBanks, RamBankSize)))
      case None =>
        Ok((romBanks, ZeroedBanks(numRamBanks)))
  }

  /** The banks `init_rom_and_ram` returns hold the images' bytes in
      order; without a RAM image every RAM byte is zero. */
  lemma InitRomAndRamKeepsImages(rom: seq<u8>, ram: Option<seq<u8>>, numRomBanks: nat, numRamBanks: nat)
    requires InitRomAndRam(rom, ram, numRomBanks, numRamBanks).Ok?
    ensures var (romBanks, ramBanks) := InitRomAndRam(rom, ram, numRomBanks, numRamBanks).value;
      Flatten(romBanks) == rom
      && (ram.Some? ==> Flatten(ramBanks) == ram.value)
      && (ram.None? ==> forall i, j :: 0 <= i < numRamBanks && 0 <= j < RamBankSize ==> ramBanks[i][j] == 0)
  {
    FlattenChunks(rom, numRomBanks, RomBankSize);
    if ram.Some? {
      FlattenChunks(ram.value, numRamBanks, RamBankSize);
    }
  }

  /** The RAM enable latch of MBC3 and MBC5 after a write to
      0x0000-0x1FFF: a low nibble of 0xA enables, 0 disables, and any
      other value leaves it. */
  function EnableAfter(enabled: bool, value: u8): (e: bool)
    ensures value & 0x0F == 0x0A ==> e
    ensures value & 0x0F == 0x00 ==> !e
    ensures value & 0x0F != 0x0A && value & 0x0F != 0x00 ==> e == enabled
  {
    var v := value & 0x0F;
    if v == 0x0A then true else if v == 0x00 then false else enabled
  }

  /** The ROM bank counts of the header's ROM size codes 0x00-0x09. */
  predicate StandardBankCount(n: nat)
  {
    n == 2 || n == 4 || n == 8 || n == 16 || n == 32 || n == 64
    || n == 128 || n == 256 || n == 512 || n == 1024
  }

  /** The ROM bank mask the MBC2, MBC3 and MBC5 controllers choose from
      `num_rom_banks - 1`: the smallest all-ones byte covering the highest
      bank (a count of 0 wraps around to the widest mask). */
  function RomBankMask(numRomBanks: nat): (m: u8)
    ensures m == 0x01 || m == 0x03 || m == 0x07 || m == 0x0F || m == 0x1F || m == 0x3F || m == 0x7F || m == 0xFF
    ensures StandardBankCount(numRomBanks) && numRomBanks <= 0x100 ==> m as int == numRomBanks - 1
  {
    if 1 <= numRomBanks <= 2 then 0x01
    else if 3 <= numRomBanks <= 4 then 0x03
    else if 5 <= numRomBanks <= 8 then 0x07
    else if 9 <= numRomBanks <= 16 then 0x0F
    else if 17 <= numRomBanks <= 32 then 0x1F
    else if 33 <= numRomBanks <= 64 then 0x3F
    else if 65 <= numRomBanks <= 128 then 0x7F
    else 0xFF
  }

  /** For the standard bank counts the mask is one less than the count up
      to the mask's width, so a masked bank number names a bank the
      cartridge has, also when the mask is cut to `width` bits. */
  lemma MaskedBankExists(numRomBanks: nat, width: u8, b: u8)
    requires StandardBankCount(numRomBanks)
    requires width == 0x0F || width == 0xFF
    requires b & !(RomBankMask(numRomBanks) & width) == 0
    ensures (b as int) < numRomBanks
  {
    var m := RomBankMask(numRomBanks) & width;
    assert b <= m;
  }
}

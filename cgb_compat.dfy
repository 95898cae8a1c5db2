/** The console compatibility byte of the cartridge header (0x0143), which
    decides whether the colour-only registers respond. */
module CgbCompat {
  import opened Bits

  datatype CgbCompatibility = Dmg | CgbOnly | CgbAndDmg

  /** `CgbCompatibility::from`: 0x80 marks a cartridge that also runs on the
      monochrome console, 0xC0 a colour-only one, anything else none. */
  function FromByte(val: u8): (c: CgbCompatibility)
    ensures c == CgbAndDmg <==> val == 0x80
    ensures c == CgbOnly <==> val == 0xC0
    ensures c == Dmg <==> val != 0x80 && val != 0xC0
  {
    if val == 0x80 then CgbAndDmg
    else if val == 0xC0 then CgbOnly
    else Dmg
  }

  /** `is_cgb_mode`: only a colour-only cartridge runs in colour mode. */
  predicate IsCgbMode(c: CgbCompatibility)
  {
    c == CgbOnly
  }
}

/** Colours as the frame buffer holds them: eight bits per channel, made
    from the colour console's 15-bit BGR palette entries. */
module Rgb {
  import opened Bits

  datatype Rgb = Rgb(r: u8, g: u8, b: u8)

  /** `Rgb::const_mono`: a grey of the given intensity. */
  function ConstMono(val: u8): (c: Rgb)
    ensures c.r == val && c.g == val && c.b == val
  {
    Rgb(val, val, val)
  }

  /** One channel of `convert_555_to_888`: the five bits move to the top and
      their top three bits are repeated below them. */
  function Expand5(c: u8): (e: u8)
    requires c <= 0x1F
    ensures e >> 3 == c
    ensures e & 0x07 == c >> 2
  {
    (c << 3) | (c >> 2)
  }

  /** The expansion spans the whole byte: black stays black and full
      intensity becomes 255. */
  lemma Expand5Ends()
    ensures Expand5(0) == 0 && Expand5(0x1F) == 0xFF
  {
  }

  /** The expansion keeps the order of intensities. */
  lemma Expand5Monotone(c: u8, d: u8)
    requires c <= d <= 0x1F
    ensures Expand5(c) <= Expand5(d)
  {
    assert Expand5(c) >> 3 == c && Expand5(d) >> 3 == d;
    if c < d {
      assert (Expand5(c) >> 3) < (Expand5(d) >> 3);
    }
  }

  /** `convert_555_to_888` on every channel. */
  function Convert555To888(c: Rgb): (e: Rgb)
    requires c.r <= 0x1F && c.g <= 0x1F && c.b <= 0x1F
    ensures e.r == Expand5(c.r) && e.g == Expand5(c.g) && e.b == Expand5(c.b)
  {
    Rgb(Expand5(c.r), Expand5(c.g), Expand5(c.b))
  }

  /** `Rgb::from_bgr555`: red in bits 0-4, green in bits 5-9 and blue in
      bits 10-14; bit 15 is ignored. */
  function FromBgr555(bgr555: u16): (c: Rgb)
    ensures Top5(c.r) == bgr555 & 0x1F
    ensures Top5(c.g) == (bgr555 >> 5) & 0x1F
    ensures Top5(c.b) == (bgr555 >> 10) & 0x1F
  {
    var r := (bgr555 & 0x1F) as u8;
    var g := ((bgr555 >> 5) & 0x1F) as u8;
    var b := ((bgr555 >> 10) & 0x1F) as u8;
    Convert555To888(Rgb(r, g, b))
  }

  /** The top five bits of a channel, widened. */
  function Top5(x: u8): (t: u16)
    ensures t <= 0x1F
  {
    (x >> 3) as u16
  }

  /** The 15-bit entry a colour came from: the top five bits of each
      channel. */
  function ToBgr555(c: Rgb): (v: u16)
    ensures v & 0x8000 == 0
  {
    (Top5(c.b) << 10) | (Top5(c.g) << 5) | Top5(c.r)
  }

  /** The three five-bit fields of a 16-bit value put back in place give
      the value without bit 15. */
  lemma FieldsReassemble(v: u16)
    ensures (((v >> 10) & 0x1F) << 10) | (((v >> 5) & 0x1F) << 5) | (v & 0x1F) == v & 0x7FFF
  {
  }

  /** No colour information is lost: the 15-bit entry is recovered from the
      converted colour, and only bit 15 is dropped. */
  lemma FromBgr555RoundTrip(bgr555: u16)
    ensures ToBgr555(FromBgr555(bgr555)) == bgr555 & 0x7FFF
  {
    FieldsReassemble(bgr555);
  }
}

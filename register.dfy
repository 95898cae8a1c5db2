/** A pair of 8-bit CPU registers addressed together as one 16-bit register
    (AF, BC, DE, HL): the high byte is the first register of the pair. */
module CpuRegister {
  import opened Bits

  /** `u16::from(Register)`: the high byte shifted into bits 8-15. */
  function Join(hi: u8, lo: u8): (v: u16)
    ensures v >> 8 == hi as u16
    ensures v & 0xFF == lo as u16
  {
    ((hi as u16) << 8) | (lo as u16)
  }

  /** `Register::from(u16)`: the high and low bytes of `v`. */
  function Split(v: u16): (r: (u8, u8))
    ensures r.0 as u16 * 0x100 + r.1 as u16 == v
  {
    (((v & 0xFF00) >> 8) as u8, (v & 0x00FF) as u8)
  }

  /** Converting a register to u16 and back yields the same register. */
  lemma SplitJoin(hi: u8, lo: u8)
    ensures Split(Join(hi, lo)) == (hi, lo)
  {
  }

  /** Converting a u16 to a register and back yields the same value. */
  lemma JoinSplit(v: u16)
    ensures Join(Split(v).0, Split(v).1) == v
  {
  }

  class Register {
    var hi: u8
    var lo: u8

    /** The 16-bit value of the pair. */
    function Value(): u16
      reads this
    {
      Join(hi, lo)
    }

    /** `Register::new` stores both bytes unchanged. */
    constructor New(hi: u8, lo: u8)
      ensures this.hi == hi && this.lo == lo
    {
      this.hi := hi;
      this.lo := lo;
    }

    /** `Register::from(u16)`. */
    constructor FromU16(v: u16)
      ensures Value() == v
      ensures (hi, lo) == Split(v)
    {
      hi := ((v & 0xFF00) >> 8) as u8;
      lo := (v & 0x00FF) as u8;
      JoinSplit(v);
    }

    /** `+=`: the 16-bit value grows by `rhs` modulo 2^16. */
    method AddAssign(rhs: u16)
      modifies this
      ensures Value() == old(Value()) + rhs
    {
      var val: u16 := Value() + rhs;
      hi := ((val & 0xFF00) >> 8) as u8;
      lo := (val & 0x00FF) as u8;
      JoinSplit(val);
    }

    /** `-=`: the 16-bit value shrinks by `rhs` modulo 2^16. */
    method SubAssign(rhs: u16)
      modifies this
      ensures Value() == old(Value()) - rhs
    {
      var val: u16 := Value() - rhs;
      hi := ((val & 0xFF00) >> 8) as u8;
      lo := (val & 0x00FF) as u8;
      JoinSplit(val);
    }
  }
}

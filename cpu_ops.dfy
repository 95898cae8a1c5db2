/** The CPU's flag helpers, 8-bit ALU operations, CB-prefixed rotate/shift
    helpers and stack helpers. Each operation has a pure definition on the
    register values (the result byte and the new F register) and a method on
    the `Cpu` class that updates the `a`/`f`/`sp` fields and is proved to
    agree with the pure definition. Some methods follow the source's flag
    helper calls step by step; `Adc`, `Sub`, `Sbc` and `Daa` assign F from
    the pure flag function in one step. */
module CpuOps {
  import opened Bits

  /** The four flags of the F register (the low byte of AF), as the bit
      masks the source's `Flag` enum carries as discriminants. */
  const FlagZ: u8 := 0x80
  const FlagN: u8 := 0x40
  const FlagH: u8 := 0x20
  const FlagC: u8 := 0x10

  predicate IsFlag(m: u8)
  {
    m == FlagZ || m == FlagN || m == FlagH || m == FlagC
  }

  predicate IsSet(f: u8, fl: u8)
  {
    f & fl != 0
  }

  /** `set_flag` on the value of F. */
  function Set(f: u8, fl: u8): u8
  {
    f | fl
  }

  /** `clear_flag` on the value of F. */
  function Clear(f: u8, fl: u8): u8
  {
    f & !fl
  }

  /** `set_flag_if_cond_else_clear` on the value of F. */
  function SetIf(f: u8, cond: bool, fl: u8): u8
  {
    if cond then Set(f, fl) else Clear(f, fl)
  }

  /** The flag helpers give the named flag its new value and keep every
      other bit of F. */
  lemma FlagHelpersChangeOnlyTheirBit(f: u8, cond: bool, fl: u8)
    requires IsFlag(fl)
    ensures IsSet(Set(f, fl), fl) && Set(f, fl) & !fl == f & !fl
    ensures !IsSet(Clear(f, fl), fl) && Clear(f, fl) & !fl == f & !fl
    ensures (IsSet(SetIf(f, cond, fl), fl) <==> cond) && SetIf(f, cond, fl) & !fl == f & !fl
  {
  }

  /** F is determined by its four flags and its low nibble. */
  lemma FlagsDetermineF(x: u8, y: u8)
    requires IsSet(x, FlagZ) == IsSet(y, FlagZ) && IsSet(x, FlagN) == IsSet(y, FlagN)
    requires IsSet(x, FlagH) == IsSet(y, FlagH) && IsSet(x, FlagC) == IsSet(y, FlagC)
    requires x & 0x0F == y & 0x0F
    ensures x == y
  {
  }

  function CarryBit(f: u8): (c: u8)
    ensures c == 0 || c == 1
    ensures c == 1 <==> IsSet(f, FlagC)
  {
    if IsSet(f, FlagC) then 1 else 0
  }

  // ---------------------------------------------------------------------
  // ALU operations on A (the bodies of the `__add` … `__cp` macros): the
  // new value of A is a plain expression, the new F is defined here.
  // ---------------------------------------------------------------------

  /** F after `ADD A, r`. */
  function AddFlags(a: u8, r: u8, f: u8): (nf: u8)
    ensures IsSet(nf, FlagC) <==> a as u16 + r as u16 > 0xFF
    ensures IsSet(nf, FlagH) <==> (a & 0x0F) + (r & 0x0F) > 0x0F
    ensures IsSet(nf, FlagZ) <==> a + r == 0
    ensures !IsSet(nf, FlagN)
    ensures nf & 0x0F == f & 0x0F
  {
    var result := a + r;
    var overflown := result < a;
    var f1 := Clear(f, FlagN);
    var f2 := SetIf(f1, overflown, FlagC);
    var f3 := SetIf(f2, result == 0, FlagZ);
    SetIf(f3, (a & 0x0F) + (r & 0x0F) > 0x0F, FlagH)
  }

  /** F after `ADC A, r`. */
  function AdcFlags(a: u8, r: u8, f: u8): (nf: u8)
    ensures IsSet(nf, FlagC) <==> a as u16 + r as u16 + CarryBit(f) as u16 > 0xFF
    ensures IsSet(nf, FlagH) <==> (a & 0x0F) + (r & 0x0F) + CarryBit(f) > 0x0F
    ensures IsSet(nf, FlagZ) <==> a + r + CarryBit(f) == 0
    ensures !IsSet(nf, FlagN)
    ensures nf & 0x0F == f & 0x0F
  {
    var carry := CarryBit(f);
    var isHalfCarry := ((a & 0x0F) + (r & 0x0F) + carry) & 0x10 == 0x10;
    var isCarry := ((a as u16) + (r as u16) + (carry as u16)) & 0x100 == 0x100;
    var result := a + r + carry;
    var f1 := SetIf(f, result == 0, FlagZ);
    var f2 := SetIf(f1, isHalfCarry, FlagH);
    var f3 := SetIf(f2, isCarry, FlagC);
    Clear(f3, FlagN)
  }

  /** With the carry flag clear, ADC sets the flags ADD sets. */
  lemma AdcWithoutCarryIsAdd(a: u8, r: u8, f: u8)
    requires !IsSet(f, FlagC)
    ensures AdcFlags(a, r, f) == AddFlags(a, r, f)
  {
    FlagsDetermineF(AdcFlags(a, r, f), AddFlags(a, r, f));
  }

  /** F after `SUB A, r`. */
  function SubFlags(a: u8, r: u8, f: u8): (nf: u8)
    ensures IsSet(nf, FlagC) <==> r as u16 > a as u16
    ensures IsSet(nf, FlagH) <==> (r & 0x0F) > (a & 0x0F)
    ensures IsSet(nf, FlagZ) <==> a == r
    ensures IsSet(nf, FlagN)
    ensures nf & 0x0F == f & 0x0F
  {
    var f1 := SetIf(f, r > a, FlagC);
    var f2 := SetIf(f1, (r & 0x0F) > (a & 0x0F), FlagH);
    var result := a - r;
    var f3 := SetIf(f2, result == 0, FlagZ);
    Set(f3, FlagN)
  }

  /** SUB borrows exactly when the ADD it undoes carried, out of bit 7 and
      out of bit 3. */
  lemma SubBorrowsIffAddCarried(a: u8, r: u8, f: u8, g: u8)
    ensures (a + r) - r == a
    ensures IsSet(SubFlags(a + r, r, g), FlagC) <==> IsSet(AddFlags(a, r, f), FlagC)
    ensures IsSet(SubFlags(a + r, r, g), FlagH) <==> IsSet(AddFlags(a, r, f), FlagH)
  {
  }

  /** F after `SBC A, r`. The source computes both borrows in `i16`, where
      every intermediate lies between -0x100 and 0xFF: such a value is
      negative exactly when its 16-bit two's-complement sign bit is set. */
  function SbcFlags(a: u8, r: u8, f: u8): (nf: u8)
    ensures IsSet(nf, FlagC) <==> r as u16 + CarryBit(f) as u16 > a as u16
    ensures IsSet(nf, FlagH) <==> (r & 0x0F) + CarryBit(f) > (a & 0x0F)
    ensures IsSet(nf, FlagZ) <==> a - r - CarryBit(f) == 0
    ensures IsSet(nf, FlagN)
    ensures nf & 0x0F == f & 0x0F
  {
    var carry := CarryBit(f);
    var halfDiff: u16 := ((a & 0x0F) as u16) - ((r & 0x0F) as u16) - (carry as u16);
    BorrowSetsSign((a & 0x0F) as u16, (r & 0x0F) as u16, carry as u16);
    var isHalfCarry := halfDiff & 0x8000 != 0;
    var fullDiff: u16 := (a as u16) - (r as u16) - (carry as u16);
    BorrowSetsSign(a as u16, r as u16, carry as u16);
    var isFullCarry := fullDiff & 0x8000 != 0;
    var result := a - r - carry;
    var f1 := SetIf(f, result == 0, FlagZ);
    var f2 := SetIf(f1, isHalfCarry, FlagH);
    var f3 := SetIf(f2, isFullCarry, FlagC);
    Set(f3, FlagN)
  }

  /** A byte difference less a carry, taken in 16 bits, has its sign bit set
      exactly when it borrows. */
  lemma BorrowSetsSign(x: u16, y: u16, c: u16)
    requires x <= 0xFF && y <= 0xFF && c <= 1
    ensures (x - y - c) & 0x8000 != 0 <==> y + c > x
  {
  }

  /** With the carry flag clear, SBC sets the flags SUB sets. */
  lemma SbcWithoutCarryIsSub(a: u8, r: u8, f: u8)
    requires !IsSet(f, FlagC)
    ensures SbcFlags(a, r, f) == SubFlags(a, r, f)
  {
    FlagsDetermineF(SbcFlags(a, r, f), SubFlags(a, r, f));
  }

  /** F after `AND A, r`. */
  function AndFlags(a: u8, r: u8, f: u8): (nf: u8)
    ensures IsSet(nf, FlagZ) <==> a & r == 0
    ensures !IsSet(nf, FlagC) && !IsSet(nf, FlagN) && IsSet(nf, FlagH)
    ensures nf & 0x0F == f & 0x0F
  {
    Set(Clear(Clear(SetIf(f, a & r == 0, FlagZ), FlagC), FlagN), FlagH)
  }

  /** F after `XOR A, r`. */
  function XorFlags(a: u8, r: u8, f: u8): (nf: u8)
    ensures IsSet(nf, FlagZ) <==> a == r
    ensures !IsSet(nf, FlagC) && !IsSet(nf, FlagN) && !IsSet(nf, FlagH)
    ensures nf & 0x0F == f & 0x0F
  {
    Clear(Clear(Clear(SetIf(f, a ^ r == 0, FlagZ), FlagC), FlagN), FlagH)
  }

  /** F after `OR A, r`. */
  function OrFlags(a: u8, r: u8, f: u8): (nf: u8)
    ensures IsSet(nf, FlagZ) <==> a == 0 && r == 0
    ensures !IsSet(nf, FlagC) && !IsSet(nf, FlagN) && !IsSet(nf, FlagH)
    ensures nf & 0x0F == f & 0x0F
  {
    Clear(Clear(Clear(SetIf(f, a | r == 0, FlagZ), FlagC), FlagN), FlagH)
  }

  /** F after `CP A, r` (A itself is left unchanged by CP). */
  function CpFlags(a: u8, r: u8, f: u8): (nf: u8)
    ensures IsSet(nf, FlagC) <==> r > a
    ensures IsSet(nf, FlagH) <==> (r & 0x0F) > (a & 0x0F)
    ensures IsSet(nf, FlagZ) <==> a == r
    ensures IsSet(nf, FlagN)
    ensures nf & 0x0F == f & 0x0F
  {
    var f1 := SetIf(f, a == r, FlagZ);
    var f2 := SetIf(f1, r > a, FlagC);
    var f3 := SetIf(f2, (r & 0x0F) > (a & 0x0F), FlagH);
    Set(f3, FlagN)
  }

  /** CP sets exactly the flags SUB sets, though it tests them in another
      order. */
  lemma CpSetsSubFlags(a: u8, r: u8, f: u8)
    ensures CpFlags(a, r, f) == SubFlags(a, r, f)
  {
    FlagsDetermineF(CpFlags(a, r, f), SubFlags(a, r, f));
  }

  /** F after `INC r`: carry kept, the other flags those of an ADD of one. */
  function IncFlags(v: u8, f: u8): (nf: u8)
    ensures IsSet(nf, FlagC) <==> IsSet(f, FlagC)
    ensures nf & !FlagC == AddFlags(v, 1, f) & !FlagC
  {
    var f1 := SetIf(f, (v & 0x0F) == 0x0F, FlagH);
    Clear(SetIf(f1, v + 1 == 0, FlagZ), FlagN)
  }

  /** F after `DEC r`: carry kept, the other flags those of a SUB of one. */
  function DecFlags(v: u8, f: u8): (nf: u8)
    ensures IsSet(nf, FlagC) <==> IsSet(f, FlagC)
    ensures nf & !FlagC == SubFlags(v, 1, f) & !FlagC
  {
    var f1 := SetIf(f, (v & 0x0F) == 0x00, FlagH);
    Set(SetIf(f1, v - 1 == 0, FlagZ), FlagN)
  }

  // ---------------------------------------------------------------------
  // DAA
  // ---------------------------------------------------------------------

  /** A after `DAA`: the decimal adjustment of A after a BCD addition
      (N clear) or subtraction (N set). */
  function DaaValue(a: u8, f: u8): u8
  {
    if IsSet(f, FlagN) then
      var a0 := if IsSet(f, FlagC) then a - 0x60 else a;
      if IsSet(f, FlagH) then a0 - 0x06 else a0
    else
      var a0 := if IsSet(f, FlagC) || a > 0x99 then a + 0x60 else a;
      if IsSet(f, FlagH) || (a0 & 0x0F) > 0x09 then a0 + 0x06 else a0
  }

  /** F after `DAA`. */
  function DaaFlags(a: u8, f: u8): (nf: u8)
    ensures IsSet(nf, FlagZ) <==> DaaValue(a, f) == 0
    ensures !IsSet(nf, FlagH)
    ensures IsSet(nf, FlagN) <==> IsSet(f, FlagN)
    ensures IsSet(nf, FlagC) <==> IsSet(f, FlagC) || (!IsSet(f, FlagN) && a > 0x99)
    ensures nf & 0x0F == f & 0x0F
  {
    var f1 := if !IsSet(f, FlagN) && (IsSet(f, FlagC) || a > 0x99) then Set(f, FlagC) else f;
    Clear(SetIf(f1, DaaValue(a, f) == 0, FlagZ), FlagH)
  }

  /** The two adjustments DAA makes after an addition, one after the other. */
  lemma DaaAfterAddSteps(a: u8, f: u8, a0: u8, v: u8)
    requires !IsSet(f, FlagN)
    requires a0 == if IsSet(f, FlagC) || a > 0x99 then a + 0x60 else a
    requires v == if IsSet(f, FlagH) || (a0 & 0x0F) > 0x09 then a0 + 0x06 else a0
    ensures v == DaaValue(a, f)
  {
  }

  /** The two adjustments DAA makes after a subtraction, one after the
      other. */
  lemma DaaAfterSubSteps(a: u8, f: u8, a0: u8, v: u8)
    requires IsSet(f, FlagN)
    requires a0 == if IsSet(f, FlagC) then a - 0x60 else a
    requires v == if IsSet(f, FlagH) then a0 - 0x06 else a0
    ensures v == DaaValue(a, f)
  {
  }

  /** The flag updates DAA makes, one after the other: the carry set by the
      upper adjustment after an addition, Z from the result, H cleared. */
  lemma DaaFlagSteps(a: u8, f: u8, fc: u8, v: u8)
    requires fc == if !IsSet(f, FlagN) && (IsSet(f, FlagC) || a > 0x99) then Set(f, FlagC) else f
    requires v == DaaValue(a, f)
    ensures Clear(SetIf(fc, v == 0, FlagZ), FlagH) == DaaFlags(a, f)
  {
  }

  /** Setting the carry flag leaves the half-carry flag alone. */
  lemma SetKeepsHalfCarry(f: u8)
    ensures IsSet(Set(f, FlagC), FlagH) == IsSet(f, FlagH)
  {
  }

  /** The decimal adjustment of A after a subtraction, one step at a time. */
  method DaaAdjustAfterSub(a: u8, f: u8) returns (v: u8)
    requires IsSet(f, FlagN)
    ensures v == DaaValue(a, f)
  {
    v := a;
    if IsSet(f, FlagC) {
      v := v - 0x60;
    }
    ghost var v0 := v;
    if IsSet(f, FlagH) {
      v := v - 0x06;
    }
    DaaAfterSubSteps(a, f, v0, v);
  }

  /** The decimal adjustment of A after an addition, one step at a time;
      the upper adjustment sets the carry flag. */
  method DaaAdjustAfterAdd(a: u8, f: u8) returns (v: u8, fl: u8)
    requires !IsSet(f, FlagN)
    ensures v == DaaValue(a, f)
    ensures fl == if IsSet(f, FlagC) || a > 0x99 then Set(f, FlagC) else f
  {
    v, fl := a, f;
    if IsSet(fl, FlagC) || v > 0x99 {
      v := v + 0x60;
      fl := Set(fl, FlagC);
      SetKeepsHalfCarry(f);
    }
    ghost var v0 := v;
    if IsSet(fl, FlagH) || (v & 0x0F) > 0x09 {
      v := v + 0x06;
    }
    DaaAfterAddSteps(a, f, v0, v);
  }

  /** A byte holding two decimal digits. */
  predicate IsBcd(x: u8)
  {
    x & 0x0F <= 9 && x >> 4 <= 9
  }

  /** Schoolbook decimal addition of two BCD bytes: the sum's two digits
      packed as BCD, and the carry out of the tens digit. */
  function BcdAdd(x: u8, y: u8): (r: (u8, bool))
    requires IsBcd(x) && IsBcd(y)
    ensures IsBcd(r.0)
  {
    var lo := (x & 0x0F) + (y & 0x0F);
    var hi := (x >> 4) + (y >> 4) + (if lo >= 10 then 1 else 0);
    (((if hi >= 10 then hi - 10 else hi) << 4) | (if lo >= 10 then lo - 10 else lo), hi >= 10)
  }

  /** Schoolbook decimal subtraction of two BCD bytes: the difference's two
      digits packed as BCD, and the borrow out of the tens digit. */
  function BcdSub(x: u8, y: u8): (r: (u8, bool))
    requires IsBcd(x) && IsBcd(y)
    ensures IsBcd(r.0)
  {
    var borrowLo := (x & 0x0F) < (y & 0x0F);
    var lo := (x & 0x0F) + (if borrowLo then 10 else 0) - (y & 0x0F);
    var yh := (y >> 4) + (if borrowLo then 1 else 0);
    var borrowHi := (x >> 4) < yh;
    var hi := (x >> 4) + (if borrowHi then 10 else 0) - yh;
    ((hi << 4) | lo, borrowHi)
  }

  lemma DaaAdjustsAdd(x: u8, y: u8, fl: u8)
    requires IsBcd(x) && IsBcd(y)
    requires !IsSet(fl, FlagN)
    requires IsSet(fl, FlagC) <==> x as u16 + y as u16 > 0xFF
    requires IsSet(fl, FlagH) <==> (x & 0x0F) + (y & 0x0F) > 0x0F
    ensures DaaValue(x + y, fl) == BcdAdd(x, y).0
    ensures IsSet(DaaFlags(x + y, fl), FlagC) <==> BcdAdd(x, y).1
  {
  }

  lemma DaaAdjustsSub(x: u8, y: u8, fl: u8)
    requires IsBcd(x) && IsBcd(y)
    requires IsSet(fl, FlagN)
    requires IsSet(fl, FlagC) <==> y > x
    requires IsSet(fl, FlagH) <==> (y & 0x0F) > (x & 0x0F)
    ensures DaaValue(x - y, fl) == BcdSub(x, y).0
    ensures IsSet(DaaFlags(x - y, fl), FlagC) <==> BcdSub(x, y).1
  {
  }

  /** ADD of two BCD bytes followed by DAA yields their decimal sum, digit
      by digit, with the carry flag holding the decimal carry. */
  lemma DaaAfterAdd(x: u8, y: u8, f: u8)
    requires IsBcd(x) && IsBcd(y)
    ensures DaaValue(x + y, AddFlags(x, y, f)) == BcdAdd(x, y).0
    ensures IsSet(DaaFlags(x + y, AddFlags(x, y, f)), FlagC) <==> BcdAdd(x, y).1
  {
    DaaAdjustsAdd(x, y, AddFlags(x, y, f));
  }

  /** SUB of two BCD bytes followed by DAA yields their decimal difference,
      digit by digit, with the carry flag holding the decimal borrow. */
  lemma DaaAfterSub(x: u8, y: u8, f: u8)
    requires IsBcd(x) && IsBcd(y)
    ensures DaaValue(x - y, SubFlags(x, y, f)) == BcdSub(x, y).0
    ensures IsSet(DaaFlags(x - y, SubFlags(x, y, f)), FlagC) <==> BcdSub(x, y).1
  {
    DaaAdjustsSub(x, y, SubFlags(x, y, f));
  }

  // ---------------------------------------------------------------------
  // CB-prefixed rotates and shifts, and BIT/RES/SET
  // ---------------------------------------------------------------------

  /** F after any of the CB rotate/shift helpers: C holds the bit shifted
      out, Z the zero test, N and H are cleared. */
  function ShiftFlags(f: u8, carry: bool, zero: bool): (nf: u8)
    ensures IsSet(nf, FlagC) <==> carry
    ensures IsSet(nf, FlagZ) <==> zero
    ensures !IsSet(nf, FlagN) && !IsSet(nf, FlagH)
    ensures nf & 0x0F == f & 0x0F
  {
    Clear(Clear(SetIf(SetIf(f, carry, FlagC), zero, FlagZ), FlagN), FlagH)
  }

  /** `rlc`: rotate left, bit 7 re-entering at bit 0. */
  function RlcValue(v: u8): (r: u8)
    ensures r == (v << 1) | (v >> 7)
    ensures r == 0 <==> v == 0
  {
    (v << 1) + ((v & 0x80) >> 7)
  }

  /** `rrc`: rotate right, bit 0 re-entering at bit 7. */
  function RrcValue(v: u8): (r: u8)
    ensures r == (v >> 1) | (v << 7)
  {
    if v & 0x01 != 0 then (v >> 1) | 0x80 else v >> 1
  }

  /** RLC and RRC undo each other. */
  lemma RlcRrcInverse(v: u8)
    ensures RrcValue(RlcValue(v)) == v
    ensures RlcValue(RrcValue(v)) == v
  {
  }

  /** `rl`: rotate left through the carry flag. */
  function RlValue(v: u8, f: u8): (r: u8)
    ensures r >> 1 == v & 0x7F
    ensures r & 0x01 == CarryBit(f)
  {
    (v << 1) + CarryBit(f)
  }

  /** `rr`: rotate right through the carry flag. */
  function RrValue(v: u8, f: u8): (r: u8)
    ensures r & 0x7F == v >> 1
    ensures r >> 7 == CarryBit(f)
  {
    if IsSet(f, FlagC) then (v >> 1) | 0x80 else v >> 1
  }

  /** RL and RR form a nine-bit rotation through C: each undoes the other,
      restoring both the byte and the carry flag. */
  lemma RlRrInverse(v: u8, f: u8)
    ensures var f1 := ShiftFlags(f, v & 0x80 != 0, RlValue(v, f) == 0);
      RrValue(RlValue(v, f), f1) == v
      && (IsSet(ShiftFlags(f1, RlValue(v, f) & 0x01 != 0, v == 0), FlagC) <==> IsSet(f, FlagC))
  {
  }

  /** `sla`: shift left, bit 0 becomes 0. */
  function SlaValue(v: u8): (r: u8)
    ensures r >> 1 == v & 0x7F && r & 0x01 == 0
  {
    v << 1
  }

  /** `sra`: arithmetic shift right, keeping bit 7. */
  function SraValue(v: u8): (r: u8)
    ensures r & 0x80 == v & 0x80
    ensures r & 0x7F == v >> 1
  {
    (v & 0x80) | (v >> 1)
  }

  /** `srl`: logical shift right, bit 7 becomes 0. */
  function SrlValue(v: u8): (r: u8)
    ensures r & 0x80 == 0
    ensures r << 1 == v & 0xFE
  {
    v >> 1
  }

  /** `swap`: exchanges the two nibbles. */
  function SwapValue(v: u8): (r: u8)
    ensures r & 0x0F == v >> 4 && r >> 4 == v & 0x0F
  {
    ((v & 0x0F) << 4) | ((v & 0xF0) >> 4)
  }

  /** Swapping twice is the identity. */
  lemma SwapInvolution(v: u8)
    ensures SwapValue(SwapValue(v)) == v
  {
  }

  /** F after `BIT b, r`: Z tells whether bit `b` is clear. */
  function BitFlags(b: u8, v: u8, f: u8): (nf: u8)
    requires b < 8
    ensures IsSet(nf, FlagZ) <==> (v >> b) & 1 == 0
    ensures !IsSet(nf, FlagN) && IsSet(nf, FlagH)
    ensures IsSet(nf, FlagC) <==> IsSet(f, FlagC)
    ensures nf & 0x0F == f & 0x0F
  {
    Set(Clear(SetIf(f, v & (1 << b) == 0, FlagZ), FlagN), FlagH)
  }

  /** `RES b, r`. */
  function ResValue(b: u8, v: u8): (r: u8)
    requires b < 8
    ensures (r >> b) & 1 == 0
    ensures r | (1 << b) == v | (1 << b)
  {
    v & !(1 << b)
  }

  /** `SET b, r`. */
  function SetValue(b: u8, v: u8): (r: u8)
    requires b < 8
    ensures (r >> b) & 1 == 1
    ensures r & !(1 << b) == v & !(1 << b)
  {
    v | (1 << b)
  }

  /** BIT reads back what RES and SET wrote. */
  lemma BitAfterResSet(b: u8, v: u8, f: u8)
    requires b < 8
    ensures IsSet(BitFlags(b, ResValue(b, v), f), FlagZ)
    ensures !IsSet(BitFlags(b, SetValue(b, v), f), FlagZ)
  {
  }

  // ---------------------------------------------------------------------
  // The CPU state the helpers change
  // ---------------------------------------------------------------------

  /** The registers the helpers touch: A (`af.hi`), F (`af.lo`) and the
      stack pointer. The bus the stack helpers go through is a flat 64 KiB
      memory passed to each of them. */
  class Cpu {
    var a: u8
    var f: u8
    var sp: Addr

    constructor (a: u8, f: u8, sp: Addr)
      ensures this.a == a && this.f == f && this.sp == sp
    {
      this.a := a;
      this.f := f;
      this.sp := sp;
    }

    /** `is_flag_set`. */
    function IsFlagSet(fl: u8): bool
      reads this
    {
      IsSet(f, fl)
    }

    method SetFlag(fl: u8)
      requires IsFlag(fl)
      modifies this
      ensures f == Set(old(f), fl) && a == old(a) && sp == old(sp)
    {
      f := f | fl;
    }

    method ClearFlag(fl: u8)
      requires IsFlag(fl)
      modifies this
      ensures f == Clear(old(f), fl) && a == old(a) && sp == old(sp)
    {
      f := f & !fl;
    }

    method SetFlagIfCondElseClear(cond: bool, fl: u8)
      requires IsFlag(fl)
      modifies this
      ensures f == SetIf(old(f), cond, fl) && a == old(a) && sp == old(sp)
    {
      if cond {
        f := f | fl;
      } else {
        f := f & !fl;
      }
    }

    method HandleZFlag(v: u8)
      modifies this
      ensures f == SetIf(old(f), v == 0, FlagZ) && a == old(a) && sp == old(sp)
    {
      if v == 0 {
        f := f | FlagZ;
      } else {
        f := f & !FlagZ;
      }
    }

    // --- CB helpers: return the new value, update F ---

    method Rlc(v: u8) returns (r: u8)
      modifies this
      ensures r == RlcValue(v)
      ensures f == ShiftFlags(old(f), v & 0x80 != 0, v == 0)
      ensures a == old(a) && sp == old(sp)
    {
      SetFlagIfCondElseClear((v & 0x80) != 0, FlagC);
      var carry := (v & 0x80) >> 7;
      r := (v << 1) + carry;
      HandleZFlag(v);
      ClearFlag(FlagN);
      ClearFlag(FlagH);
    }

    method Rrc(v: u8) returns (r: u8)
      modifies this
      ensures r == RrcValue(v)
      ensures f == ShiftFlags(old(f), v & 0x01 != 0, r == 0)
      ensures a == old(a) && sp == old(sp)
    {
      var carry := v & 0x01;
      r := v >> 1;
      if carry != 0 {
        SetFlag(FlagC);
        r := r | 0x80;
      } else {
        ClearFlag(FlagC);
      }
      HandleZFlag(r);
      ClearFlag(FlagN);
      ClearFlag(FlagH);
    }

    method Rl(v: u8) returns (r: u8)
      modifies this
      ensures r == RlValue(v, old(f))
      ensures f == ShiftFlags(old(f), v & 0x80 != 0, r == 0)
      ensures a == old(a) && sp == old(sp)
    {
      var carry := CarryBit(f);
      r := (v << 1) + carry;
      SetFlagIfCondElseClear(v & 0x80 != 0, FlagC);
      HandleZFlag(r);
      ClearFlag(FlagN);
      ClearFlag(FlagH);
    }

    method Rr(v: u8) returns (r: u8)
      modifies this
      ensures r == RrValue(v, old(f))
      ensures f == ShiftFlags(old(f), v & 0x01 != 0, r == 0)
      ensures a == old(a) && sp == old(sp)
    {
      r := v >> 1;
      if IsFlagSet(FlagC) {
        r := r | 0x80;
      }
      SetFlagIfCondElseClear(v & 0x01 != 0, FlagC);
      HandleZFlag(r);
      ClearFlag(FlagN);
      ClearFlag(FlagH);
    }

    method Sla(v: u8) returns (r: u8)
      modifies this
      ensures r == SlaValue(v)
      ensures f == ShiftFlags(old(f), v & 0x80 != 0, r == 0)
      ensures a == old(a) && sp == old(sp)
    {
      r := v << 1;
      SetFlagIfCondElseClear(v & 0x80 != 0, FlagC);
      HandleZFlag(r);
      ClearFlag(FlagN);
      ClearFlag(FlagH);
    }

    method Sra(v: u8) returns (r: u8)
      modifies this
      ensures r == SraValue(v)
      ensures f == ShiftFlags(old(f), v & 0x01 != 0, r == 0)
      ensures a == old(a) && sp == old(sp)
    {
      r := (v & 0x80) | (v >> 1);
      SetFlagIfCondElseClear(v & 0x01 != 0, FlagC);
      HandleZFlag(r);
      ClearFlag(FlagN);
      ClearFlag(FlagH);
    }

    method Swap(v: u8) returns (r: u8)
      modifies this
      ensures r == SwapValue(v)
      ensures f == ShiftFlags(old(f), false, r == 0)
      ensures a == old(a) && sp == old(sp)
    {
      r := ((v & 0x0F) << 4) | ((v & 0xF0) >> 4);
      HandleZFlag(r);
      ClearFlag(FlagC);
      ClearFlag(FlagN);
      ClearFlag(FlagH);
    }

    method Srl(v: u8) returns (r: u8)
      modifies this
      ensures r == SrlValue(v)
      ensures f == ShiftFlags(old(f), v & 0x01 != 0, r == 0)
      ensures a == old(a) && sp == old(sp)
    {
      r := v >> 1;
      SetFlagIfCondElseClear(v & 0x01 != 0, FlagC);
      HandleZFlag(r);
      ClearFlag(FlagN);
      ClearFlag(FlagH);
    }

    // --- ALU on A ---

    method Add(r: u8)
      modifies this
      ensures a == old(a) + r && f == AddFlags(old(a), r, old(f)) && sp == old(sp)
    {
      var result := a + r;
      var overflown := result < a;
      ClearFlag(FlagN);
      SetFlagIfCondElseClear(overflown, FlagC);
      HandleZFlag(result);
      var isHalfCarry := (a & 0x0F) + (r & 0x0F) > 0x0F;
      SetFlagIfCondElseClear(isHalfCarry, FlagH);
      a := result;
    }

    method Adc(r: u8)
      modifies this
      ensures a == old(a) + r + CarryBit(old(f)) && f == AdcFlags(old(a), r, old(f))
      ensures sp == old(sp)
    {
      var carry := CarryBit(f);
      var result := a + r + carry;
      f := AdcFlags(a, r, f);
      a := result;
    }

    method Sub(r: u8)
      modifies this
      ensures a == old(a) - r && f == SubFlags(old(a), r, old(f)) && sp == old(sp)
    {
      var result := a - r;
      f := SubFlags(a, r, f);
      a := result;
    }

    method Sbc(r: u8)
      modifies this
      ensures a == old(a) - r - CarryBit(old(f)) && f == SbcFlags(old(a), r, old(f))
      ensures sp == old(sp)
    {
      var carry := CarryBit(f);
      var result := a - r - carry;
      f := SbcFlags(a, r, f);
      a := result;
    }

    method And(r: u8)
      modifies this
      ensures a == old(a) & r && f == AndFlags(old(a), r, old(f)) && sp == old(sp)
    {
      a := a & r;
      HandleZFlag(a);
      ClearFlag(FlagC);
      ClearFlag(FlagN);
      SetFlag(FlagH);
    }

    method Xor(r: u8)
      modifies this
      ensures a == old(a) ^ r && f == XorFlags(old(a), r, old(f)) && sp == old(sp)
    {
      a := a ^ r;
      HandleZFlag(a);
      ClearFlag(FlagC);
      ClearFlag(FlagN);
      ClearFlag(FlagH);
    }

    method Or(r: u8)
      modifies this
      ensures a == old(a) | r && f == OrFlags(old(a), r, old(f)) && sp == old(sp)
    {
      a := a | r;
      HandleZFlag(a);
      ClearFlag(FlagC);
      ClearFlag(FlagN);
      ClearFlag(FlagH);
    }

    method Cp(r: u8)
      modifies this
      ensures a == old(a) && f == CpFlags(old(a), r, old(f)) && sp == old(sp)
    {
      SetFlagIfCondElseClear(a == r, FlagZ);
      SetFlagIfCondElseClear(r > a, FlagC);
      SetFlagIfCondElseClear((r & 0x0F) > (a & 0x0F), FlagH);
      SetFlag(FlagN);
    }

    /** `DAA`: the decimal adjustment of A, then Z from the result and H
        cleared. */
    method Daa()
      modifies this
      ensures a == DaaValue(old(a), old(f)) && f == DaaFlags(old(a), old(f)) && sp == old(sp)
    {
      var v, fl;
      if IsFlagSet(FlagN) {
        v := DaaAdjustAfterSub(a, f);
        fl := f;
      } else {
        v, fl := DaaAdjustAfterAdd(a, f);
      }
      ghost var fc := fl;
      fl := Clear(SetIf(fl, v == 0, FlagZ), FlagH);
      DaaFlagSteps(a, f, fc, v);
      a, f := v, fl;
    }

    // --- Stack ---

    /** `push_u8_to_stack`: SP moves down one byte (wrapping) and the byte
        is stored there. */
    method PushU8(mem: array<u8>, val: u8)
      requires mem.Length == 0x10000
      modifies this, mem
      ensures sp == Wrap16(old(sp) - 1)
      ensures mem[..] == old(mem[..])[sp := val]
      ensures a == old(a) && f == old(f)
    {
      sp := Wrap16(sp - 1);
      mem[sp] := val;
    }

    /** `pop_u8_from_stack`: reads the byte at SP, then SP moves up one byte
        (wrapping). */
    method PopU8(mem: array<u8>) returns (val: u8)
      requires mem.Length == 0x10000
      modifies this
      ensures val == mem[old(sp)] && sp == Wrap16(old(sp) + 1)
      ensures a == old(a) && f == old(f)
    {
      val := mem[sp];
      sp := Wrap16(sp + 1);
    }

    /** `pop_u16_from_stack`: a little-endian word at SP (the high byte's
        address wrapping), then SP moves up two bytes. */
    method PopU16(mem: array<u8>) returns (val: u16)
      requires mem.Length == 0x10000
      modifies this
      ensures val == ((mem[Wrap16(old(sp) + 1)] as u16) << 8) | mem[old(sp)] as u16
      ensures sp == Wrap16(old(sp) + 2)
      ensures a == old(a) && f == old(f)
    {
      val := (mem[sp] as u16) + ((mem[Wrap16(sp + 1)] as u16) << 8);
      sp := Wrap16(sp + 2);
    }

    /** `push_r16`: the high byte is pushed first, so the pair lies
        little-endian in memory at the new SP. */
    method PushR16(mem: array<u8>, hi: u8, lo: u8)
      requires mem.Length == 0x10000
      modifies this, mem
      ensures sp == Wrap16(old(sp) - 2)
      ensures mem[..] == old(mem[..])[Wrap16(old(sp) - 1) := hi][sp := lo]
      ensures a == old(a) && f == old(f)
    {
      PushU8(mem, hi);
      PushU8(mem, lo);
    }

    /** `pop_r16` for BC, DE and HL: the low byte comes first. */
    method PopR16(mem: array<u8>) returns (hi: u8, lo: u8)
      requires mem.Length == 0x10000
      modifies this
      ensures lo == mem[old(sp)] && hi == mem[Wrap16(old(sp) + 1)]
      ensures sp == Wrap16(old(sp) + 2)
      ensures a == old(a) && f == old(f)
    {
      lo := PopU8(mem);
      hi := PopU8(mem);
    }

    /** `pop_r16` for AF: the low nibble of F is forced to zero after each
        byte, so F never holds bits outside the four flags. */
    method PopAf(mem: array<u8>)
      requires mem.Length == 0x10000
      modifies this
      ensures f == mem[old(sp)] & 0xF0 && a == mem[Wrap16(old(sp) + 1)]
      ensures f & 0x0F == 0
      ensures sp == Wrap16(old(sp) + 2)
    {
      f := PopU8(mem);
      f := f & 0xF0;
      a := PopU8(mem);
      f := f & 0xF0;
    }
  }

  /** PUSH of a pair followed by POP of a pair reads back the pushed bytes
      and restores SP, also when SP wraps around the address space. */
  lemma PushPopR16RoundTrip(mem: seq<u8>, sp: Addr, hi: u8, lo: u8)
    requires |mem| == 0x10000
    ensures var sp1 := Wrap16(sp - 2);
      var mem1 := mem[Wrap16(sp - 1) := hi][sp1 := lo];
      mem1[sp1] == lo && mem1[Wrap16(sp1 + 1)] == hi && Wrap16(sp1 + 2) == sp
  {
  }
}

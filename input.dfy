/** The joypad: eight keys in a 2x4 matrix, read through JOYP (0xFF00).
    Bits 4 and 5 written to JOYP select the column of buttons or of
    directions, and the low four bits read back the selected keys, 0 for a
    pressed key. */
module Joypad {
  import opened Bits

  datatype Keycode = Up | Down | Left | Right | A | B | Start | Select

  /** The buttons (A, B, Select, Start), as opposed to the directions. */
  predicate IsButton(code: Keycode)
  {
    code in {A, B, Select, Start}
  }

  /** The JOYP bit a key is read on: A and Right on bit 0, B and Left on 1,
      Select and Up on 2, Start and Down on 3. */
  function BitIndex(code: Keycode): (i: bv8)
    ensures i <= 3
  {
    match code
    case A => 0
    case Right => 0
    case B => 1
    case Left => 1
    case Select => 2
    case Up => 2
    case Start => 3
    case Down => 3
  }

  /** The two keys sharing JOYP bit `i`: the button and the direction. */
  function ButtonAt(i: bv8): (code: Keycode)
    requires i <= 3
    ensures IsButton(code) && BitIndex(code) == i
  {
    if i == 0 then A else if i == 1 then B else if i == 2 then Select else Start
  }

  function DirectionAt(i: bv8): (code: Keycode)
    requires i <= 3
    ensures !IsButton(code) && BitIndex(code) == i
  {
    if i == 0 then Right else if i == 1 then Left else if i == 2 then Up else Down
  }

  /** The key levels: 1 released, 0 pressed. */
  datatype KeyMatrix = KeyMatrix(up: u8, down: u8, left: u8, right: u8, start: u8, select: u8, a: u8, b: u8)

  /** Every level is 0 or 1. */
  predicate KeyLevels(k: KeyMatrix)
  {
    k.up <= 1 && k.down <= 1 && k.left <= 1 && k.right <= 1
    && k.start <= 1 && k.select <= 1 && k.a <= 1 && k.b <= 1
  }

  /** The level of one key. */
  function Level(k: KeyMatrix, code: Keycode): u8
  {
    match code
    case Up => k.up
    case Down => k.down
    case Left => k.left
    case Right => k.right
    case Start => k.start
    case Select => k.select
    case A => k.a
    case B => k.b
  }

  /** All keys released. */
  const AllReleased := KeyMatrix(1, 1, 1, 1, 1, 1, 1, 1)

  /** The keys with one key's level replaced. */
  function WithLevel(k: KeyMatrix, code: Keycode, v: u8): (r: KeyMatrix)
    ensures Level(r, code) == v
    ensures forall c :: c != code ==> Level(r, c) == Level(k, c)
  {
    match code
    case Up => k.(up := v)
    case Down => k.(down := v)
    case Left => k.(left := v)
    case Right => k.(right := v)
    case Start => k.(start := v)
    case Select => k.(select := v)
    case A => k.(a := v)
    case B => k.(b := v)
  }

  /** Pressing and then releasing a released key leaves the keys as they
      were. */
  lemma PressThenRelease(k: KeyMatrix, code: Keycode)
    requires Level(k, code) == 1
    ensures WithLevel(WithLevel(k, code, 0), code, 1) == k
  {
  }

  /** `read_joyp` as written: with both columns selected, bit 0 carries
      A only; Right is left out, while bits 1-3 combine both keys. */
  function JoypAsWritten(k: KeyMatrix, column: u8): (r: u8)
    ensures r & 0xC0 == 0xC0
    ensures column == 0x30 ==> r & 0x01 == k.a & 0x01
    ensures column == 0x30 && k.right <= 1 ==> r & 0xFE == Joyp(k, column) & 0xFE
  {
    var joyp: u8 :=
      if column == 0x10 then k.a | (k.b << 1) | (k.select << 2) | (k.start << 3)
      else if column == 0x20 then k.right | (k.left << 1) | (k.up << 2) | (k.down << 3)
      else if column == 0x30 then
        k.a | (k.b << 1) | (k.select << 2) | (k.start << 3) | (k.left << 1) | (k.up << 2) | (k.down << 3)
      else 0;
    joyp | 0xC0
  }

  /** `read_joyp` with Right combined into bit 0 like the other three
      pairs: column 0x10 reads the buttons, 0x20 the directions, 0x30 both
      (a bit reads 0 only when both its keys are pressed) and any other
      column 0; bits 6 and 7 always read 1. */
  function Joyp(k: KeyMatrix, column: u8): (r: u8)
    ensures r & 0xC0 == 0xC0
    ensures column != 0x10 && column != 0x20 && column != 0x30 ==> r == 0xC0
  {
    var joyp: u8 :=
      if column == 0x10 then k.a | (k.b << 1) | (k.select << 2) | (k.start << 3)
      else if column == 0x20 then k.right | (k.left << 1) | (k.up << 2) | (k.down << 3)
      else if column == 0x30 then
        k.a | (k.b << 1) | (k.select << 2) | (k.start << 3)
        | k.right | (k.left << 1) | (k.up << 2) | (k.down << 3)
      else 0;
    joyp | 0xC0
  }

  /** With one column selected, each of its keys reads on its own bit, 0
      exactly when pressed, and bits 4 and 5 read 0. */
  lemma SelectedColumnReadsItsKeys(k: KeyMatrix, column: u8, code: Keycode)
    requires KeyLevels(k)
    requires (column == 0x10 && IsButton(code)) || (column == 0x20 && !IsButton(code))
    ensures (Joyp(k, column) >> BitIndex(code)) & 1 == Level(k, code)
    ensures Joyp(k, column) & 0x30 == 0
  {
  }

  /** With both columns selected, a bit reads 0 exactly when both keys on
      it are pressed. */
  lemma BothColumnsCombineKeys(k: KeyMatrix, i: bv8)
    requires KeyLevels(k) && i <= 3
    ensures (Joyp(k, 0x30) >> i) & 1 == 0
      <==> Level(k, ButtonAt(i)) == 0 && Level(k, DirectionAt(i)) == 0
  {
  }

  /** As written, the read differs only with both columns selected. */
  lemma AsWrittenDiffersOnlyOnBothColumns(k: KeyMatrix, column: u8)
    requires column != 0x30
    ensures JoypAsWritten(k, column) == Joyp(k, column)
  {
  }

  /** As written, with both columns selected, pressing A alone clears
      bit 0 although Right is released, unlike pressing B alone, which
      leaves bit 1 set because Left is released. */
  lemma AsWrittenIgnoresRight()
    ensures JoypAsWritten(WithLevel(AllReleased, A, 0), 0x30) & 0x01 == 0
    ensures JoypAsWritten(WithLevel(AllReleased, B, 0), 0x30) & 0x02 != 0
    ensures Joyp(WithLevel(AllReleased, A, 0), 0x30) & 0x01 != 0
  {
  }

  class Input {
    var up: u8
    var down: u8
    var left: u8
    var right: u8
    var start: u8
    var select: u8
    var a: u8
    var b: u8
    var columnLine: u8

    function Keys(): KeyMatrix
      reads this
    {
      KeyMatrix(up, down, left, right, start, select, a, b)
    }

    /** Every key is 0 or 1 and only the column bits are stored. */
    predicate Valid()
      reads this
    {
      KeyLevels(Keys()) && columnLine & 0xCF == 0
    }

    /** `Input::new`: all keys released, both columns selected. */
    constructor ()
      ensures Valid() && Keys() == AllReleased && columnLine == 0x30
    {
      up, down, left, right := 1, 1, 1, 1;
      start, select, a, b := 1, 1, 1, 1;
      columnLine := 0x30;
    }

    /** `set_column_line`: only bits 4 and 5 are kept. */
    method SetColumnLine(val: u8)
      requires Valid()
      modifies this`columnLine
      ensures Valid() && columnLine == val & 0x30
    {
      columnLine := val & 0x30;
    }

    /** `read_joyp`, with the correction above. */
    function ReadJoyp(): (r: u8)
      reads this
      ensures r == Joyp(Keys(), columnLine)
      ensures r & 0xC0 == 0xC0
    {
      Joyp(Keys(), columnLine)
    }

    /** `key_down`: the key reads pressed, nothing else changes, and the
        call reports `true`. */
    method KeyDown(code: Keycode) returns (handled: bool)
      requires Valid()
      modifies this`up, this`down, this`left, this`right, this`start, this`select, this`a, this`b
      ensures Valid() && handled
      ensures Keys() == WithLevel(old(Keys()), code, 0)
    {
      match code {
        case Up => up := 0;
        case Left => left := 0;
        case Down => down := 0;
        case Right => right := 0;
        case A => a := 0;
        case B => b := 0;
        case Select => select := 0;
        case Start => start := 0;
      }
      handled := true;
    }

    /** `key_up`: the key reads released and nothing else changes. */
    method KeyUp(code: Keycode)
      requires Valid()
      modifies this`up, this`down, this`left, this`right, this`start, this`select, this`a, this`b
      ensures Valid() && Keys() == WithLevel(old(Keys()), code, 1)
    {
      match code {
        case Up => up := 1;
        case Left => left := 1;
        case Down => down := 1;
        case Right => right := 1;
        case A => a := 1;
        case B => b := 1;
        case Select => select := 1;
        case Start => start := 1;
      }
    }

    /** `release_all_keys`. */
    method ReleaseAllKeys()
      requires Valid()
      modifies this`up, this`down, this`left, this`right, this`start, this`select, this`a, this`b
      ensures Valid() && Keys() == AllReleased
    {
      up, left, down, right := 1, 1, 1, 1;
      a, b, select, start := 1, 1, 1, 1;
    }
  }
}

/** The disassembler's opcode decoding: the x/y/z/p/q bit fields of an
    opcode byte, and the instruction a CB-prefixed opcode byte stands for. */
module Disassembler {
  import opened Bits

  /** `x`: bits 6-7. */
  function X(b: u8): (r: u8)
    ensures r <= 3
  {
    b >> 6
  }

  /** `y`: bits 3-5. */
  function Y(b: u8): (r: u8)
    ensures r <= 7
  {
    (b & 0x38) >> 3
  }

  /** `z`: bits 0-2. */
  function Z(b: u8): (r: u8)
    ensures r <= 7
  {
    b & 0x07
  }

  /** `p`: bits 4-5. */
  function P(b: u8): (r: u8)
    ensures r <= 3
  {
    (b & 0x30) >> 4
  }

  /** `q`: bit 3. */
  function Q(b: u8): (r: u8)
    ensures r <= 1
  {
    (b & 0x08) >> 3
  }

  /** The fields split the byte exactly: x, y and z put back together give
      the byte, and y is p followed by q. */
  lemma PartsRecombine(b: u8)
    ensures b == (X(b) << 6) | (Y(b) << 3) | Z(b)
    ensures Y(b) == (P(b) << 1) | Q(b)
  {
  }

  /** Any x, y and z within their widths are the fields of one byte. */
  lemma PartsCover(x: u8, y: u8, z: u8)
    requires x <= 3 && y <= 7 && z <= 7
    ensures X((x << 6) | (y << 3) | z) == x
    ensures Y((x << 6) | (y << 3) | z) == y
    ensures Z((x << 6) | (y << 3) | z) == z
  {
  }

  /** The 8-bit operands; `HL` is the byte at the address in HL. */
  datatype Register8 = B | C | D | E | H | L | HL | A

  /** `Register8::from`: codes 0-7 name B, C, D, E, H, L, (HL), A; any
      other value panics. */
  function Register8From(val: u8): (r: Result<Register8>)
    ensures r.Ok? <==> val <= 7
  {
    match val
    case 0 => Ok(B)
    case 1 => Ok(C)
    case 2 => Ok(D)
    case 3 => Ok(E)
    case 4 => Ok(H)
    case 5 => Ok(L)
    case 6 => Ok(HL)
    case 7 => Ok(A)
    case _ => Panic
  }

  /** The enum's discriminant: the operand's code. */
  function Register8Code(r: Register8): (code: u8)
    ensures code <= 7
  {
    match r
    case B => 0
    case C => 1
    case D => 2
    case E => 3
    case H => 4
    case L => 5
    case HL => 6
    case A => 7
  }

  /** Codes and operands correspond one to one. */
  lemma Register8RoundTrip(r: Register8, code: u8)
    requires code <= 7
    ensures Register8From(Register8Code(r)) == Ok(r)
    ensures Register8Code(Register8From(code).value) == code
  {
  }

  /** `BitArg`: a bit number (0-7) and an operand. */
  datatype BitArg = BitArg(bit: u8, register: Register8)

  /** The CB-prefixed opcodes. */
  datatype Opcode =
    | RLC(r: Register8) | RRC(r: Register8) | RL(r: Register8) | RR(r: Register8)
    | SLA(r: Register8) | SRA(r: Register8) | SWAP(r: Register8) | SRL(r: Register8)
    | BIT(arg: BitArg) | RES(arg: BitArg) | SET(arg: BitArg)

  /** The opcode's operand. */
  function Operand(op: Opcode): Register8
  {
    if op.BIT? || op.RES? || op.SET? then op.arg.register else op.r
  }

  /** The position of a rotation or shift in the order RLC, RRC, RL, RR,
      SLA, SRA, SWAP, SRL; 8 for the bit operations. */
  function ShiftIndex(op: Opcode): (i: u8)
    ensures i <= 8
  {
    match op
    case RLC(_) => 0
    case RRC(_) => 1
    case RL(_) => 2
    case RR(_) => 3
    case SLA(_) => 4
    case SRA(_) => 5
    case SWAP(_) => 6
    case SRL(_) => 7
    case _ => 8
  }

  /** `OpcodeVal`: the raw byte, marked prefixed or not. */
  datatype OpcodeVal = Prefixed(b: u8) | Unprefixed(b: u8)

  /** `Span`: the byte offsets an instruction occupies, end exclusive. */
  datatype Span = Span(start: nat, end: nat)

  /** `Span::from(usize)`: the one byte at `offset`. */
  function SpanAt(offset: nat): (s: Span)
    ensures s.start == offset && s.end - s.start == 1
  {
    Span(offset, offset + 1)
  }

  datatype Instruction = Instruction(val: OpcodeVal, opcode: Opcode, span: Span)

  /** `tokenize_cb_prefix`: x = 0 gives a rotation or shift chosen by y,
      x = 1, 2, 3 give BIT, RES, SET of bit y; the operand is z. The
      source's unreachable arms are: x is at most 3 and z at most 7. */
  function TokenizeCbPrefix(byte: u8, offset: nat): (r: Instruction)
    ensures r.val == Prefixed(byte) && r.span == SpanAt(offset)
  {
    var reg := Register8From(Z(byte)).value;
    var opcode :=
      if X(byte) == 0 then
        match Y(byte)
        case 0 => RLC(reg)
        case 1 => RRC(reg)
        case 2 => RL(reg)
        case 3 => RR(reg)
        case 4 => SLA(reg)
        case 5 => SRA(reg)
        case 6 => SWAP(reg)
        case _ => SRL(reg)
      else
        var bigArg := BitArg(Y(byte), reg);
        if X(byte) == 1 then BIT(bigArg) else if X(byte) == 2 then RES(bigArg) else SET(bigArg);
    Instruction(Prefixed(byte), opcode, SpanAt(offset))
  }

  /** The decoded fields: the operand's code is z; for x = 0 the rotation's
      position is y; for x = 1, 2, 3 the operation is BIT, RES, SET and its
      bit is y. */
  lemma CbFieldsDecode(byte: u8, offset: nat)
    ensures var op := TokenizeCbPrefix(byte, offset).opcode;
      Register8Code(Operand(op)) == Z(byte)
      && (X(byte) == 0 <==> ShiftIndex(op) < 8)
      && (X(byte) == 0 ==> ShiftIndex(op) == Y(byte))
      && (X(byte) == 1 <==> op.BIT?) && (X(byte) == 2 <==> op.RES?) && (X(byte) == 3 <==> op.SET?)
      && (X(byte) != 0 ==> op.arg.bit == Y(byte))
  {
    Register8RoundTrip(Register8From(Z(byte)).value, Z(byte));
  }

  /** A CB opcode the decoder can produce: bit numbers are 0-7. */
  predicate ValidCbOpcode(op: Opcode)
  {
    (op.BIT? || op.RES? || op.SET?) ==> op.arg.bit <= 7
  }

  /** The byte that follows the 0xCB prefix for an opcode: x, y and z put
      together. */
  function EncodeCb(op: Opcode): (b: u8)
    requires ValidCbOpcode(op)
  {
    var x: u8 := if op.BIT? then 1 else if op.RES? then 2 else if op.SET? then 3 else 0;
    var y: u8 := if x == 0 then ShiftIndex(op) else op.arg.bit;
    (x << 6) | (y << 3) | Register8Code(Operand(op))
  }

  /** Every byte after a 0xCB prefix decodes to a valid opcode, and that
      opcode encodes back to the byte. */
  lemma DecodeThenEncode(byte: u8, offset: nat)
    ensures ValidCbOpcode(TokenizeCbPrefix(byte, offset).opcode)
    ensures EncodeCb(TokenizeCbPrefix(byte, offset).opcode) == byte
  {
    CbFieldsDecode(byte, offset);
    PartsRecombine(byte);
  }

  /** Every valid opcode is what its encoding decodes to: the decoding is
      a one-to-one map of the 256 bytes onto the CB opcodes. */
  lemma EncodeThenDecode(op: Opcode, offset: nat)
    requires ValidCbOpcode(op)
    ensures TokenizeCbPrefix(EncodeCb(op), offset).opcode == op
  {
    var b := EncodeCb(op);
    var x: u8 := if op.BIT? then 1 else if op.RES? then 2 else if op.SET? then 3 else 0;
    var y: u8 := if x == 0 then ShiftIndex(op) else op.arg.bit;
    PartsCover(x, y, Register8Code(Operand(op)));
    Register8RoundTrip(Operand(op), 0);
  }
}

/** Properties of the emulator's decoder: the field helpers, which opcodes
    are recognised, and a reference encoder (the instruction table of
    Cowgod's Chip-8 Technical Reference, sections 3.1 and 3.2, that the
    doc comments of emulator-chip-8/src/opcodes.rs follow) against which
    `Decode` is proved to be a left and a right inverse. */
module OpcodeLaws {
  import opened Opcodes

  // ---------------------------------------------------------------------
  // Field helpers

  /** nnn is the X nibble followed by kk. */
  lemma NnnIsXThenKk(op: bv16)
    ensures Nnn(op) == ((X(op) as bv16) << 8) | Kk(op) as bv16
  {
  }

  /** kk is the Y nibble followed by n. */
  lemma KkIsYThenN(op: bv16)
    ensures Kk(op) == (Y(op) << 4) | N(op)
  {
  }

  /** The opcode is the class nibble followed by nnn. */
  lemma OpcodeIsClassThenNnn(op: bv16)
    ensures op == (op & 0xF000) | Nnn(op)
    ensures op == (Class(op) << 12) | Nnn(op)
  {
  }

  /** The same facts read as unbounded integers. */
  lemma FieldsAsIntegers(op: bv16)
    ensures Nnn(op) as int == X(op) as int * 256 + Kk(op) as int
    ensures Kk(op) as int == Y(op) as int * 16 + N(op) as int
  {
    NnnIsXThenKk(op);
    KkIsYThenN(op);
  }

  // ---------------------------------------------------------------------
  // Which opcodes are recognised

  /** The opcode patterns listed in the instruction table; every other
      16-bit word is an unknown opcode. */
  predicate Recognized(op: bv16)
  {
    var c := op >> 12;
    var lowByte := op & 0xFF;
    var lowNibble := op & 0xF;
    && (c == 0x5 || c == 0x9 ==> lowNibble == 0)
    && (c == 0x8 ==> lowNibble <= 0x7 || lowNibble == 0xE)
    && (c == 0xE ==> lowByte == 0x9E || lowByte == 0xA1)
    && (c == 0xF ==>
          || lowByte == 0x07 || lowByte == 0x0A || lowByte == 0x15 || lowByte == 0x18
          || lowByte == 0x1E || lowByte == 0x29 || lowByte == 0x30 || lowByte == 0x33
          || lowByte == 0x55 || lowByte == 0x65 || lowByte == 0x75 || lowByte == 0x85)
  }

  /** `Decode` yields `Unknown` exactly for the unlisted patterns, and then
      carries the raw opcode unchanged. */
  lemma UnknownExactly(op: bv16)
    ensures Decode(op).Unknown? <==> !Recognized(op)
    ensures Decode(op).Unknown? ==> Decode(op).opcode == op
  {
  }

  /** Only classes 5, 8, 9, E and F have unknown opcodes. */
  lemma UnknownOnlyInFiveClasses(op: bv16)
    ensures Decode(op).Unknown? ==> Class(op) in {0x5, 0x8, 0x9, 0xE, 0xF}
  {
  }

  // ---------------------------------------------------------------------
  // Per-class behaviour

  /** Class 0 looks at the low byte only: bits 8 to 11 matter to SYS alone. */
  lemma ClassZero(op: bv16)
    requires Class(op) == 0
    ensures Decode(op) == CLS <==> op & 0xFF == 0xE0
    ensures Decode(op) == RET <==> op & 0xFF == 0xEE
    ensures Decode(op).SCD? <==> 0xC0 <= op & 0xFF <= 0xCF
    ensures Decode(op).SCD? ==> Decode(op).n == N(op)
    ensures Decode(op).SYS? <==>
              !(0xC0 <= op & 0xFF <= 0xCF) && op & 0xFF !in {0xE0, 0xEE, 0xFB, 0xFC, 0xFD, 0xFE, 0xFF}
    ensures Decode(op).SYS? ==> Decode(op).addr == op
    ensures !Decode(op).SYS? ==> Decode(op) == Decode(op & 0x00FF)
  {
  }

  /** Classes 5 and 9 need a zero low nibble; class 8 knows nibbles 0-7 and E. */
  lemma RegisterPairClasses(op: bv16)
    ensures Class(op) == 0x5 ==>
              Decode(op) == (if N(op) == 0 then SEVxVy(X(op), Y(op)) else Unknown(op))
    ensures Class(op) == 0x9 ==>
              Decode(op) == (if N(op) == 0 then SNEVxVy(X(op), Y(op)) else Unknown(op))
    ensures Class(op) == 0x8 ==>
              (Decode(op).Unknown? <==> N(op) in {0x8, 0x9, 0xA, 0xB, 0xC, 0xD, 0xF})
  {
  }

  /** Class D: a zero height is the 16x16 Super Chip-48 sprite. */
  lemma DrawHeights(op: bv16)
    requires Class(op) == 0xD
    ensures Decode(op).DRWVxVy0? <==> N(op) == 0
    ensures Decode(op).DRWVxVyn? <==> 1 <= N(op) <= 15
    ensures Decode(op).DRWVxVyn? ==> Decode(op) == DRWVxVyn(X(op), Y(op), N(op))
  {
  }

  // ---------------------------------------------------------------------
  // The decode table, one class at a time: unfolding steps that let the
  // round-trip proofs below reason about one class without the whole match

  /** Class 0: the low byte selects the Super Chip-48 codes, CLS and RET;
      00Cn is SCD and everything else is SYS. */
  lemma DecodeClass0(op: bv16)
    requires Class(op) == 0x0
    ensures op & 0x00FF == 0xE0 ==> Decode(op) == CLS
    ensures op & 0x00FF == 0xEE ==> Decode(op) == RET
    ensures op & 0x00FF == 0xFB ==> Decode(op) == SCR
    ensures op & 0x00FF == 0xFC ==> Decode(op) == SCL
    ensures op & 0x00FF == 0xFD ==> Decode(op) == EXIT
    ensures op & 0x00FF == 0xFE ==> Decode(op) == LOW
    ensures op & 0x00FF == 0xFF ==> Decode(op) == HIGH
    ensures 0xC0 <= op & 0x00FF <= 0xCF ==> Decode(op) == SCD(N(op))
    ensures op & 0x00FF !in {0xE0, 0xEE, 0xFB, 0xFC, 0xFD, 0xFE, 0xFF} && !(0xC0 <= op & 0x00FF <= 0xCF) ==> Decode(op) == SYS(Nnn(op))
  {
  }

  /** Class 1 is JP. */
  lemma DecodeClass1(op: bv16)
    requires Class(op) == 0x1
    ensures Decode(op) == JP(Nnn(op))
  {
  }

  /** Class 2 is CALL. */
  lemma DecodeClass2(op: bv16)
    requires Class(op) == 0x2
    ensures Decode(op) == CALL(Nnn(op))
  {
  }

  /** Class 3 is SE with an immediate. */
  lemma DecodeClass3(op: bv16)
    requires Class(op) == 0x3
    ensures Decode(op) == SEVxImm(X(op), Kk(op))
  {
  }

  /** Class 4 is SNE with an immediate. */
  lemma DecodeClass4(op: bv16)
    requires Class(op) == 0x4
    ensures Decode(op) == SNEVxImm(X(op), Kk(op))
  {
  }

  /** Class 5 is SE between registers when the low nibble is 0. */
  lemma DecodeClass5(op: bv16)
    requires Class(op) == 0x5
    ensures op & 0x000F == 0 ==> Decode(op) == SEVxVy(X(op), Y(op))
    ensures op & 0x000F != 0 ==> Decode(op) == Unknown(op)
  {
  }

  /** Class 6 is LD with an immediate. */
  lemma DecodeClass6(op: bv16)
    requires Class(op) == 0x6
    ensures Decode(op) == LDVxImm(X(op), Kk(op))
  {
  }

  /** Class 7 is ADD with an immediate. */
  lemma DecodeClass7(op: bv16)
    requires Class(op) == 0x7
    ensures Decode(op) == ADDVxImm(X(op), Kk(op))
  {
  }

  /** Class 8: the low nibble selects the register operation. */
  lemma DecodeClass8(op: bv16)
    requires Class(op) == 0x8
    ensures op & 0x000F == 0x0 ==> Decode(op) == LDVxVy(X(op), Y(op))
    ensures op & 0x000F == 0x1 ==> Decode(op) == ORVxVy(X(op), Y(op))
    ensures op & 0x000F == 0x2 ==> Decode(op) == ANDVxVy(X(op), Y(op))
    ensures op & 0x000F == 0x3 ==> Decode(op) == XORVxVy(X(op), Y(op))
    ensures op & 0x000F == 0x4 ==> Decode(op) == ADDVxVy(X(op), Y(op))
    ensures op & 0x000F == 0x5 ==> Decode(op) == SUBVxVy(X(op), Y(op))
    ensures op & 0x000F == 0x6 ==> Decode(op) == SHRVxVy(X(op), Y(op))
    ensures op & 0x000F == 0x7 ==> Decode(op) == SUBNVxVy(X(op), Y(op))
    ensures op & 0x000F == 0xE ==> Decode(op) == SHLVxVy(X(op), Y(op))
    ensures op & 0x000F !in {0x0, 0x1, 0x2, 0x3, 0x4, 0x5, 0x6, 0x7, 0xE} ==> Decode(op) == Unknown(op)
  {
  }

  /** Class 9 is SNE between registers when the low nibble is 0. */
  lemma DecodeClass9(op: bv16)
    requires Class(op) == 0x9
    ensures op & 0x000F == 0 ==> Decode(op) == SNEVxVy(X(op), Y(op))
    ensures op & 0x000F != 0 ==> Decode(op) == Unknown(op)
  {
  }

  /** Class A is LD I. */
  lemma DecodeClassA(op: bv16)
    requires Class(op) == 0xA
    ensures Decode(op) == LDI(Nnn(op))
  {
  }

  /** Class B is JP V0. */
  lemma DecodeClassB(op: bv16)
    requires Class(op) == 0xB
    ensures Decode(op) == JPV0(Nnn(op))
  {
  }

  /** Class C is RND. */
  lemma DecodeClassC(op: bv16)
    requires Class(op) == 0xC
    ensures Decode(op) == RNDVxImm(X(op), Kk(op))
  {
  }

  /** Class D is DRW; a zero height is the 16x16 sprite. */
  lemma DecodeClassD(op: bv16)
    requires Class(op) == 0xD
    ensures op & 0x000F == 0 ==> Decode(op) == DRWVxVy0(X(op), Y(op))
    ensures op & 0x000F != 0 ==> Decode(op) == DRWVxVyn(X(op), Y(op), N(op))
  {
  }

  /** Class E: the low byte selects SKP and SKNP. */
  lemma DecodeClassE(op: bv16)
    requires Class(op) == 0xE
    ensures op & 0x00FF == 0x9E ==> Decode(op) == SKPVx(X(op))
    ensures op & 0x00FF == 0xA1 ==> Decode(op) == SKNPVx(X(op))
    ensures op & 0x00FF != 0x9E && op & 0x00FF != 0xA1 ==> Decode(op) == Unknown(op)
  {
  }

  /** Class F: the low byte selects the timer, memory and font operations. */
  lemma DecodeClassF(op: bv16)
    requires Class(op) == 0xF
    ensures op & 0x00FF == 0x07 ==> Decode(op) == LDVxDT(X(op))
    ensures op & 0x00FF == 0x0A ==> Decode(op) == LDVxK(X(op))
    ensures op & 0x00FF == 0x15 ==> Decode(op) == LDDTVx(X(op))
    ensures op & 0x00FF == 0x18 ==> Decode(op) == LDSTVx(X(op))
    ensures op & 0x00FF == 0x1E ==> Decode(op) == ADDIVx(X(op))
    ensures op & 0x00FF == 0x29 ==> Decode(op) == LDFVx(X(op))
    ensures op & 0x00FF == 0x30 ==> Decode(op) == LDHFVx(X(op))
    ensures op & 0x00FF == 0x33 ==> Decode(op) == LDBVx(X(op))
    ensures op & 0x00FF == 0x55 ==> Decode(op) == LDIVx(X(op))
    ensures op & 0x00FF == 0x65 ==> Decode(op) == LDVxI(X(op))
    ensures op & 0x00FF == 0x75 ==> Decode(op) == LDRV(X(op))
    ensures op & 0x00FF == 0x85 ==> Decode(op) == LDVxR(X(op))
    ensures op & 0x00FF !in {0x07, 0x0A, 0x15, 0x18, 0x1E, 0x29, 0x30, 0x33, 0x55, 0x65, 0x75, 0x85} ==> Decode(op) == Unknown(op)
  {
  }

  // ---------------------------------------------------------------------
  // Reference encoder and the round trips

  /** The opcode an instruction stands for in the instruction table: its
      class nibble followed by a 12-bit operand. Class-0 codes other than
      SYS have a zero X nibble; an unknown instruction stands for its raw
      opcode. */
  function Encode(i: Instruction): bv16
  {
    (ClassOf(i) << 12) | Operand(i)
  }

  /** The class nibble of an instruction's opcode. */
  function ClassOf(i: Instruction): bv16
  {
    match i
    case CLS | RET | SYS(_) | SCD(_) | SCR | SCL | EXIT | LOW | HIGH => 0x0
    case JP(_) => 0x1
    case CALL(_) => 0x2
    case SEVxImm(_, _) => 0x3
    case SNEVxImm(_, _) => 0x4
    case SEVxVy(_, _) => 0x5
    case LDVxImm(_, _) => 0x6
    case ADDVxImm(_, _) => 0x7
    case LDVxVy(_, _) | ORVxVy(_, _) | ANDVxVy(_, _) | XORVxVy(_, _) | ADDVxVy(_, _)
       | SUBVxVy(_, _) | SHRVxVy(_, _) | SUBNVxVy(_, _) | SHLVxVy(_, _) => 0x8
    case SNEVxVy(_, _) => 0x9
    case LDI(_) => 0xA
    case JPV0(_) => 0xB
    case RNDVxImm(_, _) => 0xC
    case DRWVxVyn(_, _, _) | DRWVxVy0(_, _) => 0xD
    case SKPVx(_) | SKNPVx(_) => 0xE
    case LDVxDT(_) | LDVxK(_) | LDDTVx(_) | LDSTVx(_) | ADDIVx(_) | LDFVx(_) | LDBVx(_)
       | LDIVx(_) | LDVxI(_) | LDHFVx(_) | LDRV(_) | LDVxR(_) => 0xF
    case Unknown(op) => op >> 12
  }

  /** The low 12 bits of an instruction's opcode. */
  function Operand(i: Instruction): bv16
  {
    if i.SYS? || i.JP? || i.CALL? || i.LDI? || i.JPV0? then i.addr
    else if i.Unknown? then i.opcode & 0x0FFF
    else (XOf(i) << 8) | LowByte(i)
  }

  /** The X nibble of an instruction that has no address operand. */
  function XOf(i: Instruction): bv16
  {
    if i.CLS? || i.RET? || i.SCD? || i.SCR? || i.SCL? || i.EXIT? || i.LOW? || i.HIGH?
       || i.SYS? || i.JP? || i.CALL? || i.LDI? || i.JPV0? || i.Unknown?
    then 0
    else i.x as bv16
  }

  /** The low byte of an instruction that has no address operand: the
      immediate, the Y nibble and sub-opcode, or the fixed code. */
  function LowByte(i: Instruction): bv16
  {
    match i
    case CLS => 0xE0
    case RET => 0xEE
    case SCD(n) => 0xC0 | n as bv16
    case SCR => 0xFB
    case SCL => 0xFC
    case EXIT => 0xFD
    case LOW => 0xFE
    case HIGH => 0xFF
    case SEVxImm(_, kk) => kk as bv16
    case SNEVxImm(_, kk) => kk as bv16
    case LDVxImm(_, kk) => kk as bv16
    case ADDVxImm(_, kk) => kk as bv16
    case RNDVxImm(_, kk) => kk as bv16
    case SEVxVy(_, y) => YN(y, 0x0)
    case LDVxVy(_, y) => YN(y, 0x0)
    case ORVxVy(_, y) => YN(y, 0x1)
    case ANDVxVy(_, y) => YN(y, 0x2)
    case XORVxVy(_, y) => YN(y, 0x3)
    case ADDVxVy(_, y) => YN(y, 0x4)
    case SUBVxVy(_, y) => YN(y, 0x5)
    case SHRVxVy(_, y) => YN(y, 0x6)
    case SUBNVxVy(_, y) => YN(y, 0x7)
    case SHLVxVy(_, y) => YN(y, 0xE)
    case SNEVxVy(_, y) => YN(y, 0x0)
    case DRWVxVyn(_, y, n) => YN(y, n)
    case DRWVxVy0(_, y) => YN(y, 0x0)
    case SKPVx(_) => 0x9E
    case SKNPVx(_) => 0xA1
    case LDVxDT(_) => 0x07
    case LDVxK(_) => 0x0A
    case LDDTVx(_) => 0x15
    case LDSTVx(_) => 0x18
    case ADDIVx(_) => 0x1E
    case LDFVx(_) => 0x29
    case LDBVx(_) => 0x33
    case LDIVx(_) => 0x55
    case LDVxI(_) => 0x65
    case LDHFVx(_) => 0x30
    case LDRV(_) => 0x75
    case LDVxR(_) => 0x85
    case SYS(_) | JP(_) | CALL(_) | LDI(_) | JPV0(_) | Unknown(_) => 0
  }

  /** A low byte made of a Y nibble and a low nibble. */
  function YN(y: bv8, n: bv8): bv16
  {
    ((y as bv16) << 4) | n as bv16
  }

  /** The instructions `Decode` can produce: fields fit their nibbles and
      bytes, a SYS address is not one of the other class-0 codes, a sprite
      height is 1 to 15, and an unknown opcode is not a listed pattern. */
  predicate WellFormed(i: Instruction)
  {
    match i
    case CLS => true
    case RET => true
    case SYS(a) =>
      && a < 0x1000
      && !(0xC0 <= a & 0xFF <= 0xCF)
      && a & 0xFF !in {0xE0, 0xEE, 0xFB, 0xFC, 0xFD, 0xFE, 0xFF}
    case JP(a) => a < 0x1000
    case CALL(a) => a < 0x1000
    case SEVxImm(x, _) => x < 16
    case SNEVxImm(x, _) => x < 16
    case SEVxVy(x, y) => x < 16 && y < 16
    case LDVxImm(x, _) => x < 16
    case ADDVxImm(x, _) => x < 16
    case LDVxVy(x, y) => x < 16 && y < 16
    case ORVxVy(x, y) => x < 16 && y < 16
    case ANDVxVy(x, y) => x < 16 && y < 16
    case XORVxVy(x, y) => x < 16 && y < 16
    case ADDVxVy(x, y) => x < 16 && y < 16
    case SUBVxVy(x, y) => x < 16 && y < 16
    case SHRVxVy(x, y) => x < 16 && y < 16
    case SUBNVxVy(x, y) => x < 16 && y < 16
    case SHLVxVy(x, y) => x < 16 && y < 16
    case SNEVxVy(x, y) => x < 16 && y < 16
    case LDI(a) => a < 0x1000
    case JPV0(a) => a < 0x1000
    case RNDVxImm(x, _) => x < 16
    case DRWVxVyn(x, y, n) => x < 16 && y < 16 && 1 <= n < 16
    case DRWVxVy0(x, y) => x < 16 && y < 16
    case SKPVx(x) => x < 16
    case SKNPVx(x) => x < 16
    case LDVxDT(x) => x < 16
    case LDVxK(x) => x < 16
    case LDDTVx(x) => x < 16
    case LDSTVx(x) => x < 16
    case ADDIVx(x) => x < 16
    case LDFVx(x) => x < 16
    case LDBVx(x) => x < 16
    case LDIVx(x) => x < 16
    case LDVxI(x) => x < 16
    case LDHFVx(x) => x < 16
    case LDRV(x) => x < 16
    case LDVxR(x) => x < 16
    case SCD(n) => n < 16
    case SCR => true
    case SCL => true
    case EXIT => true
    case LOW => true
    case HIGH => true
    case Unknown(op) => !Recognized(op)
  }

  /** The opcode that re-encoding a decoded instruction gives back: the
      opcode itself, except that class-0 codes other than SYS lose bits 8
      to 11. */
  function Canonical(op: bv16): bv16
  {
    if Class(op) == 0 && !Decode(op).SYS? then op & 0x00FF else op
  }

  /** Every decoded instruction is well formed. */
  lemma DecodeWellFormed(op: bv16)
    ensures WellFormed(Decode(op))
  {
    DecodeRoundTrip(op);
  }

  /** Re-encoding a decoded opcode gives the opcode back, except that the
      class-0 codes other than SYS drop bits 8 to 11. */
  lemma EncodeDecode(op: bv16)
    ensures Encode(Decode(op)) == if Class(op) == 0 && !Decode(op).SYS? then op & 0x00FF else op
  {
    DecodeRoundTrip(op);
  }

  /** Two opcodes decode to the same instruction exactly when they agree
      on every bit the decoder reads: the whole opcode, except that the
      X nibble of the class-0 codes other than SYS is ignored. */
  lemma SameDecodeSameCanonical(a: bv16, b: bv16)
    ensures Decode(a) == Decode(b) <==> Canonical(a) == Canonical(b)
  {
    DecodeRoundTrip(a);
    DecodeRoundTrip(b);
    CanonicalDecodesAlike(a);
    CanonicalDecodesAlike(b);
  }

  /** The canonical opcode decodes to the same instruction. */
  lemma CanonicalDecodesAlike(op: bv16)
    ensures Decode(Canonical(op)) == Decode(op)
  {
    if Class(op) == 0 {
      ClassZero(op);
    }
  }

  /** Both facts at once, one class nibble at a time. Each class (and,
      for the classes with sub-opcodes, each range of sub-opcodes) is a
      lemma of its own so that every proof obligation stays small. */
  lemma DecodeRoundTrip(op: bv16)
    ensures WellFormed(Decode(op)) && Encode(Decode(op)) == Canonical(op)
  {
    if Class(op) == 0x0 {
      RoundTripClass0(op);
    } else if Class(op) == 0x1 {
      RoundTripClass1(op);
    } else if Class(op) == 0x2 {
      RoundTripClass2(op);
    } else if Class(op) == 0x3 {
      RoundTripClass3(op);
    } else if Class(op) == 0x4 {
      RoundTripClass4(op);
    } else if Class(op) == 0x5 {
      RoundTripClass5(op);
    } else if Class(op) == 0x6 {
      RoundTripClass6(op);
    } else if Class(op) == 0x7 {
      RoundTripClass7(op);
    } else if Class(op) == 0x8 {
      RoundTripClass8(op);
    } else if Class(op) == 0x9 {
      RoundTripClass9(op);
    } else if Class(op) == 0xA {
      RoundTripClassA(op);
    } else if Class(op) == 0xB {
      RoundTripClassB(op);
    } else if Class(op) == 0xC {
      RoundTripClassC(op);
    } else if Class(op) == 0xD {
      RoundTripClassD(op);
    } else if Class(op) == 0xE {
      RoundTripClassE(op);
    } else {
      RoundTripClassF(op);
    }
  }

  lemma RoundTripClass0(op: bv16)
    requires Class(op) == 0x0
    ensures WellFormed(Decode(op)) && Encode(Decode(op)) == Canonical(op)
  {
    if op & 0xFF < 0xC0 {
      RoundTripClass0SysLow(op);
    } else if op & 0xFF <= 0xCF {
      RoundTripClass0ScrollDown(op);
    } else if op & 0xFF == 0xE0 || op & 0xFF == 0xEE {
      RoundTripClass0Clear(op);
    } else if op & 0xFF < 0xFB {
      RoundTripClass0SysHigh(op);
    } else if op & 0xFF <= 0xFC {
      RoundTripClass0Scroll(op);
    } else {
      RoundTripClass0Mode(op);
    }
  }

  lemma RoundTripClass0SysLow(op: bv16)
    requires Class(op) == 0x0
    requires op & 0xFF < 0xC0
    ensures WellFormed(Decode(op)) && Encode(Decode(op)) == Canonical(op)
  {
    DecodeClass0(op);
  }

  lemma RoundTripClass0ScrollDown(op: bv16)
    requires Class(op) == 0x0
    requires 0xC0 <= op & 0xFF <= 0xCF
    ensures WellFormed(Decode(op)) && Encode(Decode(op)) == Canonical(op)
  {
    DecodeClass0(op);
  }

  lemma RoundTripClass0Clear(op: bv16)
    requires Class(op) == 0x0
    requires op & 0xFF == 0xE0 || op & 0xFF == 0xEE
    ensures WellFormed(Decode(op)) && Encode(Decode(op)) == Canonical(op)
  {
    DecodeClass0(op);
  }

  lemma RoundTripClass0SysHigh(op: bv16)
    requires Class(op) == 0x0
    requires 0xCF < op & 0xFF < 0xFB
    requires op & 0xFF != 0xE0 && op & 0xFF != 0xEE
    ensures WellFormed(Decode(op)) && Encode(Decode(op)) == Canonical(op)
  {
    DecodeClass0(op);
  }

  lemma RoundTripClass0Scroll(op: bv16)
    requires Class(op) == 0x0
    requires op & 0xFF == 0xFB || op & 0xFF == 0xFC
    ensures WellFormed(Decode(op)) && Encode(Decode(op)) == Canonical(op)
  {
    DecodeClass0(op);
  }

  lemma RoundTripClass0Mode(op: bv16)
    requires Class(op) == 0x0
    requires 0xFD <= op & 0xFF
    ensures WellFormed(Decode(op)) && Encode(Decode(op)) == Canonical(op)
  {
    DecodeClass0(op);
  }

  lemma RoundTripClass1(op: bv16)
    requires Class(op) == 0x1
    ensures WellFormed(Decode(op)) && Encode(Decode(op)) == Canonical(op)
  {
    DecodeClass1(op);
  }

  lemma RoundTripClass2(op: bv16)
    requires Class(op) == 0x2
    ensures WellFormed(Decode(op)) && Encode(Decode(op)) == Canonical(op)
  {
    DecodeClass2(op);
  }

  lemma RoundTripClass3(op: bv16)
    requires Class(op) == 0x3
    ensures WellFormed(Decode(op)) && Encode(Decode(op)) == Canonical(op)
  {
    DecodeClass3(op);
  }

  lemma RoundTripClass4(op: bv16)
    requires Class(op) == 0x4
    ensures WellFormed(Decode(op)) && Encode(Decode(op)) == Canonical(op)
  {
    DecodeClass4(op);
  }

  lemma RoundTripClass5(op: bv16)
    requires Class(op) == 0x5
    ensures WellFormed(Decode(op)) && Encode(Decode(op)) == Canonical(op)
  {
    DecodeClass5(op);
  }

  lemma RoundTripClass6(op: bv16)
    requires Class(op) == 0x6
    ensures WellFormed(Decode(op)) && Encode(Decode(op)) == Canonical(op)
  {
    DecodeClass6(op);
  }

  lemma RoundTripClass7(op: bv16)
    requires Class(op) == 0x7
    ensures WellFormed(Decode(op)) && Encode(Decode(op)) == Canonical(op)
  {
    DecodeClass7(op);
  }

  lemma RoundTripClass8(op: bv16)
    requires Class(op) == 0x8
    ensures WellFormed(Decode(op)) && Encode(Decode(op)) == Canonical(op)
  {
    if N(op) <= 0x3 {
      RoundTripClass8Low(op);
    } else if N(op) <= 0x7 {
      RoundTripClass8High(op);
    } else if N(op) <= 0xD {
      RoundTripClass8Gap(op);
    } else if N(op) == 0xE {
      RoundTripClass8Shl(op);
    } else {
      RoundTripClass8Unknown(op);
    }
  }

  lemma RoundTripClass8Low(op: bv16)
    requires Class(op) == 0x8
    requires N(op) <= 0x3
    ensures WellFormed(Decode(op)) && Encode(Decode(op)) == Canonical(op)
  {
    DecodeClass8(op);
  }

  lemma RoundTripClass8High(op: bv16)
    requires Class(op) == 0x8
    requires 0x4 <= N(op) <= 0x7
    ensures WellFormed(Decode(op)) && Encode(Decode(op)) == Canonical(op)
  {
    DecodeClass8(op);
  }

  lemma RoundTripClass8Gap(op: bv16)
    requires Class(op) == 0x8
    requires 0x8 <= N(op) <= 0xD
    ensures WellFormed(Decode(op)) && Encode(Decode(op)) == Canonical(op)
  {
    DecodeClass8(op);
  }

  lemma RoundTripClass8Shl(op: bv16)
    requires Class(op) == 0x8
    requires N(op) == 0xE
    ensures WellFormed(Decode(op)) && Encode(Decode(op)) == Canonical(op)
  {
    DecodeClass8(op);
  }

  lemma RoundTripClass8Unknown(op: bv16)
    requires Class(op) == 0x8
    requires N(op) == 0xF
    ensures WellFormed(Decode(op)) && Encode(Decode(op)) == Canonical(op)
  {
    DecodeClass8(op);
  }

  lemma RoundTripClass9(op: bv16)
    requires Class(op) == 0x9
    ensures WellFormed(Decode(op)) && Encode(Decode(op)) == Canonical(op)
  {
    DecodeClass9(op);
  }

  lemma RoundTripClassA(op: bv16)
    requires Class(op) == 0xA
    ensures WellFormed(Decode(op)) && Encode(Decode(op)) == Canonical(op)
  {
    DecodeClassA(op);
  }

  lemma RoundTripClassB(op: bv16)
    requires Class(op) == 0xB
    ensures WellFormed(Decode(op)) && Encode(Decode(op)) == Canonical(op)
  {
    DecodeClassB(op);
  }

  lemma RoundTripClassC(op: bv16)
    requires Class(op) == 0xC
    ensures WellFormed(Decode(op)) && Encode(Decode(op)) == Canonical(op)
  {
    DecodeClassC(op);
  }

  lemma RoundTripClassD(op: bv16)
    requires Class(op) == 0xD
    ensures WellFormed(Decode(op)) && Encode(Decode(op)) == Canonical(op)
  {
    DecodeClassD(op);
  }

  lemma RoundTripClassE(op: bv16)
    requires Class(op) == 0xE
    ensures WellFormed(Decode(op)) && Encode(Decode(op)) == Canonical(op)
  {
    if op & 0xFF == 0x9E || op & 0xFF == 0xA1 {
      RoundTripClassEKnown(op);
    } else {
      RoundTripClassEUnknown(op);
    }
  }

  lemma RoundTripClassEKnown(op: bv16)
    requires Class(op) == 0xE
    requires op & 0xFF == 0x9E || op & 0xFF == 0xA1
    ensures WellFormed(Decode(op)) && Encode(Decode(op)) == Canonical(op)
  {
    DecodeClassE(op);
  }

  lemma RoundTripClassEUnknown(op: bv16)
    requires Class(op) == 0xE
    requires op & 0xFF != 0x9E && op & 0xFF != 0xA1
    ensures WellFormed(Decode(op)) && Encode(Decode(op)) == Canonical(op)
  {
    DecodeClassE(op);
  }

  lemma RoundTripClassF(op: bv16)
    requires Class(op) == 0xF
    ensures WellFormed(Decode(op)) && Encode(Decode(op)) == Canonical(op)
  {
    if !Recognized(op) {
      RoundTripClassFUnknown(op);
    } else if op & 0xFF < 0x10 {
      RoundTripClassFLow(op);
    } else if op & 0xFF < 0x1E {
      RoundTripClassFLower(op);
    } else if op & 0xFF <= 0x33 {
      RoundTripClassFMid(op);
    } else {
      RoundTripClassFHigh(op);
    }
  }

  lemma RoundTripClassFUnknown(op: bv16)
    requires Class(op) == 0xF
    requires !Recognized(op)
    ensures WellFormed(Decode(op)) && Encode(Decode(op)) == Canonical(op)
  {
    DecodeClassF(op);
  }

  lemma RoundTripClassFLow(op: bv16)
    requires Class(op) == 0xF
    requires Recognized(op) && op & 0xFF < 0x10
    ensures WellFormed(Decode(op)) && Encode(Decode(op)) == Canonical(op)
  {
    DecodeClassF(op);
  }

  lemma RoundTripClassFLower(op: bv16)
    requires Class(op) == 0xF
    requires Recognized(op) && 0x10 <= op & 0xFF < 0x1E
    ensures WellFormed(Decode(op)) && Encode(Decode(op)) == Canonical(op)
  {
    DecodeClassF(op);
  }

  lemma RoundTripClassFMid(op: bv16)
    requires Class(op) == 0xF
    requires Recognized(op) && 0x1E <= op & 0xFF <= 0x33
    ensures WellFormed(Decode(op)) && Encode(Decode(op)) == Canonical(op)
  {
    DecodeClassF(op);
  }

  lemma RoundTripClassFHigh(op: bv16)
    requires Class(op) == 0xF
    requires Recognized(op) && 0x33 < op & 0xFF
    ensures WellFormed(Decode(op)) && Encode(Decode(op)) == Canonical(op)
  {
    DecodeClassF(op);
  }

  /** Decoding the opcode of a well-formed instruction gives the
      instruction back, so `Encode` is injective on well-formed
      instructions and `Decode` reaches every one of them. The proof goes
      variant by variant. */
  lemma DecodeEncode(i: Instruction)
    requires WellFormed(i)
    ensures Decode(Encode(i)) == i
  {
    if i.CLS? || i.RET? || i.SYS? || i.SCD? || i.SCR? || i.SCL? || i.EXIT? || i.LOW? || i.HIGH? {
      DecodeEncodeClassZero(i);
    } else if i.JP? || i.CALL? || i.SEVxImm? || i.SNEVxImm? || i.LDVxImm? || i.ADDVxImm? || i.LDI? || i.JPV0? || i.RNDVxImm? {
      DecodeEncodeOperand(i);
    } else if i.SEVxVy? || i.LDVxVy? || i.ORVxVy? || i.ANDVxVy? || i.XORVxVy? || i.ADDVxVy? || i.SUBVxVy? || i.SHRVxVy? || i.SUBNVxVy? || i.SHLVxVy? || i.SNEVxVy? || i.DRWVxVyn? || i.DRWVxVy0? {
      DecodeEncodeRegisterPair(i);
    } else if i.SKPVx? || i.SKNPVx? || i.LDVxDT? || i.LDVxK? || i.LDDTVx? || i.LDSTVx? || i.ADDIVx? || i.LDFVx? || i.LDBVx? || i.LDIVx? || i.LDVxI? || i.LDHFVx? || i.LDRV? || i.LDVxR? {
      DecodeEncodeRegister(i);
    } else {
      DecodeEncodeUnknown(i);
    }
  }

  /** The round trip for the class-0 codes. */
  lemma DecodeEncodeClassZero(i: Instruction)
    requires WellFormed(i)
    requires i.CLS? || i.RET? || i.SYS? || i.SCD? || i.SCR? || i.SCL? || i.EXIT? || i.LOW? || i.HIGH?
    ensures Decode(Encode(i)) == i
  {
    if i.CLS? {
      DecodeEncodeCLS(i);
    } else if i.RET? {
      DecodeEncodeRET(i);
    } else if i.SYS? {
      DecodeEncodeSYS(i);
    } else if i.SCD? {
      DecodeEncodeSCD(i);
    } else if i.SCR? {
      DecodeEncodeSCR(i);
    } else if i.SCL? {
      DecodeEncodeSCL(i);
    } else if i.EXIT? {
      DecodeEncodeEXIT(i);
    } else if i.LOW? {
      DecodeEncodeLOW(i);
    } else {
      DecodeEncodeHIGH(i);
    }
  }

  /** The round trip for the codes with an address or an immediate. */
  lemma DecodeEncodeOperand(i: Instruction)
    requires WellFormed(i)
    requires i.JP? || i.CALL? || i.SEVxImm? || i.SNEVxImm? || i.LDVxImm? || i.ADDVxImm? || i.LDI? || i.JPV0? || i.RNDVxImm?
    ensures Decode(Encode(i)) == i
  {
    if i.JP? {
      DecodeEncodeJP(i);
    } else if i.CALL? {
      DecodeEncodeCALL(i);
    } else if i.SEVxImm? {
      DecodeEncodeSEVxImm(i);
    } else if i.SNEVxImm? {
      DecodeEncodeSNEVxImm(i);
    } else if i.LDVxImm? {
      DecodeEncodeLDVxImm(i);
    } else if i.ADDVxImm? {
      DecodeEncodeADDVxImm(i);
    } else if i.LDI? {
      DecodeEncodeLDI(i);
    } else if i.JPV0? {
      DecodeEncodeJPV0(i);
    } else {
      DecodeEncodeRNDVxImm(i);
    }
  }

  /** The round trip for the codes with two registers. */
  lemma DecodeEncodeRegisterPair(i: Instruction)
    requires WellFormed(i)
    requires i.SEVxVy? || i.LDVxVy? || i.ORVxVy? || i.ANDVxVy? || i.XORVxVy? || i.ADDVxVy? || i.SUBVxVy? || i.SHRVxVy? || i.SUBNVxVy? || i.SHLVxVy? || i.SNEVxVy? || i.DRWVxVyn? || i.DRWVxVy0?
    ensures Decode(Encode(i)) == i
  {
    if i.SEVxVy? {
      DecodeEncodeSEVxVy(i);
    } else if i.LDVxVy? {
      DecodeEncodeLDVxVy(i);
    } else if i.ORVxVy? {
      DecodeEncodeORVxVy(i);
    } else if i.ANDVxVy? {
      DecodeEncodeANDVxVy(i);
    } else if i.XORVxVy? {
      DecodeEncodeXORVxVy(i);
    } else if i.ADDVxVy? {
      DecodeEncodeADDVxVy(i);
    } else if i.SUBVxVy? {
      DecodeEncodeSUBVxVy(i);
    } else if i.SHRVxVy? {
      DecodeEncodeSHRVxVy(i);
    } else if i.SUBNVxVy? {
      DecodeEncodeSUBNVxVy(i);
    } else if i.SHLVxVy? {
      DecodeEncodeSHLVxVy(i);
    } else if i.SNEVxVy? {
      DecodeEncodeSNEVxVy(i);
    } else if i.DRWVxVyn? {
      DecodeEncodeDRWVxVyn(i);
    } else {
      DecodeEncodeDRWVxVy0(i);
    }
  }

  /** The round trip for the codes with one register. */
  lemma DecodeEncodeRegister(i: Instruction)
    requires WellFormed(i)
    requires i.SKPVx? || i.SKNPVx? || i.LDVxDT? || i.LDVxK? || i.LDDTVx? || i.LDSTVx? || i.ADDIVx? || i.LDFVx? || i.LDBVx? || i.LDIVx? || i.LDVxI? || i.LDHFVx? || i.LDRV? || i.LDVxR?
    ensures Decode(Encode(i)) == i
  {
    if i.SKPVx? {
      DecodeEncodeSKPVx(i);
    } else if i.SKNPVx? {
      DecodeEncodeSKNPVx(i);
    } else if i.LDVxDT? {
      DecodeEncodeLDVxDT(i);
    } else if i.LDVxK? {
      DecodeEncodeLDVxK(i);
    } else if i.LDDTVx? {
      DecodeEncodeLDDTVx(i);
    } else if i.LDSTVx? {
      DecodeEncodeLDSTVx(i);
    } else if i.ADDIVx? {
      DecodeEncodeADDIVx(i);
    } else if i.LDFVx? {
      DecodeEncodeLDFVx(i);
    } else if i.LDBVx? {
      DecodeEncodeLDBVx(i);
    } else if i.LDIVx? {
      DecodeEncodeLDIVx(i);
    } else if i.LDVxI? {
      DecodeEncodeLDVxI(i);
    } else if i.LDHFVx? {
      DecodeEncodeLDHFVx(i);
    } else if i.LDRV? {
      DecodeEncodeLDRV(i);
    } else {
      DecodeEncodeLDVxR(i);
    }
  }

  lemma DecodeEncodeCLS(i: Instruction)
    requires WellFormed(i) && i.CLS?
    ensures Decode(Encode(i)) == i
  {
  }

  lemma DecodeEncodeRET(i: Instruction)
    requires WellFormed(i) && i.RET?
    ensures Decode(Encode(i)) == i
  {
  }

  lemma DecodeEncodeSYS(i: Instruction)
    requires WellFormed(i) && i.SYS?
    ensures Decode(Encode(i)) == i
  {
  }

  lemma DecodeEncodeJP(i: Instruction)
    requires WellFormed(i) && i.JP?
    ensures Decode(Encode(i)) == i
  {
  }

  lemma DecodeEncodeCALL(i: Instruction)
    requires WellFormed(i) && i.CALL?
    ensures Decode(Encode(i)) == i
  {
  }

  lemma DecodeEncodeSEVxImm(i: Instruction)
    requires WellFormed(i) && i.SEVxImm?
    ensures Decode(Encode(i)) == i
  {
  }

  lemma DecodeEncodeSNEVxImm(i: Instruction)
    requires WellFormed(i) && i.SNEVxImm?
    ensures Decode(Encode(i)) == i
  {
  }

  lemma DecodeEncodeSEVxVy(i: Instruction)
    requires WellFormed(i) && i.SEVxVy?
    ensures Decode(Encode(i)) == i
  {
  }

  lemma DecodeEncodeLDVxImm(i: Instruction)
    requires WellFormed(i) && i.LDVxImm?
    ensures Decode(Encode(i)) == i
  {
  }

  lemma DecodeEncodeADDVxImm(i: Instruction)
    requires WellFormed(i) && i.ADDVxImm?
    ensures Decode(Encode(i)) == i
  {
  }

  lemma DecodeEncodeLDVxVy(i: Instruction)
    requires WellFormed(i) && i.LDVxVy?
    ensures Decode(Encode(i)) == i
  {
  }

  lemma DecodeEncodeORVxVy(i: Instruction)
    requires WellFormed(i) && i.ORVxVy?
    ensures Decode(Encode(i)) == i
  {
  }

  lemma DecodeEncodeANDVxVy(i: Instruction)
    requires WellFormed(i) && i.ANDVxVy?
    ensures Decode(Encode(i)) == i
  {
  }

  lemma DecodeEncodeXORVxVy(i: Instruction)
    requires WellFormed(i) && i.XORVxVy?
    ensures Decode(Encode(i)) == i
  {
  }

  lemma DecodeEncodeADDVxVy(i: Instruction)
    requires WellFormed(i) && i.ADDVxVy?
    ensures Decode(Encode(i)) == i
  {
  }

  lemma DecodeEncodeSUBVxVy(i: Instruction)
    requires WellFormed(i) && i.SUBVxVy?
    ensures Decode(Encode(i)) == i
  {
  }

  lemma DecodeEncodeSHRVxVy(i: Instruction)
    requires WellFormed(i) && i.SHRVxVy?
    ensures Decode(Encode(i)) == i
  {
  }

  lemma DecodeEncodeSUBNVxVy(i: Instruction)
    requires WellFormed(i) && i.SUBNVxVy?
    ensures Decode(Encode(i)) == i
  {
  }

  lemma DecodeEncodeSHLVxVy(i: Instruction)
    requires WellFormed(i) && i.SHLVxVy?
    ensures Decode(Encode(i)) == i
  {
  }

  lemma DecodeEncodeSNEVxVy(i: Instruction)
    requires WellFormed(i) && i.SNEVxVy?
    ensures Decode(Encode(i)) == i
  {
  }

  lemma DecodeEncodeLDI(i: Instruction)
    requires WellFormed(i) && i.LDI?
    ensures Decode(Encode(i)) == i
  {
  }

  lemma DecodeEncodeJPV0(i: Instruction)
    requires WellFormed(i) && i.JPV0?
    ensures Decode(Encode(i)) == i
  {
  }

  lemma DecodeEncodeRNDVxImm(i: Instruction)
    requires WellFormed(i) && i.RNDVxImm?
    ensures Decode(Encode(i)) == i
  {
  }

  lemma DecodeEncodeDRWVxVyn(i: Instruction)
    requires WellFormed(i) && i.DRWVxVyn?
    ensures Decode(Encode(i)) == i
  {
  }

  lemma DecodeEncodeDRWVxVy0(i: Instruction)
    requires WellFormed(i) && i.DRWVxVy0?
    ensures Decode(Encode(i)) == i
  {
  }

  lemma DecodeEncodeSKPVx(i: Instruction)
    requires WellFormed(i) && i.SKPVx?
    ensures Decode(Encode(i)) == i
  {
  }

  lemma DecodeEncodeSKNPVx(i: Instruction)
    requires WellFormed(i) && i.SKNPVx?
    ensures Decode(Encode(i)) == i
  {
  }

  lemma DecodeEncodeLDVxDT(i: Instruction)
    requires WellFormed(i) && i.LDVxDT?
    ensures Decode(Encode(i)) == i
  {
  }

  lemma DecodeEncodeLDVxK(i: Instruction)
    requires WellFormed(i) && i.LDVxK?
    ensures Decode(Encode(i)) == i
  {
  }

  lemma DecodeEncodeLDDTVx(i: Instruction)
    requires WellFormed(i) && i.LDDTVx?
    ensures Decode(Encode(i)) == i
  {
  }

  lemma DecodeEncodeLDSTVx(i: Instruction)
    requires WellFormed(i) && i.LDSTVx?
    ensures Decode(Encode(i)) == i
  {
  }

  lemma DecodeEncodeADDIVx(i: Instruction)
    requires WellFormed(i) && i.ADDIVx?
    ensures Decode(Encode(i)) == i
  {
  }

  lemma DecodeEncodeLDFVx(i: Instruction)
    requires WellFormed(i) && i.LDFVx?
    ensures Decode(Encode(i)) == i
  {
  }

  lemma DecodeEncodeLDBVx(i: Instruction)
    requires WellFormed(i) && i.LDBVx?
    ensures Decode(Encode(i)) == i
  {
  }

  lemma DecodeEncodeLDIVx(i: Instruction)
    requires WellFormed(i) && i.LDIVx?
    ensures Decode(Encode(i)) == i
  {
  }

  lemma DecodeEncodeLDVxI(i: Instruction)
    requires WellFormed(i) && i.LDVxI?
    ensures Decode(Encode(i)) == i
  {
  }

  lemma DecodeEncodeLDHFVx(i: Instruction)
    requires WellFormed(i) && i.LDHFVx?
    ensures Decode(Encode(i)) == i
  {
  }

  lemma DecodeEncodeLDRV(i: Instruction)
    requires WellFormed(i) && i.LDRV?
    ensures Decode(Encode(i)) == i
  {
  }

  lemma DecodeEncodeLDVxR(i: Instruction)
    requires WellFormed(i) && i.LDVxR?
    ensures Decode(Encode(i)) == i
  {
  }

  lemma DecodeEncodeSCD(i: Instruction)
    requires WellFormed(i) && i.SCD?
    ensures Decode(Encode(i)) == i
  {
  }

  lemma DecodeEncodeSCR(i: Instruction)
    requires WellFormed(i) && i.SCR?
    ensures Decode(Encode(i)) == i
  {
  }

  lemma DecodeEncodeSCL(i: Instruction)
    requires WellFormed(i) && i.SCL?
    ensures Decode(Encode(i)) == i
  {
  }

  lemma DecodeEncodeEXIT(i: Instruction)
    requires WellFormed(i) && i.EXIT?
    ensures Decode(Encode(i)) == i
  {
  }

  lemma DecodeEncodeLOW(i: Instruction)
    requires WellFormed(i) && i.LOW?
    ensures Decode(Encode(i)) == i
  {
  }

  lemma DecodeEncodeHIGH(i: Instruction)
    requires WellFormed(i) && i.HIGH?
    ensures Decode(Encode(i)) == i
  {
  }

  lemma DecodeEncodeUnknown(i: Instruction)
    requires WellFormed(i) && i.Unknown?
    ensures Decode(Encode(i)) == i
  {
    UnknownExactly(i.opcode);
  }

}

/** The emulator's decoder and the disassembler are two independent
    readings of the same opcode table. `Render` prints a decoded
    instruction in the disassembler's syntax (with Cowgod's mnemonics for
    the Super Chip-48 instructions, which the disassembler does not know);
    the two decoders then agree exactly outside `DecodersDisagree`. */
module DecoderAgreement {
  import opened Opcodes
  import OpcodeLaws
  import DisassemblerUtils
  import opened Disassembler

  /** An instruction in the disassembler's syntax. */
  function Render(i: Instruction): string
  {
    match i
    case CLS => "CLS"
    case RET => "RET"
    case SYS(a) => "SYS $" + H3(a)
    case JP(a) => "JMP $" + H3(a)
    case CALL(a) => "CALL $" + H3(a)
    case SEVxImm(x, kk) => "SE V" + H1(x) + ", " + H2(kk)
    case SNEVxImm(x, kk) => "SNE V" + H1(x) + ", " + H2(kk)
    case SEVxVy(x, y) => "SE V" + H1(x) + ", V" + H1(y)
    case LDVxImm(x, kk) => "LD V" + H1(x) + ", " + H2(kk)
    case ADDVxImm(x, kk) => "ADD V" + H1(x) + ", " + H2(kk)
    case LDVxVy(x, y) => "LD V" + H1(x) + ", V" + H1(y)
    case ORVxVy(x, y) => "OR V" + H1(x) + ", V" + H1(y)
    case ANDVxVy(x, y) => "AND V" + H1(x) + ", V" + H1(y)
    case XORVxVy(x, y) => "XOR V" + H1(x) + ", V" + H1(y)
    case ADDVxVy(x, y) => "ADD V" + H1(x) + ", V" + H1(y)
    case SUBVxVy(x, y) => "SUB V" + H1(x) + ", V" + H1(y)
    case SHRVxVy(x, _) => "SHR V" + H1(x) + ","
    case SUBNVxVy(x, y) => "SUBN V" + H1(x) + ", V" + H1(y)
    case SHLVxVy(x, y) => "SHL V" + H1(x) + " { ,V" + H1(y) + "}"
    case SNEVxVy(x, y) => "SNE V" + H1(x) + ", V" + H1(y)
    case LDI(a) => "LD I, $" + H3(a)
    case JPV0(a) => "JMP V0, $" + H3(a)
    case RNDVxImm(x, kk) => "RND V" + H1(x) + ", " + H2(kk)
    case DRWVxVyn(x, y, n) => "DRW V" + H1(x) + ", V" + H1(y) + ", " + H1(n)
    case DRWVxVy0(x, y) => "DRW V" + H1(x) + ", V" + H1(y) + ", " + H1(0)
    case SKPVx(x) => "SKP V" + H1(x)
    case SKNPVx(x) => "SKNP V" + H1(x)
    case LDVxDT(x) => "LD, V" + H1(x) + " DT"
    case LDVxK(x) => "LD V" + H1(x) + ", K"
    case LDDTVx(x) => "LD DT, V" + H1(x)
    case LDSTVx(x) => "LD ST, V" + H1(x)
    case ADDIVx(x) => "ADD I, V" + H1(x)
    case LDFVx(x) => "LD F, V" + H1(x)
    case LDBVx(x) => "LD B, V" + H1(x)
    case LDIVx(x) => "LD [I], V" + H1(x)
    case LDVxI(x) => "LD V" + H1(x) + ", [I]"
    case LDHFVx(x) => "LD HF, V" + H1(x)
    case LDRV(x) => "LD R, V" + H1(x)
    case LDVxR(x) => "LD V" + H1(x) + ", R"
    case SCD(n) => "SCD " + H1(n)
    case SCR => "SCR"
    case SCL => "SCL"
    case EXIT => "EXIT"
    case LOW => "LOW"
    case HIGH => "HIGH"
    case Unknown(op) =>
      if op & 0xF000 == 0x8000 then "0x8???"
      else if op & 0xF000 == 0xE000 then "0xEX??"
      else if op & 0xF000 == 0xF000 then "0xF???"
      else "???"
  }

  /** Where the two decoders part ways:
      - class 0: the emulator reads the low byte only, so 0x1E0 is CLS to it
        and SYS to the disassembler, and it knows the Super Chip-48 codes
        00Cn and 00FB to 00FF;
      - classes 5 and 9: the disassembler ignores the low nibble, the
        emulator rejects a nonzero one;
      - class F: the Super Chip-48 codes Fx30, Fx75 and Fx85. */
  predicate DecodersDisagree(op: bv16)
  {
    var c := op & 0xF000;
    var low := op & 0x00FF;
    || (c == 0x0000 &&
          (|| 0xC0 <= low <= 0xCF
           || 0xFB <= low
           || ((low == 0xE0 || low == 0xEE) && op & 0x0F00 != 0)))
    || ((c == 0x5000 || c == 0x9000) && op & 0x000F != 0)
    || (c == 0xF000 && (low == 0x30 || low == 0x75 || low == 0x85))
  }


  /** The two decoders agree on every opcode outside `DecodersDisagree`,
      and on none inside it. */
  lemma DecodersAgree(op: bv16)
    ensures !DecodersDisagree(op) <==> Mnemonic(op) == Render(Decode(op))
  {
    if op & 0xF000 == 0x0000 {
      AgreementClass0(op);
    } else if op & 0xF000 == 0x1000 {
      AgreementClass1(op);
    } else if op & 0xF000 == 0x2000 {
      AgreementClass2(op);
    } else if op & 0xF000 == 0x3000 {
      AgreementClass3(op);
    } else if op & 0xF000 == 0x4000 {
      AgreementClass4(op);
    } else if op & 0xF000 == 0x5000 {
      AgreementClass5(op);
    } else if op & 0xF000 == 0x6000 {
      AgreementClass6(op);
    } else if op & 0xF000 == 0x7000 {
      AgreementClass7(op);
    } else if op & 0xF000 == 0x8000 {
      AgreementClass8(op);
    } else if op & 0xF000 == 0x9000 {
      AgreementClass9(op);
    } else if op & 0xF000 == 0xA000 {
      AgreementClassA(op);
    } else if op & 0xF000 == 0xB000 {
      AgreementClassB(op);
    } else if op & 0xF000 == 0xC000 {
      AgreementClassC(op);
    } else if op & 0xF000 == 0xD000 {
      AgreementClassD(op);
    } else if op & 0xF000 == 0xE000 {
      AgreementClassE(op);
    } else {
      AgreementClassF(op);
    }
  }

  // ---------------------------------------------------------------------
  // Class 0

  lemma AgreementClass0(op: bv16)
    requires op & 0xF000 == 0x0000
    ensures !DecodersDisagree(op) <==> Mnemonic(op) == Render(Decode(op))
  {
    if op == 0x00E0 {
      AgreementClass0Clear(op);
    } else if op == 0x00EE {
      AgreementClass0Return(op);
    } else if op & 0x00FF == 0xE0 && op != 0x00E0 {
      AgreementClass0ClearHigh(op);
    } else if op & 0x00FF == 0xEE && op != 0x00EE {
      AgreementClass0ReturnHigh(op);
    } else if 0xC0 <= op & 0x00FF <= 0xCF {
      AgreementClass0ScrollDown(op);
    } else if op & 0x00FF == 0xFB {
      AgreementClass0ScrollRight(op);
    } else if op & 0x00FF == 0xFC {
      AgreementClass0ScrollLeft(op);
    } else if op & 0x00FF == 0xFD {
      AgreementClass0Exit(op);
    } else if op & 0x00FF == 0xFE {
      AgreementClass0Low(op);
    } else if op & 0x00FF == 0xFF {
      AgreementClass0High(op);
    } else {
      AgreementClass0Sys(op);
    }
  }

  lemma AgreementClass0Clear(op: bv16)
    requires op & 0xF000 == 0x0000
    requires op == 0x00E0
    ensures !DecodersDisagree(op) <==> Mnemonic(op) == Render(Decode(op))
  {
    OpcodeLaws.DecodeClass0(op);
    MnemonicClass0(op);
  }

  lemma AgreementClass0Return(op: bv16)
    requires op & 0xF000 == 0x0000
    requires op == 0x00EE
    ensures !DecodersDisagree(op) <==> Mnemonic(op) == Render(Decode(op))
  {
    OpcodeLaws.DecodeClass0(op);
    MnemonicClass0(op);
  }

  lemma AgreementClass0ClearHigh(op: bv16)
    requires op & 0xF000 == 0x0000
    requires op & 0x00FF == 0xE0 && op != 0x00E0
    ensures !DecodersDisagree(op) <==> Mnemonic(op) == Render(Decode(op))
  {
    OpcodeLaws.DecodeClass0(op);
    MnemonicClass0(op);
    assert Render(Decode(op))[1] == 'L';
  }

  lemma AgreementClass0ReturnHigh(op: bv16)
    requires op & 0xF000 == 0x0000
    requires op & 0x00FF == 0xEE && op != 0x00EE
    ensures !DecodersDisagree(op) <==> Mnemonic(op) == Render(Decode(op))
  {
    OpcodeLaws.DecodeClass0(op);
    MnemonicClass0(op);
    assert Render(Decode(op))[1] == 'E';
  }

  lemma AgreementClass0ScrollDown(op: bv16)
    requires op & 0xF000 == 0x0000
    requires 0xC0 <= op & 0x00FF <= 0xCF
    ensures !DecodersDisagree(op) <==> Mnemonic(op) == Render(Decode(op))
  {
    OpcodeLaws.DecodeClass0(op);
    MnemonicClass0(op);
    assert Render(Decode(op))[1] == 'C';
  }

  lemma AgreementClass0ScrollRight(op: bv16)
    requires op & 0xF000 == 0x0000
    requires op & 0x00FF == 0xFB
    ensures !DecodersDisagree(op) <==> Mnemonic(op) == Render(Decode(op))
  {
    OpcodeLaws.DecodeClass0(op);
    MnemonicClass0(op);
    assert Render(Decode(op))[1] == 'C';
  }

  lemma AgreementClass0ScrollLeft(op: bv16)
    requires op & 0xF000 == 0x0000
    requires op & 0x00FF == 0xFC
    ensures !DecodersDisagree(op) <==> Mnemonic(op) == Render(Decode(op))
  {
    OpcodeLaws.DecodeClass0(op);
    MnemonicClass0(op);
    assert Render(Decode(op))[1] == 'C';
  }

  lemma AgreementClass0Exit(op: bv16)
    requires op & 0xF000 == 0x0000
    requires op & 0x00FF == 0xFD
    ensures !DecodersDisagree(op) <==> Mnemonic(op) == Render(Decode(op))
  {
    OpcodeLaws.DecodeClass0(op);
    MnemonicClass0(op);
    assert Render(Decode(op))[1] == 'X';
  }

  lemma AgreementClass0Low(op: bv16)
    requires op & 0xF000 == 0x0000
    requires op & 0x00FF == 0xFE
    ensures !DecodersDisagree(op) <==> Mnemonic(op) == Render(Decode(op))
  {
    OpcodeLaws.DecodeClass0(op);
    MnemonicClass0(op);
    assert Render(Decode(op))[1] == 'O';
  }

  lemma AgreementClass0High(op: bv16)
    requires op & 0xF000 == 0x0000
    requires op & 0x00FF == 0xFF
    ensures !DecodersDisagree(op) <==> Mnemonic(op) == Render(Decode(op))
  {
    OpcodeLaws.DecodeClass0(op);
    MnemonicClass0(op);
    assert Render(Decode(op))[1] == 'I';
  }

  lemma AgreementClass0Sys(op: bv16)
    requires op & 0xF000 == 0x0000
    requires op & 0x00FF !in {0xE0, 0xEE, 0xFB, 0xFC, 0xFD, 0xFE, 0xFF} && !(0xC0 <= op & 0x00FF <= 0xCF)
    ensures !DecodersDisagree(op) <==> Mnemonic(op) == Render(Decode(op))
  {
    OpcodeLaws.DecodeClass0(op);
    MnemonicClass0(op);
  }

  lemma MnemonicClass0(op: bv16)
    requires op & 0xF000 == 0x0000
    ensures op == 0x00E0 ==> Mnemonic(op) == "CLS"
    ensures op == 0x00EE ==> Mnemonic(op) == "RET"
    ensures op != 0x00E0 && op != 0x00EE ==> Mnemonic(op) == "SYS $" + H3(Nnn(op))
  {
    DisassemblerUtils.SameFieldsAsEmulator(op);
  }

  // ---------------------------------------------------------------------
  // Class 1

  lemma AgreementClass1(op: bv16)
    requires op & 0xF000 == 0x1000
    ensures !DecodersDisagree(op) <==> Mnemonic(op) == Render(Decode(op))
  {
      OpcodeLaws.DecodeClass1(op);
      MnemonicClass1(op);
  }

  lemma MnemonicClass1(op: bv16)
    requires op & 0xF000 == 0x1000
    ensures Mnemonic(op) == "JMP $" + H3(Nnn(op))
  {
    DisassemblerUtils.SameFieldsAsEmulator(op);
  }

  // ---------------------------------------------------------------------
  // Class 2

  lemma AgreementClass2(op: bv16)
    requires op & 0xF000 == 0x2000
    ensures !DecodersDisagree(op) <==> Mnemonic(op) == Render(Decode(op))
  {
      OpcodeLaws.DecodeClass2(op);
      MnemonicClass2(op);
  }

  lemma MnemonicClass2(op: bv16)
    requires op & 0xF000 == 0x2000
    ensures Mnemonic(op) == "CALL $" + H3(Nnn(op))
  {
    DisassemblerUtils.SameFieldsAsEmulator(op);
  }

  // ---------------------------------------------------------------------
  // Class 3

  lemma AgreementClass3(op: bv16)
    requires op & 0xF000 == 0x3000
    ensures !DecodersDisagree(op) <==> Mnemonic(op) == Render(Decode(op))
  {
      OpcodeLaws.DecodeClass3(op);
      MnemonicClass3(op);
  }

  lemma MnemonicClass3(op: bv16)
    requires op & 0xF000 == 0x3000
    ensures Mnemonic(op) == "SE V" + H1(X(op)) + ", " + H2(Kk(op))
  {
    DisassemblerUtils.SameFieldsAsEmulator(op);
  }

  // ---------------------------------------------------------------------
  // Class 4

  lemma AgreementClass4(op: bv16)
    requires op & 0xF000 == 0x4000
    ensures !DecodersDisagree(op) <==> Mnemonic(op) == Render(Decode(op))
  {
      OpcodeLaws.DecodeClass4(op);
      MnemonicClass4(op);
  }

  lemma MnemonicClass4(op: bv16)
    requires op & 0xF000 == 0x4000
    ensures Mnemonic(op) == "SNE V" + H1(X(op)) + ", " + H2(Kk(op))
  {
    DisassemblerUtils.SameFieldsAsEmulator(op);
  }

  // ---------------------------------------------------------------------
  // Class 5

  lemma AgreementClass5(op: bv16)
    requires op & 0xF000 == 0x5000
    ensures !DecodersDisagree(op) <==> Mnemonic(op) == Render(Decode(op))
  {
    if op & 0x000F == 0 {
      AgreementClass5SEVxVy(op);
    } else {
      AgreementClass5Unknown(op);
    }
  }

  lemma AgreementClass5SEVxVy(op: bv16)
    requires op & 0xF000 == 0x5000
    requires op & 0x000F == 0
    ensures !DecodersDisagree(op) <==> Mnemonic(op) == Render(Decode(op))
  {
    OpcodeLaws.DecodeClass5(op);
    MnemonicClass5(op);
  }

  lemma AgreementClass5Unknown(op: bv16)
    requires op & 0xF000 == 0x5000
    requires op & 0x000F != 0
    ensures !DecodersDisagree(op) <==> Mnemonic(op) == Render(Decode(op))
  {
    OpcodeLaws.DecodeClass5(op);
    MnemonicClass5(op);
    assert Render(Decode(op))[0] == '?';
  }

  lemma MnemonicClass5(op: bv16)
    requires op & 0xF000 == 0x5000
    ensures Mnemonic(op) == "SE V" + H1(X(op)) + ", V" + H1(Y(op))
  {
    DisassemblerUtils.SameFieldsAsEmulator(op);
  }

  // ---------------------------------------------------------------------
  // Class 6

  lemma AgreementClass6(op: bv16)
    requires op & 0xF000 == 0x6000
    ensures !DecodersDisagree(op) <==> Mnemonic(op) == Render(Decode(op))
  {
      OpcodeLaws.DecodeClass6(op);
      MnemonicClass6(op);
  }

  lemma MnemonicClass6(op: bv16)
    requires op & 0xF000 == 0x6000
    ensures Mnemonic(op) == "LD V" + H1(X(op)) + ", " + H2(Kk(op))
  {
    DisassemblerUtils.SameFieldsAsEmulator(op);
  }

  // ---------------------------------------------------------------------
  // Class 7

  lemma AgreementClass7(op: bv16)
    requires op & 0xF000 == 0x7000
    ensures !DecodersDisagree(op) <==> Mnemonic(op) == Render(Decode(op))
  {
      OpcodeLaws.DecodeClass7(op);
      MnemonicClass7(op);
  }

  lemma MnemonicClass7(op: bv16)
    requires op & 0xF000 == 0x7000
    ensures Mnemonic(op) == "ADD V" + H1(X(op)) + ", " + H2(Kk(op))
  {
    DisassemblerUtils.SameFieldsAsEmulator(op);
  }

  // ---------------------------------------------------------------------
  // Class 8

  lemma AgreementClass8(op: bv16)
    requires op & 0xF000 == 0x8000
    ensures !DecodersDisagree(op) <==> Mnemonic(op) == Render(Decode(op))
  {
    if op & 0x000F == 0x0 {
      AgreementClass8LDVxVy(op);
    } else if op & 0x000F == 0x1 {
      AgreementClass8ORVxVy(op);
    } else if op & 0x000F == 0x2 {
      AgreementClass8ANDVxVy(op);
    } else if op & 0x000F == 0x3 {
      AgreementClass8XORVxVy(op);
    } else if op & 0x000F == 0x4 {
      AgreementClass8ADDVxVy(op);
    } else if op & 0x000F == 0x5 {
      AgreementClass8SUBVxVy(op);
    } else if op & 0x000F == 0x6 {
      AgreementClass8SHRVxVy(op);
    } else if op & 0x000F == 0x7 {
      AgreementClass8SUBNVxVy(op);
    } else if op & 0x000F == 0xE {
      AgreementClass8SHLVxVy(op);
    } else {
      AgreementClass8Unknown(op);
    }
  }

  lemma AgreementClass8LDVxVy(op: bv16)
    requires op & 0xF000 == 0x8000
    requires op & 0x000F == 0x0
    ensures !DecodersDisagree(op) <==> Mnemonic(op) == Render(Decode(op))
  {
    OpcodeLaws.DecodeClass8(op);
    MnemonicClass8(op);
  }

  lemma AgreementClass8ORVxVy(op: bv16)
    requires op & 0xF000 == 0x8000
    requires op & 0x000F == 0x1
    ensures !DecodersDisagree(op) <==> Mnemonic(op) == Render(Decode(op))
  {
    OpcodeLaws.DecodeClass8(op);
    MnemonicClass8(op);
  }

  lemma AgreementClass8ANDVxVy(op: bv16)
    requires op & 0xF000 == 0x8000
    requires op & 0x000F == 0x2
    ensures !DecodersDisagree(op) <==> Mnemonic(op) == Render(Decode(op))
  {
    OpcodeLaws.DecodeClass8(op);
    MnemonicClass8(op);
  }

  lemma AgreementClass8XORVxVy(op: bv16)
    requires op & 0xF000 == 0x8000
    requires op & 0x000F == 0x3
    ensures !DecodersDisagree(op) <==> Mnemonic(op) == Render(Decode(op))
  {
    OpcodeLaws.DecodeClass8(op);
    MnemonicClass8(op);
  }

  lemma AgreementClass8ADDVxVy(op: bv16)
    requires op & 0xF000 == 0x8000
    requires op & 0x000F == 0x4
    ensures !DecodersDisagree(op) <==> Mnemonic(op) == Render(Decode(op))
  {
    OpcodeLaws.DecodeClass8(op);
    MnemonicClass8(op);
  }

  lemma AgreementClass8SUBVxVy(op: bv16)
    requires op & 0xF000 == 0x8000
    requires op & 0x000F == 0x5
    ensures !DecodersDisagree(op) <==> Mnemonic(op) == Render(Decode(op))
  {
    OpcodeLaws.DecodeClass8(op);
    MnemonicClass8(op);
  }

  lemma AgreementClass8SHRVxVy(op: bv16)
    requires op & 0xF000 == 0x8000
    requires op & 0x000F == 0x6
    ensures !DecodersDisagree(op) <==> Mnemonic(op) == Render(Decode(op))
  {
    OpcodeLaws.DecodeClass8(op);
    MnemonicClass8(op);
  }

  lemma AgreementClass8SUBNVxVy(op: bv16)
    requires op & 0xF000 == 0x8000
    requires op & 0x000F == 0x7
    ensures !DecodersDisagree(op) <==> Mnemonic(op) == Render(Decode(op))
  {
    OpcodeLaws.DecodeClass8(op);
    MnemonicClass8(op);
  }

  lemma AgreementClass8SHLVxVy(op: bv16)
    requires op & 0xF000 == 0x8000
    requires op & 0x000F == 0xE
    ensures !DecodersDisagree(op) <==> Mnemonic(op) == Render(Decode(op))
  {
    OpcodeLaws.DecodeClass8(op);
    MnemonicClass8(op);
  }

  lemma AgreementClass8Unknown(op: bv16)
    requires op & 0xF000 == 0x8000
    requires op & 0x000F !in {0x0, 0x1, 0x2, 0x3, 0x4, 0x5, 0x6, 0x7, 0xE}
    ensures !DecodersDisagree(op) <==> Mnemonic(op) == Render(Decode(op))
  {
    OpcodeLaws.DecodeClass8(op);
    MnemonicClass8(op);
  }

  lemma MnemonicClass8(op: bv16)
    requires op & 0xF000 == 0x8000
    ensures op & 0x000F == 0x0 ==> Mnemonic(op) == "LD V" + H1(X(op)) + ", V" + H1(Y(op))
    ensures op & 0x000F == 0x1 ==> Mnemonic(op) == "OR V" + H1(X(op)) + ", V" + H1(Y(op))
    ensures op & 0x000F == 0x2 ==> Mnemonic(op) == "AND V" + H1(X(op)) + ", V" + H1(Y(op))
    ensures op & 0x000F == 0x3 ==> Mnemonic(op) == "XOR V" + H1(X(op)) + ", V" + H1(Y(op))
    ensures op & 0x000F == 0x4 ==> Mnemonic(op) == "ADD V" + H1(X(op)) + ", V" + H1(Y(op))
    ensures op & 0x000F == 0x5 ==> Mnemonic(op) == "SUB V" + H1(X(op)) + ", V" + H1(Y(op))
    ensures op & 0x000F == 0x6 ==> Mnemonic(op) == "SHR V" + H1(X(op)) + ","
    ensures op & 0x000F == 0x7 ==> Mnemonic(op) == "SUBN V" + H1(X(op)) + ", V" + H1(Y(op))
    ensures op & 0x000F == 0xE ==> Mnemonic(op) == "SHL V" + H1(X(op)) + " { ,V" + H1(Y(op)) + "}"
    ensures op & 0x000F !in {0x0, 0x1, 0x2, 0x3, 0x4, 0x5, 0x6, 0x7, 0xE} ==> Mnemonic(op) == "0x8???"
  {
    DisassemblerUtils.SameFieldsAsEmulator(op);
  }

  // ---------------------------------------------------------------------
  // Class 9

  lemma AgreementClass9(op: bv16)
    requires op & 0xF000 == 0x9000
    ensures !DecodersDisagree(op) <==> Mnemonic(op) == Render(Decode(op))
  {
    if op & 0x000F == 0 {
      AgreementClass9SNEVxVy(op);
    } else {
      AgreementClass9Unknown(op);
    }
  }

  lemma AgreementClass9SNEVxVy(op: bv16)
    requires op & 0xF000 == 0x9000
    requires op & 0x000F == 0
    ensures !DecodersDisagree(op) <==> Mnemonic(op) == Render(Decode(op))
  {
    OpcodeLaws.DecodeClass9(op);
    MnemonicClass9(op);
  }

  lemma AgreementClass9Unknown(op: bv16)
    requires op & 0xF000 == 0x9000
    requires op & 0x000F != 0
    ensures !DecodersDisagree(op) <==> Mnemonic(op) == Render(Decode(op))
  {
    OpcodeLaws.DecodeClass9(op);
    MnemonicClass9(op);
    assert Render(Decode(op))[0] == '?';
  }

  lemma MnemonicClass9(op: bv16)
    requires op & 0xF000 == 0x9000
    ensures Mnemonic(op) == "SNE V" + H1(X(op)) + ", V" + H1(Y(op))
  {
    DisassemblerUtils.SameFieldsAsEmulator(op);
  }

  // ---------------------------------------------------------------------
  // Class A

  lemma AgreementClassA(op: bv16)
    requires op & 0xF000 == 0xA000
    ensures !DecodersDisagree(op) <==> Mnemonic(op) == Render(Decode(op))
  {
      OpcodeLaws.DecodeClassA(op);
      MnemonicClassA(op);
  }

  lemma MnemonicClassA(op: bv16)
    requires op & 0xF000 == 0xA000
    ensures Mnemonic(op) == "LD I, $" + H3(Nnn(op))
  {
    DisassemblerUtils.SameFieldsAsEmulator(op);
  }

  // ---------------------------------------------------------------------
  // Class B

  lemma AgreementClassB(op: bv16)
    requires op & 0xF000 == 0xB000
    ensures !DecodersDisagree(op) <==> Mnemonic(op) == Render(Decode(op))
  {
      OpcodeLaws.DecodeClassB(op);
      MnemonicClassB(op);
  }

  lemma MnemonicClassB(op: bv16)
    requires op & 0xF000 == 0xB000
    ensures Mnemonic(op) == "JMP V0, $" + H3(Nnn(op))
  {
    DisassemblerUtils.SameFieldsAsEmulator(op);
  }

  // ---------------------------------------------------------------------
  // Class C

  lemma AgreementClassC(op: bv16)
    requires op & 0xF000 == 0xC000
    ensures !DecodersDisagree(op) <==> Mnemonic(op) == Render(Decode(op))
  {
      OpcodeLaws.DecodeClassC(op);
      MnemonicClassC(op);
  }

  lemma MnemonicClassC(op: bv16)
    requires op & 0xF000 == 0xC000
    ensures Mnemonic(op) == "RND V" + H1(X(op)) + ", " + H2(Kk(op))
  {
    DisassemblerUtils.SameFieldsAsEmulator(op);
  }

  // ---------------------------------------------------------------------
  // Class D

  lemma AgreementClassD(op: bv16)
    requires op & 0xF000 == 0xD000
    ensures !DecodersDisagree(op) <==> Mnemonic(op) == Render(Decode(op))
  {
    if op & 0x000F == 0 {
      AgreementClassDLarge(op);
    } else {
      AgreementClassDSprite(op);
    }
  }

  lemma AgreementClassDLarge(op: bv16)
    requires op & 0xF000 == 0xD000
    requires op & 0x000F == 0
    ensures !DecodersDisagree(op) <==> Mnemonic(op) == Render(Decode(op))
  {
    OpcodeLaws.DecodeClassD(op);
    MnemonicClassD(op);
  }

  lemma AgreementClassDSprite(op: bv16)
    requires op & 0xF000 == 0xD000
    requires op & 0x000F != 0
    ensures !DecodersDisagree(op) <==> Mnemonic(op) == Render(Decode(op))
  {
    OpcodeLaws.DecodeClassD(op);
    MnemonicClassD(op);
  }

  lemma MnemonicClassD(op: bv16)
    requires op & 0xF000 == 0xD000
    ensures op & 0x000F == 0 ==> Mnemonic(op) == "DRW V" + H1(X(op)) + ", V" + H1(Y(op)) + ", " + H1(0)
    ensures op & 0x000F != 0 ==> Mnemonic(op) == "DRW V" + H1(X(op)) + ", V" + H1(Y(op)) + ", " + H1(N(op))
  {
    DisassemblerUtils.SameFieldsAsEmulator(op);
  }

  // ---------------------------------------------------------------------
  // Class E

  lemma AgreementClassE(op: bv16)
    requires op & 0xF000 == 0xE000
    ensures !DecodersDisagree(op) <==> Mnemonic(op) == Render(Decode(op))
  {
    if op & 0x00FF == 0x9E {
      AgreementClassESkip(op);
    } else if op & 0x00FF == 0xA1 {
      AgreementClassESkipNot(op);
    } else {
      AgreementClassEUnknown(op);
    }
  }

  lemma AgreementClassESkip(op: bv16)
    requires op & 0xF000 == 0xE000
    requires op & 0x00FF == 0x9E
    ensures !DecodersDisagree(op) <==> Mnemonic(op) == Render(Decode(op))
  {
    OpcodeLaws.DecodeClassE(op);
    MnemonicClassE(op);
  }

  lemma AgreementClassESkipNot(op: bv16)
    requires op & 0xF000 == 0xE000
    requires op & 0x00FF == 0xA1
    ensures !DecodersDisagree(op) <==> Mnemonic(op) == Render(Decode(op))
  {
    OpcodeLaws.DecodeClassE(op);
    MnemonicClassE(op);
  }

  lemma AgreementClassEUnknown(op: bv16)
    requires op & 0xF000 == 0xE000
    requires op & 0x00FF != 0x9E && op & 0x00FF != 0xA1
    ensures !DecodersDisagree(op) <==> Mnemonic(op) == Render(Decode(op))
  {
    OpcodeLaws.DecodeClassE(op);
    MnemonicClassE(op);
  }

  lemma MnemonicClassE(op: bv16)
    requires op & 0xF000 == 0xE000
    ensures op & 0x00FF == 0x9E ==> Mnemonic(op) == "SKP V" + H1(X(op))
    ensures op & 0x00FF == 0xA1 ==> Mnemonic(op) == "SKNP V" + H1(X(op))
    ensures op & 0x00FF != 0x9E && op & 0x00FF != 0xA1 ==> Mnemonic(op) == "0xEX??"
  {
    DisassemblerUtils.SameFieldsAsEmulator(op);
  }

  // ---------------------------------------------------------------------
  // Class F

  lemma AgreementClassF(op: bv16)
    requires op & 0xF000 == 0xF000
    ensures !DecodersDisagree(op) <==> Mnemonic(op) == Render(Decode(op))
  {
    if op & 0x00FF == 0x07 {
      AgreementClassFLDVxDT(op);
    } else if op & 0x00FF == 0x0A {
      AgreementClassFLDVxK(op);
    } else if op & 0x00FF == 0x15 {
      AgreementClassFLDDTVx(op);
    } else if op & 0x00FF == 0x18 {
      AgreementClassFLDSTVx(op);
    } else if op & 0x00FF == 0x1E {
      AgreementClassFADDIVx(op);
    } else if op & 0x00FF == 0x29 {
      AgreementClassFLDFVx(op);
    } else if op & 0x00FF == 0x30 {
      AgreementClassFLDHFVx(op);
    } else if op & 0x00FF == 0x33 {
      AgreementClassFLDBVx(op);
    } else if op & 0x00FF == 0x55 {
      AgreementClassFLDIVx(op);
    } else if op & 0x00FF == 0x65 {
      AgreementClassFLDVxI(op);
    } else if op & 0x00FF == 0x75 {
      AgreementClassFLDRV(op);
    } else if op & 0x00FF == 0x85 {
      AgreementClassFLDVxR(op);
    } else {
      AgreementClassFUnknown(op);
    }
  }

  lemma AgreementClassFLDVxDT(op: bv16)
    requires op & 0xF000 == 0xF000
    requires op & 0x00FF == 0x07
    ensures !DecodersDisagree(op) <==> Mnemonic(op) == Render(Decode(op))
  {
    OpcodeLaws.DecodeClassF(op);
    MnemonicClassF(op);
  }

  lemma AgreementClassFLDVxK(op: bv16)
    requires op & 0xF000 == 0xF000
    requires op & 0x00FF == 0x0A
    ensures !DecodersDisagree(op) <==> Mnemonic(op) == Render(Decode(op))
  {
    OpcodeLaws.DecodeClassF(op);
    MnemonicClassF(op);
  }

  lemma AgreementClassFLDDTVx(op: bv16)
    requires op & 0xF000 == 0xF000
    requires op & 0x00FF == 0x15
    ensures !DecodersDisagree(op) <==> Mnemonic(op) == Render(Decode(op))
  {
    OpcodeLaws.DecodeClassF(op);
    MnemonicClassF(op);
  }

  lemma AgreementClassFLDSTVx(op: bv16)
    requires op & 0xF000 == 0xF000
    requires op & 0x00FF == 0x18
    ensures !DecodersDisagree(op) <==> Mnemonic(op) == Render(Decode(op))
  {
    OpcodeLaws.DecodeClassF(op);
    MnemonicClassF(op);
  }

  lemma AgreementClassFADDIVx(op: bv16)
    requires op & 0xF000 == 0xF000
    requires op & 0x00FF == 0x1E
    ensures !DecodersDisagree(op) <==> Mnemonic(op) == Render(Decode(op))
  {
    OpcodeLaws.DecodeClassF(op);
    MnemonicClassF(op);
  }

  lemma AgreementClassFLDFVx(op: bv16)
    requires op & 0xF000 == 0xF000
    requires op & 0x00FF == 0x29
    ensures !DecodersDisagree(op) <==> Mnemonic(op) == Render(Decode(op))
  {
    OpcodeLaws.DecodeClassF(op);
    MnemonicClassF(op);
  }

  lemma AgreementClassFLDHFVx(op: bv16)
    requires op & 0xF000 == 0xF000
    requires op & 0x00FF == 0x30
    ensures !DecodersDisagree(op) <==> Mnemonic(op) == Render(Decode(op))
  {
    OpcodeLaws.DecodeClassF(op);
    MnemonicClassF(op);
    assert Render(Decode(op))[0] == 'L';
  }

  lemma AgreementClassFLDBVx(op: bv16)
    requires op & 0xF000 == 0xF000
    requires op & 0x00FF == 0x33
    ensures !DecodersDisagree(op) <==> Mnemonic(op) == Render(Decode(op))
  {
    OpcodeLaws.DecodeClassF(op);
    MnemonicClassF(op);
  }

  lemma AgreementClassFLDIVx(op: bv16)
    requires op & 0xF000 == 0xF000
    requires op & 0x00FF == 0x55
    ensures !DecodersDisagree(op) <==> Mnemonic(op) == Render(Decode(op))
  {
    OpcodeLaws.DecodeClassF(op);
    MnemonicClassF(op);
  }

  lemma AgreementClassFLDVxI(op: bv16)
    requires op & 0xF000 == 0xF000
    requires op & 0x00FF == 0x65
    ensures !DecodersDisagree(op) <==> Mnemonic(op) == Render(Decode(op))
  {
    OpcodeLaws.DecodeClassF(op);
    MnemonicClassF(op);
  }

  lemma AgreementClassFLDRV(op: bv16)
    requires op & 0xF000 == 0xF000
    requires op & 0x00FF == 0x75
    ensures !DecodersDisagree(op) <==> Mnemonic(op) == Render(Decode(op))
  {
    OpcodeLaws.DecodeClassF(op);
    MnemonicClassF(op);
    assert Render(Decode(op))[0] == 'L';
  }

  lemma AgreementClassFLDVxR(op: bv16)
    requires op & 0xF000 == 0xF000
    requires op & 0x00FF == 0x85
    ensures !DecodersDisagree(op) <==> Mnemonic(op) == Render(Decode(op))
  {
    OpcodeLaws.DecodeClassF(op);
    MnemonicClassF(op);
    assert Render(Decode(op))[0] == 'L';
  }

  lemma AgreementClassFUnknown(op: bv16)
    requires op & 0xF000 == 0xF000
    requires op & 0x00FF !in {0x07, 0x0A, 0x15, 0x18, 0x1E, 0x29, 0x30, 0x33, 0x55, 0x65, 0x75, 0x85}
    ensures !DecodersDisagree(op) <==> Mnemonic(op) == Render(Decode(op))
  {
    OpcodeLaws.DecodeClassF(op);
    MnemonicClassF(op);
  }

  lemma MnemonicClassF(op: bv16)
    requires op & 0xF000 == 0xF000
    ensures op & 0x00FF == 0x07 ==> Mnemonic(op) == "LD, V" + H1(X(op)) + " DT"
    ensures op & 0x00FF == 0x0A ==> Mnemonic(op) == "LD V" + H1(X(op)) + ", K"
    ensures op & 0x00FF == 0x15 ==> Mnemonic(op) == "LD DT, V" + H1(X(op))
    ensures op & 0x00FF == 0x18 ==> Mnemonic(op) == "LD ST, V" + H1(X(op))
    ensures op & 0x00FF == 0x1E ==> Mnemonic(op) == "ADD I, V" + H1(X(op))
    ensures op & 0x00FF == 0x29 ==> Mnemonic(op) == "LD F, V" + H1(X(op))
    ensures op & 0x00FF == 0x33 ==> Mnemonic(op) == "LD B, V" + H1(X(op))
    ensures op & 0x00FF == 0x55 ==> Mnemonic(op) == "LD [I], V" + H1(X(op))
    ensures op & 0x00FF == 0x65 ==> Mnemonic(op) == "LD V" + H1(X(op)) + ", [I]"
    ensures op & 0x00FF !in {0x07, 0x0A, 0x15, 0x18, 0x1E, 0x29, 0x33, 0x55, 0x65} ==> Mnemonic(op) == "0xF???"
  {
    DisassemblerUtils.SameFieldsAsEmulator(op);
  }
}

/** Properties of the disassembler: the shape of a listing, its inverse,
    and what `Mnemonic` does with each opcode class. */
module DisassemblerLaws {
  import opened DisassemblerUtils
  import opened HexFormat
  import opened Disassembler

  // ---------------------------------------------------------------------
  // The listing

  /** Entry i of the listing from `addr` holds the opcode of bytes 2i and
      2i+1, big-endian, at address addr + 2i; there are ⌊|rom|/2⌋ of them. */
  lemma {:induction false} EntriesShape(rom: seq<bv8>, addr: nat)
    ensures |Entries(rom, addr)| == |rom| / 2
    ensures forall i :: 0 <= i < |rom| / 2 ==>
              Entries(rom, addr)[i] ==
                Entry(addr + 2 * i, Opcode(rom[2 * i], rom[2 * i + 1]),
                      Mnemonic(Opcode(rom[2 * i], rom[2 * i + 1])))
    decreases |rom|
  {
    if |rom| >= 2 {
      var rest := rom[2..];
      EntriesShape(rest, addr + 2);
      forall i | 1 <= i < |rom| / 2
        ensures rom[2 * i] == rest[2 * (i - 1)] && rom[2 * i + 1] == rest[2 * (i - 1) + 1]
      {
      }
    }
  }

  /** The i-th opcode of a ROM is rom[2i]·256 + rom[2i+1] and is listed at
      address 0x200 + 2i; an odd trailing byte is not listed. */
  lemma ListingShape(rom: seq<bv8>)
    ensures |Listing(rom)| == |rom| / 2
    ensures forall i :: 0 <= i < |rom| / 2 ==>
              && Listing(rom)[i].addr == 0x200 + 2 * i
              && Listing(rom)[i].opcode as int == rom[2 * i] as int * 256 + rom[2 * i + 1] as int
              && Listing(rom)[i].instr == Mnemonic(Listing(rom)[i].opcode)
  {
    EntriesShape(rom, StartAddr);
  }

  /** Splitting an opcode into its two bytes undoes `Opcode`. */
  lemma OpcodeBytesOfOpcode(hi: bv8, lo: bv8)
    ensures OpcodeBytes(Opcode(hi, lo)) == [hi, lo]
  {
  }

  lemma {:induction false} EntriesBytes(rom: seq<bv8>, addr: nat)
    ensures ListedBytes(Entries(rom, addr)) + Remainder(rom) == rom
    decreases |rom|
  {
    if |rom| >= 2 {
      EntriesBytes(rom[2..], addr + 2);
      FirstEntryBytes(rom, addr);
      BytesStep(rom, ListedBytes(Entries(rom, addr)), ListedBytes(Entries(rom[2..], addr + 2)));
    } else {
      ShortRomBytes(rom, addr);
    }
  }

  /** A ROM shorter than two bytes lists nothing and is all remainder. */
  lemma ShortRomBytes(rom: seq<bv8>, addr: nat)
    requires |rom| < 2
    ensures ListedBytes(Entries(rom, addr)) + Remainder(rom) == rom
  {
    assert Remainder(rom) == rom;
  }

  /** The induction step, on the byte sequences alone: the first two
      bytes, then the rest. */
  lemma BytesStep(rom: seq<bv8>, listed: seq<bv8>, rest: seq<bv8>)
    requires |rom| >= 2
    requires listed == [rom[0], rom[1]] + rest
    requires rest + Remainder(rom[2..]) == rom[2..]
    ensures listed + Remainder(rom) == rom
  {
    var head, tail := [rom[0], rom[1]], Remainder(rom[2..]);
    RemainderOfTail(rom);
    assert (head + rest) + tail == head + (rest + tail);
    assert head + rom[2..] == rom;
  }

  /** Dropping two bytes keeps the trailing byte, if any. */
  lemma RemainderOfTail(rom: seq<bv8>)
    requires |rom| >= 2
    ensures Remainder(rom[2..]) == Remainder(rom)
  {
    var k := |rom| % 2;
    assert (|rom| - 2) % 2 == k;
    assert rom[2..][|rom| - 2 - k..] == rom[|rom| - k..];
  }

  /** The first entry's opcode, written back, is the first two bytes. */
  lemma FirstEntryBytes(rom: seq<bv8>, addr: nat)
    requires |rom| >= 2
    ensures ListedBytes(Entries(rom, addr)) == [rom[0], rom[1]] + ListedBytes(Entries(rom[2..], addr + 2))
  {
    var entries := Entries(rom, addr);
    OpcodeBytesOfOpcode(rom[0], rom[1]);
    assert entries[0].opcode == Opcode(rom[0], rom[1]);
    assert entries[1..] == Entries(rom[2..], addr + 2);
  }

  /** Nothing is lost or reordered: the listed opcodes, written back
      big-endian, followed by the remainder, are the ROM; the remainder is
      one byte exactly when the ROM has odd length. */
  lemma ListingRoundTrip(rom: seq<bv8>)
    ensures ListedBytes(Listing(rom)) + Remainder(rom) == rom
    ensures |Remainder(rom)| == |rom| % 2
  {
    EntriesBytes(rom, StartAddr);
  }

  /** The printed output is the header followed by one line per entry. */
  lemma OutputShape(rom: seq<bv8>)
    ensures |Output(rom)| == |rom| / 2 + 1
    ensures Output(rom)[0] == "0xaddr: 0xopcode instr"
    ensures forall i :: 0 <= i < |rom| / 2 ==> Output(rom)[i + 1] == Line(Listing(rom)[i])
  {
    ListingShape(rom);
  }

  /** A printed line below address 0x10000 holds the address in four hex
      digits, the opcode in four, then the mnemonic; both numbers read
      back. */
  lemma LineFields(e: Entry)
    requires e.addr < 0x10000
    ensures |Line(e)| == 15 + |e.instr|
    ensures Line(e)[..2] == "0x" && Line(e)[6..10] == ": 0x" && Line(e)[14] == ' '
    ensures Line(e)[2..6] == Format(e.addr, 4) && Line(e)[10..14] == Format(e.opcode as int, 4)
    ensures IsHex(Format(e.addr, 4)) && ParseHex(Format(e.addr, 4)) == e.addr
    ensures IsHex(Format(e.opcode as int, 4)) && ParseHex(Format(e.opcode as int, 4)) == e.opcode as int
    ensures Line(e)[15..] == e.instr
  {
    assert Pow16(4) == 0x10000 by {
      assert Pow16(1) == 16;
      assert Pow16(2) == 256;
      assert Pow16(3) == 4096;
    }
    FormatWidth(e.addr, 4);
    FormatWidth(e.opcode as int, 4);
    ParseFormat(e.addr, 4);
    ParseFormat(e.opcode as int, 4);
  }

  // ---------------------------------------------------------------------
  // Mnemonics

  /** Register operands are one upper-case hex digit, kk two and nnn
      three, and each reads back as the field. */
  lemma OperandWidths(op: bv16)
    ensures |H1(X(op))| == 1 && IsHex(H1(X(op))) && ParseHex(H1(X(op))) == X(op) as int
    ensures |H1(Y(op))| == 1 && IsHex(H1(Y(op))) && ParseHex(H1(Y(op))) == Y(op) as int
    ensures |H1(K(op))| == 1 && IsHex(H1(K(op))) && ParseHex(H1(K(op))) == K(op) as int
    ensures |H2(Kk(op))| == 2 && IsHex(H2(Kk(op))) && ParseHex(H2(Kk(op))) == Kk(op) as int
    ensures |H3(Nnn(op))| == 3 && IsHex(H3(Nnn(op))) && ParseHex(H3(Nnn(op))) == Nnn(op) as int
  {
    NibbleWidth(X(op));
    NibbleWidth(Y(op));
    NibbleWidth(K(op));
    ByteWidth(Kk(op));
    AddressWidth(Nnn(op));
  }

  lemma NibbleWidth(v: bv8)
    requires v < 16
    ensures |H1(v)| == 1 && IsHex(H1(v)) && ParseHex(H1(v)) == v as int
  {
    assert Pow16(1) == 16;
    FormatWidth(v as int, 1);
    ParseFormat(v as int, 1);
  }

  lemma ByteWidth(v: bv8)
    ensures |H2(v)| == 2 && IsHex(H2(v)) && ParseHex(H2(v)) == v as int
  {
    assert Pow16(2) == 256;
    FormatWidth(v as int, 2);
    ParseFormat(v as int, 2);
  }

  lemma AddressWidth(v: bv16)
    requires v < 0x1000
    ensures |H3(v)| == 3 && IsHex(H3(v)) && ParseHex(H3(v)) == v as int
  {
    assert Pow16(3) == 4096;
    FormatWidth(v as int, 3);
    ParseFormat(v as int, 3);
  }

  /** Class 0 compares the whole opcode: only 0x00E0 is CLS and only 0x00EE
      is RET; every other class-0 opcode is SYS with its address. */
  lemma ClassZeroWholeOpcode(op: bv16)
    requires op & 0xF000 == 0
    ensures Mnemonic(op) == "CLS" <==> op == 0x00E0
    ensures Mnemonic(op) == "RET" <==> op == 0x00EE
    ensures op != 0x00E0 && op != 0x00EE ==> Mnemonic(op) == "SYS $" + H3(Nnn(op))
  {
    if op != 0x00E0 && op != 0x00EE {
      assert Mnemonic(op)[0] == 'S';
    }
  }

  /** Classes 5 and 9 do not look at the low nibble. */
  lemma LowNibbleIgnored(op: bv16)
    requires op & 0xF000 == 0x5000 || op & 0xF000 == 0x9000
    ensures Mnemonic(op) == Mnemonic(op & 0xFFF0)
  {
    assert X(op) == X(op & 0xFFF0) && Y(op) == Y(op & 0xFFF0);
  }

  /** Class 8 renders the placeholder "0x8???" exactly for the low nibbles
      8 to D and F. */
  lemma ClassEightPlaceholder(op: bv16)
    ensures Mnemonic(op) == "0x8???" <==> op & 0xF000 == 0x8000 && 0x8 <= K(op) != 0xE
  {
    Shape(op);
    if Mnemonic(op) == "0x8???" {
      assert Mnemonic(op)[2] == '8';
    }
  }

  /** Class E renders "0xEX??" exactly when the low byte is neither 9E nor A1. */
  lemma ClassEPlaceholder(op: bv16)
    ensures Mnemonic(op) == "0xEX??" <==> op & 0xF000 == 0xE000 && Kk(op) != 0x9E && Kk(op) != 0xA1
  {
    Shape(op);
    if Mnemonic(op) == "0xEX??" {
      assert Mnemonic(op)[2] == 'E';
    }
  }

  /** Class F renders "0xF???" exactly when the low byte is none of the
      nine listed ones (so the Super Chip-48 codes 30, 75 and 85 too). */
  lemma ClassFPlaceholder(op: bv16)
    ensures Mnemonic(op) == "0xF???" <==>
              op & 0xF000 == 0xF000 &&
              Kk(op) !in {0x07, 0x0A, 0x15, 0x18, 0x1E, 0x29, 0x33, 0x55, 0x65}
  {
    Shape(op);
    if Mnemonic(op) == "0xF???" {
      assert Mnemonic(op)[2] == 'F';
    }
  }

  /** The 16 class arms cover every opcode, so the fallback "???" is never
      produced. */
  lemma NeverUnknown(op: bv16)
    ensures Mnemonic(op) != "???"
  {
    Shape(op);
  }

  /** Every mnemonic has at least three characters and does not start with
      '?'; the only ones that start with a digit are the placeholders
      "0x8", "0xE" and "0xF" of their own class. */
  predicate WellShaped(op: bv16)
  {
    var m := Mnemonic(op);
    && |m| >= 3
    && m[0] != '?'
    && (m[0] == '0' ==>
          || (m[2] == '8' && op & 0xF000 == 0x8000)
          || (m[2] == 'E' && op & 0xF000 == 0xE000)
          || (m[2] == 'F' && op & 0xF000 == 0xF000))
  }

  /** Every opcode's mnemonic is well shaped, one class at a time. */
  lemma Shape(op: bv16)
    ensures WellShaped(op)
  {
    if op & 0xF000 == 0x0000 {
      ShapeClass0(op);
    } else if op & 0xF000 == 0x1000 {
      ShapeClass1(op);
    } else if op & 0xF000 == 0x2000 {
      ShapeClass2(op);
    } else if op & 0xF000 == 0x3000 {
      ShapeClass3(op);
    } else if op & 0xF000 == 0x4000 {
      ShapeClass4(op);
    } else if op & 0xF000 == 0x5000 {
      ShapeClass5(op);
    } else if op & 0xF000 == 0x6000 {
      ShapeClass6(op);
    } else if op & 0xF000 == 0x7000 {
      ShapeClass7(op);
    } else if op & 0xF000 == 0x8000 && op & 0x000F <= 0x1 {
      ShapeClass8Low(op);
    } else if op & 0xF000 == 0x8000 && op & 0x000F <= 0x3 {
      ShapeClass8Logic(op);
    } else if op & 0xF000 == 0x8000 && op & 0x000F <= 0x5 {
      ShapeClass8Mid(op);
    } else if op & 0xF000 == 0x8000 && op & 0x000F <= 0x7 {
      ShapeClass8Shifts(op);
    } else if op & 0xF000 == 0x8000 {
      ShapeClass8High(op);
    } else if op & 0xF000 == 0x9000 {
      ShapeClass9(op);
    } else if op & 0xF000 == 0xA000 {
      ShapeClassA(op);
    } else if op & 0xF000 == 0xB000 {
      ShapeClassB(op);
    } else if op & 0xF000 == 0xC000 {
      ShapeClassC(op);
    } else if op & 0xF000 == 0xD000 {
      ShapeClassD(op);
    } else if op & 0xF000 == 0xE000 {
      ShapeClassE(op);
    } else if op & 0xF000 == 0xF000 && op & 0x00FF < 0x20 {
      ShapeClassFLow(op);
    } else {
      ShapeClassFHigh(op);
    }
  }

  lemma ShapeClass0(op: bv16)
    requires op & 0xF000 == 0x0000
    ensures WellShaped(op)
  {
  }

  lemma ShapeClass1(op: bv16)
    requires op & 0xF000 == 0x1000
    ensures WellShaped(op)
  {
  }

  lemma ShapeClass2(op: bv16)
    requires op & 0xF000 == 0x2000
    ensures WellShaped(op)
  {
  }

  lemma ShapeClass3(op: bv16)
    requires op & 0xF000 == 0x3000
    ensures WellShaped(op)
  {
  }

  lemma ShapeClass4(op: bv16)
    requires op & 0xF000 == 0x4000
    ensures WellShaped(op)
  {
  }

  lemma ShapeClass5(op: bv16)
    requires op & 0xF000 == 0x5000
    ensures WellShaped(op)
  {
  }

  lemma ShapeClass6(op: bv16)
    requires op & 0xF000 == 0x6000
    ensures WellShaped(op)
  {
  }

  lemma ShapeClass7(op: bv16)
    requires op & 0xF000 == 0x7000
    ensures WellShaped(op)
  {
  }

  lemma ShapeClass8Low(op: bv16)
    requires op & 0xF000 == 0x8000 && op & 0x000F <= 0x1
    ensures WellShaped(op)
  {
  }

  lemma ShapeClass8Logic(op: bv16)
    requires op & 0xF000 == 0x8000 && 0x2 <= op & 0x000F <= 0x3
    ensures WellShaped(op)
  {
  }

  lemma ShapeClass8Mid(op: bv16)
    requires op & 0xF000 == 0x8000 && 0x4 <= op & 0x000F <= 0x5
    ensures WellShaped(op)
  {
  }

  lemma ShapeClass8Shifts(op: bv16)
    requires op & 0xF000 == 0x8000 && 0x6 <= op & 0x000F <= 0x7
    ensures WellShaped(op)
  {
  }

  lemma ShapeClass8High(op: bv16)
    requires op & 0xF000 == 0x8000 && 0x8 <= op & 0x000F
    ensures WellShaped(op)
  {
  }

  lemma ShapeClass9(op: bv16)
    requires op & 0xF000 == 0x9000
    ensures WellShaped(op)
  {
  }

  lemma ShapeClassA(op: bv16)
    requires op & 0xF000 == 0xA000
    ensures WellShaped(op)
  {
  }

  lemma ShapeClassB(op: bv16)
    requires op & 0xF000 == 0xB000
    ensures WellShaped(op)
  {
  }

  lemma ShapeClassC(op: bv16)
    requires op & 0xF000 == 0xC000
    ensures WellShaped(op)
  {
  }

  lemma ShapeClassD(op: bv16)
    requires op & 0xF000 == 0xD000
    ensures WellShaped(op)
  {
  }

  lemma ShapeClassE(op: bv16)
    requires op & 0xF000 == 0xE000
    ensures WellShaped(op)
  {
  }

  lemma ShapeClassFLow(op: bv16)
    requires op & 0xF000 == 0xF000 && op & 0x00FF < 0x20
    ensures WellShaped(op)
  {
  }

  lemma ShapeClassFHigh(op: bv16)
    requires op & 0xF000 == 0xF000 && 0x20 <= op & 0x00FF
    ensures WellShaped(op)
  {
  }
}

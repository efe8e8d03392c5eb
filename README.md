# CHIP-8 decoder, CHIP-8 disassembler and WAV header reader in Dafny

This project models three small pieces of the `rustprojects` repository and
proves properties of them:

- **The CHIP-8 emulator's opcode decoder** (`emulator-chip-8/src/opcodes.rs`).
  `Opcodes.Decode` maps every 16-bit opcode to an `Instruction`, match arm by
  match arm, with the field helpers `nnn`, `kk`, `n`, `x` and `y` on
  bit-vectors.
  - `OpcodeLaws` states which opcodes are recognised and what each class
    decodes to.
  - It also gives a reference encoder (`Encode`, the instruction table the
    source's doc comments follow) and proves `Decode` is its inverse in both
    directions: every well-formed instruction decodes from its encoding, and
    re-encoding a decoded opcode gives it back. The exception is that the
    class-0 codes other than SYS lose bits 8 to 11, which the decoder ignores.
- **The CHIP-8 disassembler** (`disassembler-chip-8/src/disassembler.rs`,
  `utils.rs`).
  - `Disassembler.Mnemonic` is `decode`. `{:0wX}` is modelled by
    `HexFormat.Format`, proved to print exactly `w` upper-case digits and to
    read back as the value.
  - `Disassembler.Listing` and `Output` are what `run` computes and prints
    for a ROM: big-endian opcodes at 0x200, 0x202, … and an odd trailing
    byte left over.
  - `DecoderAgreement` compares the two decoders. It proves they agree on
    exactly the opcodes outside `DecodersDisagree`, which lists the
    differences:
    - in class 0 the emulator reads the low byte only, so 0x01E0 is CLS to
      it and SYS to the disassembler;
    - the Super Chip-48 codes 00Cn, 00FB to 00FF, Fx30, Fx75 and Fx85 are
      known to the emulator only;
    - the disassembler ignores the low nibble of classes 5 and 9.
  - To compare the two, `Render` prints an emulator instruction in the
    disassembler's syntax. The Super Chip-48 instructions have no syntax in
    the disassembler, so they are given the usual mnemonics SCD, SCR, SCL,
    EXIT, LOW, HIGH and LD HF/R.
- **The WAV header reader** (`wavheader/src/main.rs`, `utils.rs`).
  - `WavUtils.WavHeader` is the `WAVHeader` record. Its constructor is
    `WAVHeader::new`, which stores each argument in the field of the same
    name.
  - `WavHeaderReader.DecodeHeader` reads the 44-byte header at fixed
    offsets: the four ids big-endian, the other fields little-endian, via
    `Endian`.
  - `Extract` is `main` without the I/O. It takes the first 44 bytes,
    decodes them and renders the RIFF and WAVE ids as text, or "Invalid"
    when they are not UTF-8 (`Utf8.WellFormed`, RFC 3629 section 4).
  - `EncodeHeader` writes a header back, and the two round trips connect it
    to `DecodeHeader`.

Beyond the original CHIP-8 set, the emulator's decoder also:

- decodes the Super Chip-48 codes 00Cn, 00FB to 00FF, Fx30, Fx75 and Fx85;
- gives a zero sprite height in class D its own instruction (`DRWVxVy0`);
- knows twelve class-F codes;
- decides class 0 by the low byte alone, not by the whole opcode.

## Model

| member | source | states |
|---|---|---|
| Opcodes.Decode | emulator-chip-8/src/opcodes.rs:99-167 | `decode`, arm by arm; its properties are stated by UnknownExactly, UnknownOnlyInFiveClasses, ClassZero, RegisterPairClasses, DrawHeights, DecodeRoundTrip and DecodeEncode below |
| Opcodes.Kk | emulator-chip-8/src/opcodes.rs:174 | kk is the opcode modulo 256 |
| Opcodes.Nnn | emulator-chip-8/src/opcodes.rs:171 | nnn is below 0x1000 |
| Opcodes.N | emulator-chip-8/src/opcodes.rs:177 | n is below 16 |
| Opcodes.X | emulator-chip-8/src/opcodes.rs:180 | x is below 16 |
| Opcodes.Y | emulator-chip-8/src/opcodes.rs:183 | y is below 16 |
| OpcodeLaws.NnnIsXThenKk | emulator-chip-8/src/opcodes.rs:171-180 | nnn is the x nibble followed by kk |
| OpcodeLaws.KkIsYThenN | emulator-chip-8/src/opcodes.rs:174-183 | kk is the y nibble followed by n |
| OpcodeLaws.OpcodeIsClassThenNnn | emulator-chip-8/src/opcodes.rs:100-171 | the opcode is its class nibble followed by nnn, i.e. op == (op & 0xF000) \| nnn |
| OpcodeLaws.FieldsAsIntegers | emulator-chip-8/src/opcodes.rs:171-183 | as integers, nnn == x·256 + kk and kk == y·16 + n |
| OpcodeLaws.UnknownExactly | emulator-chip-8/src/opcodes.rs:99-167 | decode yields Unknown exactly for the opcodes outside the listed patterns, and Unknown carries the raw opcode unchanged |
| OpcodeLaws.UnknownOnlyInFiveClasses | emulator-chip-8/src/opcodes.rs:100-166 | Unknown arises only in classes 5, 8, 9, E and F; the catch-all arm at line 166 is never reached |
| OpcodeLaws.ClassZero | emulator-chip-8/src/opcodes.rs:101-111 | class 0 is decided by the low byte: CLS iff E0, RET iff EE, SCD(n) iff C0-CF, SYS with the whole opcode as address iff the low byte is none of E0, EE, FB-FF, C0-CF; every non-SYS code decodes like its low byte alone |
| OpcodeLaws.RegisterPairClasses | emulator-chip-8/src/opcodes.rs:116-138 | classes 5 and 9 decode SE/SNE Vx, Vy only for a zero low nibble, else Unknown; class 8 knows nibbles 0-7 and E only |
| OpcodeLaws.DrawHeights | emulator-chip-8/src/opcodes.rs:142-145 | height 0 gives DRWVxVy0, heights 1-15 give DRWVxVyn with that height |
| OpcodeLaws.DecodeRoundTrip | emulator-chip-8/src/opcodes.rs:99-167 | every decoded instruction is well formed and re-encodes to the opcode, class-0 non-SYS codes without bits 8-11 |
| OpcodeLaws.DecodeWellFormed | emulator-chip-8/src/opcodes.rs:99-167 | decoded registers and SCD's n fit a nibble, addresses fit 12 bits, a DRW height is 1-15, a SYS address is none of the other class-0 codes, and an Unknown opcode is unlisted |
| OpcodeLaws.EncodeDecode | emulator-chip-8/src/opcodes.rs:101-165 | re-encoding a decoded opcode gives it back; in class 0 only SYS keeps bits 8-11 |
| OpcodeLaws.DecodeEncode | emulator-chip-8/src/opcodes.rs:99-167 | every well-formed instruction is what its own encoding decodes to, so no variant is unreachable or decoded with other fields |
| OpcodeLaws.SameDecodeSameCanonical | emulator-chip-8/src/opcodes.rs:99-167 | two opcodes decode alike exactly when they agree on every bit the decoder reads |
| OpcodeLaws.CanonicalDecodesAlike | emulator-chip-8/src/opcodes.rs:101-111 | clearing bits 8-11 of a class-0 non-SYS code does not change its decoding |
| DisassemblerUtils.Nnn | disassembler-chip-8/src/utils.rs:2-4 | nnn is below 0x1000 |
| DisassemblerUtils.Kk | disassembler-chip-8/src/utils.rs:14-16 | kk is the opcode modulo 256 |
| DisassemblerUtils.X | disassembler-chip-8/src/utils.rs:6-8 | x is below 16 |
| DisassemblerUtils.Y | disassembler-chip-8/src/utils.rs:10-12 | y is below 16 |
| DisassemblerUtils.K | disassembler-chip-8/src/disassembler.rs:72 | the sprite-height field (assumed the low nibble) is below 16 |
| DisassemblerUtils.Nibbles | disassembler-chip-8/src/utils.rs:2-16 | as integers, op == class·4096 + x·256 + y·16 + k, kk == y·16 + k and nnn == x·256 + kk |
| DisassemblerUtils.FieldsAsIntegers | disassembler-chip-8/src/utils.rs:2-16 | kk == op mod 256, nnn == op mod 4096, x and y are the integer digits 2 and 1 in base 16 |
| DisassemblerUtils.SameFieldsAsEmulator | disassembler-chip-8/src/utils.rs:2-16 | each helper equals the emulator helper of the same name (k equals n) |
| HexFormat.Format | disassembler-chip-8/src/disassembler.rs:21 | `{:0wX}`; its width and its inverse ParseHex are stated by FormatWidth, FormatNeverTruncates and ParseFormat below |
| HexFormat.FormatWidth | disassembler-chip-8/src/disassembler.rs:21 | `{:0wX}` of a value below 16^w is exactly w upper-case hex digits |
| HexFormat.FormatNeverTruncates | disassembler-chip-8/src/disassembler.rs:21 | a value of 16^w or more is printed in full, longer than w |
| HexFormat.ParseFormat | disassembler-chip-8/src/disassembler.rs:21 | the printed digits read back as the value, whatever the width |
| Disassembler.Mnemonic | disassembler-chip-8/src/disassembler.rs:27-105 | `decode`, arm by arm; its properties are stated by ClassZeroWholeOpcode, LowNibbleIgnored, the three placeholder lemmas, NeverUnknown, Shape, OperandWidths and DecodersAgree below |
| Disassembler.Opcode | disassembler-chip-8/src/disassembler.rs:16 | the opcode of a chunk is chunk[0]·256 + chunk[1] |
| Disassembler.Entries | disassembler-chip-8/src/disassembler.rs:15-19 | the loop of `run` from a given address; stated by EntriesShape and EntriesBytes below |
| Disassembler.Listing | disassembler-chip-8/src/disassembler.rs:13-19 | `run`'s chunks from 0x200; stated by ListingShape and ListingRoundTrip below |
| Disassembler.Remainder | disassembler-chip-8/src/disassembler.rs:8-11 | the remainder of `chunks_exact(2)` has |rom| mod 2 bytes, and for an odd ROM it is the last byte |
| Disassembler.Line | disassembler-chip-8/src/disassembler.rs:21 | one printed line; its layout is stated by LineFields below |
| Disassembler.Output | disassembler-chip-8/src/disassembler.rs:14-22 | everything `run` prints on standard output; stated by OutputShape below |
| DisassemblerLaws.EntriesShape | disassembler-chip-8/src/disassembler.rs:15-19 | entry i holds bytes 2i and 2i+1 big-endian, at start + 2i, with their mnemonic; there are ⌊len/2⌋ entries |
| DisassemblerLaws.ListingShape | disassembler-chip-8/src/disassembler.rs:13-19 | the i-th listed opcode is rom[2i]·256 + rom[2i+1] at address 0x200 + 2i |
| DisassemblerLaws.OpcodeBytesOfOpcode | disassembler-chip-8/src/disassembler.rs:16 | splitting a joined opcode gives its two bytes back |
| DisassemblerLaws.EntriesBytes | disassembler-chip-8/src/disassembler.rs:8-16 | the listed opcodes written back, then the remainder, are the ROM |
| DisassemblerLaws.ListingRoundTrip | disassembler-chip-8/src/disassembler.rs:8-16 | nothing is lost or reordered, and the remainder is one byte exactly for an odd-length ROM |
| DisassemblerLaws.OutputShape | disassembler-chip-8/src/disassembler.rs:14-21 | the output is the header line and then one line per listed opcode |
| DisassemblerLaws.LineFields | disassembler-chip-8/src/disassembler.rs:21 | for addresses below 0x10000, a line is "0x", four address digits, ": 0x", four opcode digits, a space and the mnemonic, and both numbers read back; a larger address is printed in full (FormatNeverTruncates) |
| DisassemblerLaws.OperandWidths | disassembler-chip-8/src/disassembler.rs:33-100 | register operands are one hex digit, kk two and nnn three, each reading back as the field |
| DisassemblerLaws.ClassZeroWholeOpcode | disassembler-chip-8/src/disassembler.rs:30-34 | only 0x00E0 is "CLS", only 0x00EE is "RET", every other class-0 opcode is "SYS $nnn" |
| DisassemblerLaws.LowNibbleIgnored | disassembler-chip-8/src/disassembler.rs:44-64 | classes 5 and 9 render the same whatever the low nibble |
| DisassemblerLaws.ClassEightPlaceholder | disassembler-chip-8/src/disassembler.rs:50-61 | "0x8???" exactly for class 8 with low nibble 8-D or F |
| DisassemblerLaws.ClassEPlaceholder | disassembler-chip-8/src/disassembler.rs:74-80 | "0xEX??" exactly for class E with low byte neither 9E nor A1 |
| DisassemblerLaws.ClassFPlaceholder | disassembler-chip-8/src/disassembler.rs:82-102 | "0xF???" exactly for class F with a low byte outside the nine listed |
| DisassemblerLaws.NeverUnknown | disassembler-chip-8/src/disassembler.rs:28-103 | the fallback "???" is never produced |
| DisassemblerLaws.Shape | disassembler-chip-8/src/disassembler.rs:28-104 | every mnemonic has three or more characters, never starts with '?', and starts with '0' only as the placeholder of its own class (8, E or F) |
| DecoderAgreement.DecodersAgree | disassembler-chip-8/src/disassembler.rs:27-105 | the disassembler's text and the emulator's decoding, rendered alike, coincide exactly outside `DecodersDisagree` |
| Endian.U32FromBe | wavheader/src/main.rs:18 | `u32::from_be_bytes` is b0·2^24 + b1·2^16 + b2·2^8 + b3 |
| Endian.U32FromLe | wavheader/src/main.rs:19 | `u32::from_le_bytes` is b3·2^24 + b2·2^16 + b1·2^8 + b0 |
| Endian.U16FromLe | wavheader/src/main.rs:23 | `u16::from_le_bytes` is b1·2^8 + b0 |
| Endian.U32BeRoundTrip | wavheader/src/main.rs:33 | reading `to_be_bytes` back big-endian gives the word |
| Endian.U32BeBytesRoundTrip | wavheader/src/main.rs:18 | `to_be_bytes` of a big-endian read gives the four bytes back |
| Endian.U32LeRoundTrip | wavheader/src/main.rs:19 | reading `to_le_bytes` back little-endian gives the word |
| Endian.U32LeBytesRoundTrip | wavheader/src/main.rs:19 | `to_le_bytes` of a little-endian read gives the four bytes back |
| Endian.U16LeRoundTrip | wavheader/src/main.rs:23 | reading `to_le_bytes` back gives the half-word |
| Endian.U16LeBytesRoundTrip | wavheader/src/main.rs:23 | `to_le_bytes` of a little-endian read gives the two bytes back |
| Endian.LeIsReversedBe | wavheader/src/main.rs:18-19 | the little-endian bytes are the big-endian ones reversed |
| Utf8.WellFormed | wavheader/src/main.rs:33 | the check `String::from_utf8` makes; stated by AsciiIsWellFormed and NeverFirst below and used by IdText |
| Utf8.AsciiIsWellFormed | wavheader/src/main.rs:33 | ASCII bytes such as "RIFF" and "WAVE" are valid UTF-8 |
| Utf8.NeverFirst | wavheader/src/main.rs:33 | bytes starting with C0, C1, F5-FF or a continuation byte are not UTF-8 |
| WavHeaderReader.DecodeHeader | wavheader/src/main.rs:17-31 | the thirteen reads into `WAVHeader::new` (wavheader/src/utils.rs:25-55 stores each argument in its field); stated by FieldsHoldTheirSlots, FieldLocality, DecodeReadsHeaderOnly and the two round trips below |
| WavHeaderReader.FieldBytes | wavheader/src/utils.rs:8-22 | the four u16 fields take two bytes, the nine u32 fields four |
| WavHeaderReader.EncodeHeader | wavheader/src/main.rs:17-31 | the inverse of the thirteen reads: a header written back is 44 bytes, the length `main` slices, and DecodeEncode/EncodeDecode connect the two |
| WavHeaderReader.LayoutTilesHeader | wavheader/src/main.rs:18-30 | the thirteen slots are contiguous, in declaration order, from byte 0 to byte 44, and every field has one |
| WavHeaderReader.FieldsHoldTheirSlots | wavheader/src/main.rs:18-30 | each decoded field, written back in its byte order, is exactly its slot of the header |
| WavHeaderReader.FieldLocality | wavheader/src/main.rs:18-30 | a field depends only on its own slot |
| WavHeaderReader.DecodeReadsHeaderOnly | wavheader/src/main.rs:10-18 | only the first 44 bytes are read |
| WavHeaderReader.SlotsDetermineHeader | wavheader/src/main.rs:18-30 | two 44-byte headers with the same bytes in every slot are equal: the slots leave no byte unread |
| WavHeaderReader.EncodeFillsSlots | wavheader/src/main.rs:18-30 | the encoder puts each field in its slot with its byte order |
| WavHeaderReader.DecodeEncode | wavheader/src/main.rs:17-31 | decoding an encoded header gives the header back |
| WavHeaderReader.EncodeDecode | wavheader/src/main.rs:17-31 | encoding a decoded header gives its 44 bytes back: every byte is read into exactly one field |
| WavHeaderReader.IdText | wavheader/src/main.rs:33-34 | the id's text is its big-endian bytes when they are UTF-8 and "Invalid" otherwise; either way valid UTF-8 |
| WavHeaderReader.Extract | wavheader/src/main.rs:6-34 | a failed read panics on the empty header, a file under 44 bytes panics on the slice, otherwise the first 44 bytes are decoded and both ids rendered |
| WavHeaderReader.IdsAreRawBytes | wavheader/src/main.rs:33-34 | the printed ids are the raw bytes at offsets 0 and 8 when those are UTF-8, "Invalid" otherwise |
| WavHeaderReader.AsciiIdsPrintAsThemselves | wavheader/src/main.rs:33-34 | ASCII ids such as "RIFF" and "WAVE" print as themselves |

## Left out

- Instruction execution, the machine state, timers, display, keypad and ROM loading: `emulator-chip-8/src/chip8.rs` only declares the machine's fields, and no execution code exists in the files modelled.
- The command-line front ends (`emulator-chip-8/src/main.rs`, `disassembler-chip-8/src/main.rs`) and the 500-cycle driver loop are not part of this model.
- File reading (`read_file_bytes`) is not modelled. The file's contents, or the failure to read it, are a parameter of `Extract`.
- Printing is not modelled. `run`'s lines are the values `Output` holds, and the odd-byte warning is the `Remainder` it would print. The WAV header dump is the `Extraction` value.
- Random-number generation for RND is not modelled; only its decoding exists in the source.
- DisassemblerUtils.K: `disassembler.rs` line 72 calls `utils::k`, which `utils.rs` does not define. It is modelled as the low nibble, which is the sprite height in the instruction table.
- Utf8.WellFormed: `String::from_utf8` is a library call. It is modelled by the well-formedness rule of RFC 3629, and strings by their UTF-8 bytes, so `IdText` returns bytes rather than characters.
- DecoderAgreement.Render: the disassembler has no syntax for the Super Chip-48 instructions. Their rendering is a choice of this model, and it only affects which opcodes `DecodersDisagree` lists for them.
- Integer widths: opcodes, bytes and header fields are bit-vectors of the source's width. ROM addresses are unbounded naturals, where `usize` would overflow only past any real ROM size.

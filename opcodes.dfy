/** The CHIP-8 emulator's opcode decoder (emulator-chip-8/src/opcodes.rs).
    `Decode` maps every 16-bit word to an `Instruction`: standard CHIP-8,
    the Super Chip-48 extensions, or `Unknown` carrying the raw word.
    Opcodes and fields are bit-vectors so that the masks and shifts of the
    source are modelled exactly (`u16` is `bv16`, `u8` is `bv8`). */
module Opcodes {

  datatype Instruction =
    | CLS                                   // 00E0
    | RET                                   // 00EE
    | SYS(addr: bv16)                       // 0nnn
    | JP(addr: bv16)                        // 1nnn
    | CALL(addr: bv16)                      // 2nnn
    | SEVxImm(x: bv8, imm: bv8)             // 3xkk
    | SNEVxImm(x: bv8, imm: bv8)            // 4xkk
    | SEVxVy(x: bv8, y: bv8)                // 5xy0
    | LDVxImm(x: bv8, imm: bv8)             // 6xkk
    | ADDVxImm(x: bv8, imm: bv8)            // 7xkk
    | LDVxVy(x: bv8, y: bv8)                // 8xy0
    | ORVxVy(x: bv8, y: bv8)                // 8xy1
    | ANDVxVy(x: bv8, y: bv8)               // 8xy2
    | XORVxVy(x: bv8, y: bv8)               // 8xy3
    | ADDVxVy(x: bv8, y: bv8)               // 8xy4
    | SUBVxVy(x: bv8, y: bv8)               // 8xy5
    | SHRVxVy(x: bv8, y: bv8)               // 8xy6
    | SUBNVxVy(x: bv8, y: bv8)              // 8xy7
    | SHLVxVy(x: bv8, y: bv8)               // 8xyE
    | SNEVxVy(x: bv8, y: bv8)               // 9xy0
    | LDI(addr: bv16)                       // Annn
    | JPV0(addr: bv16)                      // Bnnn
    | RNDVxImm(x: bv8, imm: bv8)            // Cxkk
    | DRWVxVyn(x: bv8, y: bv8, n: bv8)      // Dxyn, n != 0
    | DRWVxVy0(x: bv8, y: bv8)              // Dxy0 (Super Chip-48)
    | SKPVx(x: bv8)                         // Ex9E
    | SKNPVx(x: bv8)                        // ExA1
    | LDVxDT(x: bv8)                        // Fx07
    | LDVxK(x: bv8)                         // Fx0A
    | LDDTVx(x: bv8)                        // Fx15
    | LDSTVx(x: bv8)                        // Fx18
    | ADDIVx(x: bv8)                        // Fx1E
    | LDFVx(x: bv8)                         // Fx29
    | LDBVx(x: bv8)                         // Fx33
    | LDIVx(x: bv8)                         // Fx55
    | LDVxI(x: bv8)                         // Fx65
    | LDHFVx(x: bv8)                        // Fx30 (Super Chip-48)
    | LDRV(x: bv8)                          // Fx75 (Super Chip-48)
    | LDVxR(x: bv8)                         // Fx85 (Super Chip-48)
    | SCD(n: bv8)                           // 00Cn (Super Chip-48)
    | SCR                                   // 00FB (Super Chip-48)
    | SCL                                   // 00FC (Super Chip-48)
    | EXIT                                  // 00FD (Super Chip-48)
    | LOW                                   // 00FE (Super Chip-48)
    | HIGH                                  // 00FF (Super Chip-48)
    | Unknown(opcode: bv16)

  // ---------------------------------------------------------------------
  // Field extraction

  /** The 12 least significant bits (NNN). */
  function Nnn(opcode: bv16): (r: bv16)
    ensures r < 0x1000
  {
    opcode & 0x0FFF
  }

  /** The least significant byte (KK): the opcode modulo 256. */
  function Kk(opcode: bv16): (r: bv8)
    ensures r as int == opcode as int % 256
  {
    LowByteValue(opcode);
    (opcode & 0x00FF) as bv8
  }

  /** The low byte of a 16-bit word is the word modulo 256. */
  lemma LowByteValue(opcode: bv16)
    ensures ((opcode & 0x00FF) as bv8) as int == opcode as int % 256
  {
    var lo := (opcode & 0x00FF) as bv8;
    var hi := (opcode >> 8) as bv8;
    assert opcode == ((hi as bv16) << 8) | lo as bv16;
    JoinBytes(hi, lo);
    ModOfJoin(opcode as int, hi as int, lo as int);
  }

  /** n == q * 256 + r with r a byte leaves r modulo 256. */
  lemma ModOfJoin(n: int, q: int, r: int)
    requires n == q * 256 + r && 0 <= r < 256
    ensures n % 256 == r
  {
  }

  /** Two bytes side by side, read as an integer. */
  lemma JoinBytes(hi: bv8, lo: bv8)
    ensures (((hi as bv16) << 8) | lo as bv16) as int == hi as int * 256 + lo as int
  {
  }

  /** The least significant nibble (N). */
  function N(opcode: bv16): (r: bv8)
    ensures r < 16
  {
    (opcode & 0x000F) as bv8
  }

  /** The X nibble, bits 8 to 11. */
  function X(opcode: bv16): (r: bv8)
    ensures r < 16
  {
    ((opcode & 0x0F00) >> 8) as bv8
  }

  /** The Y nibble, bits 4 to 7. */
  function Y(opcode: bv16): (r: bv8)
    ensures r < 16
  {
    ((opcode & 0x00F0) >> 4) as bv8
  }

  /** The class nibble, bits 12 to 15, on which `Decode` dispatches first. */
  function Class(opcode: bv16): bv16
  {
    (opcode & 0xF000) >> 12
  }

  // ---------------------------------------------------------------------
  // The decoder

  function Decode(opcode: bv16): Instruction
  {
    match Class(opcode)
    case 0x0 => (
      match opcode & 0x00FF
      case 0xE0 => CLS
      case 0xEE => RET
      case 0xFB => SCR
      case 0xFC => SCL
      case 0xFD => EXIT
      case 0xFE => LOW
      case 0xFF => HIGH
      case _ =>
        if 0xC0 <= opcode & 0x00FF <= 0xCF then SCD(N(opcode)) else SYS(Nnn(opcode)))
    case 0x1 => JP(Nnn(opcode))
    case 0x2 => CALL(Nnn(opcode))
    case 0x3 => SEVxImm(X(opcode), Kk(opcode))
    case 0x4 => SNEVxImm(X(opcode), Kk(opcode))
    case 0x5 => (
      match opcode & 0x000F
      case 0x0 => SEVxVy(X(opcode), Y(opcode))
      case _ => Unknown(opcode))
    case 0x6 => LDVxImm(X(opcode), Kk(opcode))
    case 0x7 => ADDVxImm(X(opcode), Kk(opcode))
    case 0x8 => (
      match opcode & 0x000F
      case 0x0 => LDVxVy(X(opcode), Y(opcode))
      case 0x1 => ORVxVy(X(opcode), Y(opcode))
      case 0x2 => ANDVxVy(X(opcode), Y(opcode))
      case 0x3 => XORVxVy(X(opcode), Y(opcode))
      case 0x4 => ADDVxVy(X(opcode), Y(opcode))
      case 0x5 => SUBVxVy(X(opcode), Y(opcode))
      case 0x6 => SHRVxVy(X(opcode), Y(opcode))
      case 0x7 => SUBNVxVy(X(opcode), Y(opcode))
      case 0xE => SHLVxVy(X(opcode), Y(opcode))
      case _ => Unknown(opcode))
    case 0x9 => (
      match opcode & 0x000F
      case 0x0 => SNEVxVy(X(opcode), Y(opcode))
      case _ => Unknown(opcode))
    case 0xA => LDI(Nnn(opcode))
    case 0xB => JPV0(Nnn(opcode))
    case 0xC => RNDVxImm(X(opcode), Kk(opcode))
    case 0xD => (
      match N(opcode)
      case 0 => DRWVxVy0(X(opcode), Y(opcode))
      case nibble => DRWVxVyn(X(opcode), Y(opcode), nibble))
    case 0xE => (
      match opcode & 0x00FF
      case 0x9E => SKPVx(X(opcode))
      case 0xA1 => SKNPVx(X(opcode))
      case _ => Unknown(opcode))
    case 0xF => (
      match opcode & 0x00FF
      case 0x07 => LDVxDT(X(opcode))
      case 0x0A => LDVxK(X(opcode))
      case 0x15 => LDDTVx(X(opcode))
      case 0x18 => LDSTVx(X(opcode))
      case 0x1E => ADDIVx(X(opcode))
      case 0x29 => LDFVx(X(opcode))
      case 0x30 => LDHFVx(X(opcode))
      case 0x33 => LDBVx(X(opcode))
      case 0x55 => LDIVx(X(opcode))
      case 0x65 => LDVxI(X(opcode))
      case 0x75 => LDRV(X(opcode))
      case 0x85 => LDVxR(X(opcode))
      case _ => Unknown(opcode))
    case _ =>
      // The class nibble is below 16, so the catch-all arm is dead.
      assert false; Unknown(opcode)
  }
}

/** The CHIP-8 disassembler (disassembler-chip-8/src/disassembler.rs):
    `Mnemonic` renders one opcode as text, and `Listing` is what `run`
    computes for a ROM image: the big-endian opcodes, their addresses
    from 0x200 on and their mnemonics. The printing itself is not
    modelled; `Line` and `Output` are the lines `run` would print. */
module Disassembler {
  import opened DisassemblerUtils
  import opened HexFormat

  /** `{:01X}`, `{:02X}` and `{:03X}` of a field. */
  function H1(v: bv8): string { Format(v as int, 1) }
  function H2(v: bv8): string { Format(v as int, 2) }
  function H3(v: bv16): string { Format(v as int, 3) }

  /** `decode`: the mnemonic of an opcode. */
  function Mnemonic(opcode: bv16): string
  {
    match opcode & 0xF000
    case 0x0000 => (
      match opcode
      case 0x00E0 => "CLS"
      case 0x00EE => "RET"
      case _ => "SYS $" + H3(Nnn(opcode)))
    case 0x1000 => "JMP $" + H3(Nnn(opcode))
    case 0x2000 => "CALL $" + H3(Nnn(opcode))
    case 0x3000 => "SE V" + H1(X(opcode)) + ", " + H2(Kk(opcode))
    case 0x4000 => "SNE V" + H1(X(opcode)) + ", " + H2(Kk(opcode))
    case 0x5000 => "SE V" + H1(X(opcode)) + ", V" + H1(Y(opcode))
    case 0x6000 => "LD V" + H1(X(opcode)) + ", " + H2(Kk(opcode))
    case 0x7000 => "ADD V" + H1(X(opcode)) + ", " + H2(Kk(opcode))
    case 0x8000 => (
      match opcode & 0x800F
      case 0x8000 => "LD V" + H1(X(opcode)) + ", V" + H1(Y(opcode))
      case 0x8001 => "OR V" + H1(X(opcode)) + ", V" + H1(Y(opcode))
      case 0x8002 => "AND V" + H1(X(opcode)) + ", V" + H1(Y(opcode))
      case 0x8003 => "XOR V" + H1(X(opcode)) + ", V" + H1(Y(opcode))
      case 0x8004 => "ADD V" + H1(X(opcode)) + ", V" + H1(Y(opcode))
      case 0x8005 => "SUB V" + H1(X(opcode)) + ", V" + H1(Y(opcode))
      case 0x8006 => "SHR V" + H1(X(opcode)) + ","
      case 0x8007 => "SUBN V" + H1(X(opcode)) + ", V" + H1(Y(opcode))
      case 0x800E => "SHL V" + H1(X(opcode)) + " { ,V" + H1(Y(opcode)) + "}"
      case _ => "0x8???")
    case 0x9000 => "SNE V" + H1(X(opcode)) + ", V" + H1(Y(opcode))
    case 0xA000 => "LD I, $" + H3(Nnn(opcode))
    case 0xB000 => "JMP V0, $" + H3(Nnn(opcode))
    case 0xC000 => "RND V" + H1(X(opcode)) + ", " + H2(Kk(opcode))
    case 0xD000 => "DRW V" + H1(X(opcode)) + ", V" + H1(Y(opcode)) + ", " + H1(K(opcode))
    case 0xE000 => (
      match opcode & 0xE0FF
      case 0xE09E => "SKP V" + H1(X(opcode))
      case 0xE0A1 => "SKNP V" + H1(X(opcode))
      case _ => "0xEX??")
    case 0xF000 => (
      match opcode & 0xF0FF
      case 0xF007 => "LD, V" + H1(X(opcode)) + " DT"
      case 0xF00A => "LD V" + H1(X(opcode)) + ", K"
      case 0xF015 => "LD DT, V" + H1(X(opcode))
      case 0xF018 => "LD ST, V" + H1(X(opcode))
      case 0xF01E => "ADD I, V" + H1(X(opcode))
      case 0xF029 => "LD F, V" + H1(X(opcode))
      case 0xF033 => "LD B, V" + H1(X(opcode))
      case 0xF055 => "LD [I], V" + H1(X(opcode))
      case 0xF065 => "LD V" + H1(X(opcode)) + ", [I]"
      case _ => "0xF???")
    case _ => "???"
  }

  // ---------------------------------------------------------------------
  // The listing of a ROM image

  /** The address of the first opcode. */
  const StartAddr: nat := 0x200

  /** One listed opcode. */
  datatype Entry = Entry(addr: nat, opcode: bv16, instr: string)

  /** Two bytes joined big-endian, as line 16 of `run` does; the same value
      as `Endian.U16FromBe`, kept here because the crates share no code. */
  function Opcode(hi: bv8, lo: bv8): (r: bv16)
    ensures r as int == hi as int * 256 + lo as int
  {
    JoinBytes(hi, lo);
    ((hi as bv16) << 8) | lo as bv16
  }

  /** The two bytes of an opcode, most significant first. */
  function OpcodeBytes(opcode: bv16): seq<bv8>
  {
    [(opcode >> 8) as bv8, (opcode & 0xFF) as bv8]
  }

  /** The entries for the whole byte pairs of `rom`, the first at `addr`. */
  function Entries(rom: seq<bv8>, addr: nat): seq<Entry>
    decreases |rom|
  {
    if |rom| < 2 then []
    else
      var opcode := Opcode(rom[0], rom[1]);
      [Entry(addr, opcode, Mnemonic(opcode))] + Entries(rom[2..], addr + 2)
  }

  /** `run`: the ROM read in chunks of two bytes, from address 0x200 on. */
  function Listing(rom: seq<bv8>): seq<Entry>
  {
    Entries(rom, StartAddr)
  }

  /** The trailing byte of an odd-length ROM, which `run` only warns about. */
  function Remainder(rom: seq<bv8>): (r: seq<bv8>)
    ensures |r| == |rom| % 2
    ensures |rom| % 2 == 1 ==> r == [rom[|rom| - 1]]
  {
    rom[|rom| - |rom| % 2..]
  }

  /** The opcodes of a listing written back as bytes. */
  function ListedBytes(entries: seq<Entry>): seq<bv8>
  {
    if |entries| == 0 then [] else OpcodeBytes(entries[0].opcode) + ListedBytes(entries[1..])
  }

  const Header: string := "0xaddr: 0xopcode instr"

  /** The printed form of an entry: `0x{:04X}: 0x{:04X} {}`. */
  function Line(e: Entry): string
  {
    "0x" + Format(e.addr, 4) + ": 0x" + Format(e.opcode as int, 4) + " " + e.instr
  }

  /** Everything `run` prints on standard output, line by line. */
  function Output(rom: seq<bv8>): seq<string>
  {
    var entries := Listing(rom);
    [Header] + seq(|entries|, i requires 0 <= i < |entries| => Line(entries[i]))
  }
}

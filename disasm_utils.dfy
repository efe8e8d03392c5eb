/** The disassembler's bit-field helpers (disassembler-chip-8/src/utils.rs),
    with their values as unbounded integers. `K` is the sprite-height
    helper that disassembler.rs calls at line 72 but utils.rs does not
    define; it is modelled as the low nibble. */
module DisassemblerUtils {
  import Opcodes

  /** `nnn`: the 12 least significant bits. */
  function Nnn(opcode: bv16): (r: bv16)
    ensures r < 0x1000
  {
    opcode & 0x0FFF
  }

  /** `x`: bits 8 to 11. */
  function X(opcode: bv16): (r: bv8)
    ensures r < 16
  {
    ((opcode & 0x0F00) >> 8) as bv8
  }

  /** `y`: bits 4 to 7. */
  function Y(opcode: bv16): (r: bv8)
    ensures r < 16
  {
    ((opcode & 0x00F0) >> 4) as bv8
  }

  /** `kk`: the least significant byte, the opcode modulo 256. */
  function Kk(opcode: bv16): (r: bv8)
    ensures r as int == opcode as int % 256
  {
    LowByteValue(opcode);
    (opcode & 0x00FF) as bv8
  }

  /** The low byte of a 16-bit word is the word modulo 256. */
  lemma LowByteValue(opcode: bv16)
    ensures ((opcode & 0x00FF) as bv8) as int == opcode as int % 256
  {
    var lo := (opcode & 0x00FF) as bv8;
    var hi := (opcode >> 8) as bv8;
    assert opcode == ((hi as bv16) << 8) | lo as bv16;
    JoinBytes(hi, lo);
    ModOfJoin(opcode as int, hi as int, lo as int);
  }

  /** n == q * 256 + r with r a byte leaves r modulo 256. */
  lemma ModOfJoin(n: int, q: int, r: int)
    requires n == q * 256 + r && 0 <= r < 256
    ensures n % 256 == r
  {
  }

  /** `k` (assumed): the least significant nibble. */
  function K(opcode: bv16): (r: bv8)
    ensures r < 16
  {
    (opcode & 0x000F) as bv8
  }

  // ---------------------------------------------------------------------
  // The fields as integers

  /** The opcode is its four nibbles (class, x, y and k), kk is y
      followed by k, and nnn is x followed by kk. */
  lemma Nibbles(op: bv16)
    ensures op as int ==
              Class(op) as int * 4096 + X(op) as int * 256 + Y(op) as int * 16 + K(op) as int
    ensures Kk(op) as int == Y(op) as int * 16 + K(op) as int
    ensures Nnn(op) as int == X(op) as int * 256 + Kk(op) as int
  {
    SplitBytes(op);
    SplitNibbles(op);
    JoinBytes(Hi(op), Kk(op));
    JoinNibbles(Class(op), X(op));
    JoinNibbles(Y(op), K(op));
    JoinBytes(X(op), Kk(op));
  }

  /** The high byte, and the class nibble as a byte. */
  function Hi(op: bv16): bv8
  {
    (op >> 8) as bv8
  }

  function Class(op: bv16): (r: bv8)
    ensures r < 16
  {
    (op >> 12) as bv8
  }

  /** The byte decomposition over bit-vectors. */
  lemma SplitBytes(op: bv16)
    ensures op == ((Hi(op) as bv16) << 8) | Kk(op) as bv16
    ensures Nnn(op) == ((X(op) as bv16) << 8) | Kk(op) as bv16
  {
  }

  /** The nibble decomposition of each byte over bit-vectors. */
  lemma SplitNibbles(op: bv16)
    ensures Hi(op) == (Class(op) << 4) | X(op)
    ensures Kk(op) == (Y(op) << 4) | K(op)
  {
  }

  /** Two bytes side by side, read as an integer. The disassembler and the
      WAV reader are separate crates, so this module keeps its own copy of
      the fact `Endian.JoinBytes` states rather than depending on `Endian`. */
  lemma JoinBytes(hi: bv8, lo: bv8)
    ensures (((hi as bv16) << 8) | lo as bv16) as int == hi as int * 256 + lo as int
  {
  }

  /** Two nibbles side by side, read as an integer. */
  lemma JoinNibbles(hi: bv8, lo: bv8)
    requires hi < 16 && lo < 16
    ensures ((hi << 4) | lo) as int == hi as int * 16 + lo as int
  {
  }

  /** Division with remainder is unique. */
  lemma DivMod(n: nat, q: nat, r: nat, m: nat)
    requires n == q * m + r && r < m
    ensures n % m == r && n / m == q
  {
    var d := n / m;
    var e := n % m;
    assert n == d * m + e;
    assert (q - d) * m == e - r;
    if q - d >= 1 {
      assert false;
    } else if q - d <= -1 {
      assert false;
    }
  }

  /** The base-16 digits of a number, read back by division. */
  lemma HexDigitsOf(n: nat, c: nat, x: nat, y: nat, k: nat)
    requires n == c * 4096 + x * 256 + y * 16 + k && x < 16 && y < 16 && k < 16
    ensures n % 256 == y * 16 + k && n % 4096 == x * 256 + y * 16 + k
    ensures n / 256 % 16 == x && n / 16 % 16 == y
  {
    DivMod(n, c * 16 + x, y * 16 + k, 256);
    DivMod(n, c, x * 256 + y * 16 + k, 4096);
    DivMod(c * 16 + x, c, x, 16);
    DivMod(n, c * 256 + x * 16 + y, k, 16);
    DivMod(c * 256 + x * 16 + y, c * 16 + x, y, 16);
  }

  /** kk is the opcode modulo 256 and nnn the opcode modulo 4096; x is
      bits 8 to 11 and y bits 4 to 7 of the opcode read as an integer. */
  lemma FieldsAsIntegers(op: bv16)
    ensures Kk(op) as int == op as int % 256
    ensures Nnn(op) as int == op as int % 4096
    ensures X(op) as int == op as int / 256 % 16
    ensures Y(op) as int == op as int / 16 % 16
  {
    Nibbles(op);
    var n, c, x, y, k := op as int, Class(op) as int, X(op) as int, Y(op) as int, K(op) as int;
    HexDigitsOf(n, c, x, y, k);
    assert Kk(op) as int == y * 16 + k && Nnn(op) as int == x * 256 + y * 16 + k;
  }

  /** Each helper computes the same field as the emulator's helper of the
      same name (and `K` the same as the emulator's `n`). */
  lemma SameFieldsAsEmulator(op: bv16)
    ensures Nnn(op) == Opcodes.Nnn(op)
    ensures X(op) == Opcodes.X(op)
    ensures Y(op) == Opcodes.Y(op)
    ensures Kk(op) == Opcodes.Kk(op)
    ensures K(op) == Opcodes.N(op)
  {
  }
}

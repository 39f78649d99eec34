/** The substitution box of one connection.
  *
  * The server derives a base box with the AES recipe (section 5.1.1 of FIPS 197), but reduces
  * modulo x^8 + x instead of the AES polynomial, and then swaps entries by index.  The client
  * holds a literal table and swaps entries by value.  The two must stay inverse permutations.
  */
module SBox {
  import opened Bytes

  // ---------------------------------------------------------------- base-box arithmetic

  const MX: bv16 := 0x0102

  /** The product of two polynomials over GF(2), not reduced. */
  function Product(a: bv8, b: bv8): bv16 {
    LowRows(a, b) ^ HighRows(a, b)
  }

  /** The rows of the long multiplication for the lower digits of `b`, and for the upper ones. */
  function LowRows(a: bv8, b: bv8): bv16 {
    var x := a as bv16;
    (if b & 0x01 != 0 then x else 0) ^ (if b & 0x02 != 0 then x << 1 else 0)
    ^ (if b & 0x04 != 0 then x << 2 else 0) ^ (if b & 0x08 != 0 then x << 3 else 0)
  }

  function HighRows(a: bv8, b: bv8): bv16 {
    var x := a as bv16;
    (if b & 0x10 != 0 then x << 4 else 0) ^ (if b & 0x20 != 0 then x << 5 else 0)
    ^ (if b & 0x40 != 0 then x << 6 else 0) ^ (if b & 0x80 != 0 then x << 7 else 0)
  }

  /** Remainder modulo x^8 + x: each power x^(8+k) is the power x^(1+k). */
  function Residue(t: bv16): bv8 {
    ((t & 0xff) ^ ((t >> 7) & 0xfe) ^ ((t >> 14) & 0x02)) as bv8
  }

  function Times(a: bv8, b: bv8): bv8 {
    Residue(Product(a, b))
  }

  /** The loop of generateBox after `n` of its seven rounds: v^(2^n) and v^(2 + 4 + ... + 2^n). */
  function Rounds(v: bv8, n: nat): (bv8, bv8) {
    if n == 0 then (v, 1)
    else
      var (value, out) := Rounds(v, n - 1);
      var square := Times(value, value);
      (square, Times(out, square))
  }

  function Rotate1(t: bv8): bv8 {
    (t << 1) | (t >> 7)
  }

  function Rotate3(t: bv8): bv8 {
    (t << 3) | (t >> 5)
  }

  /** The affine step of the recipe. */
  function Affine(t: bv8): bv8 {
    t ^ Rotate1(t) ^ Rotate1(Rotate1(t)) ^ Rotate3(t) ^ Rotate1(Rotate3(t)) ^ 0x63
  }

  function UndoAffine(t: bv8): bv8 {
    Rotate1(t) ^ Rotate3(t) ^ Rotate3(Rotate3(t)) ^ 0x05
  }

  function BaseEntry(v: bv8): bv8 {
    Affine(Rounds(v, 7).1)
  }

  /** Entry `i` of the server's base box. */
  function BaseBox(i: byte): byte {
    BaseEntry(i as bv8) as int
  }

  // What the seven rounds compute.  Squaring modulo x^8 + x only moves bits: bit i goes to
  // bit 2i, and 8 is the same place as 1.

  function MoveBits(a: bv8): bv8 {
    (a & 0x81) | ((a & 0x02) << 1) | ((a & 0x04) << 2) | ((a & 0x10) >> 3)
    | ((a & 0x08) << 3) | ((a & 0x40) >> 1) | ((a & 0x20) >> 2)
  }

  lemma SquareMovesBits(a: bv8)
    ensures Times(a, a) == MoveBits(a)
  {}

  function SevenFactors(v: bv8): bv8 {
    var a := MoveBits(v);
    var b := MoveBits(a);
    Times(Times(Times(Times(Times(Times(Times(1, a), b), v), a), b), v), a)
  }

  lemma SevenFactorsLow(v: bv8)
    requires v & 0xc0 == 0
    ensures SevenFactors(v) == MoveBits(v)
  {}

  lemma SevenFactorsHigh(v: bv8)
    requires v & 0xc0 == 0x80
    ensures SevenFactors(v) == MoveBits(v)
  {}

  lemma SevenFactorsMiddle(v: bv8)
    requires v & 0xc0 == 0x40
    ensures SevenFactors(v) == MoveBits(v)
  {}

  lemma SevenFactorsTop(v: bv8)
    requires v & 0xc0 == 0xc0
    ensures SevenFactors(v) == MoveBits(v)
  {}

  lemma SevenFactorsAreOne(v: bv8)
    ensures SevenFactors(v) == MoveBits(v)
  {
    if v & 0xc0 == 0 {
      SevenFactorsLow(v);
    } else if v & 0xc0 == 0x40 {
      SevenFactorsMiddle(v);
    } else if v & 0xc0 == 0x80 {
      SevenFactorsHigh(v);
    } else {
      SevenFactorsTop(v);
    }
  }

  /** The power 254 of the recipe is, modulo x^8 + x, the same as the square. */
  lemma SevenRoundsAreOneSquare(v: bv8)
    ensures Rounds(v, 7).1 == Times(v, v) == MoveBits(v)
  {
    var a := MoveBits(v);
    var b := MoveBits(a);
    assert MoveBits(b) == v;
    SevenFactorsAreOne(v);
    SquareMovesBits(v);
    SquareMovesBits(a);
    SquareMovesBits(b);
    assert Rounds(v, 1) == (a, Times(1, a));
    assert Rounds(v, 2).0 == b;
    assert Rounds(v, 3).0 == v;
    assert Rounds(v, 4).0 == a;
    assert Rounds(v, 5).0 == b;
    assert Rounds(v, 6).0 == v;
  }

  function ClientEntry(y: bv8): bv8 {
    MoveBits(MoveBits(UndoAffine(y)))
  }

  lemma ClientEntryUndoesBase(v: bv8)
    ensures ClientEntry(BaseEntry(v)) == v && BaseEntry(ClientEntry(v)) == v
  {
    SevenRoundsAreOneSquare(v);
    SevenRoundsAreOneSquare(ClientEntry(v));
  }

  // ---------------------------------------------------------------- the client's literal table

  function ROWS0(): (rows: seq<byte>)
    ensures |rows| == 32
  {
    [3, 59, 133, 189, 98, 90, 228, 220, 31, 39, 153, 161, 126, 70, 248, 192,
    193, 249, 71, 127, 160, 152, 38, 30, 221, 229, 91, 99, 188, 132, 58, 2]
  }

  function ROWS1(): (rows: seq<byte>)
    ensures |rows| == 32
  {
    [42, 18, 172, 148, 75, 115, 205, 245, 54, 14, 176, 136, 87, 111, 209, 233,
    232, 208, 110, 86, 137, 177, 15, 55, 244, 204, 114, 74, 149, 173, 19, 43]
  }

  function ROWS2(): (rows: seq<byte>)
    ensures |rows| == 32
  {
    [151, 175, 17, 41, 246, 206, 112, 72, 139, 179, 13, 53, 234, 210, 108, 84,
    85, 109, 211, 235, 52, 12, 178, 138, 73, 113, 207, 247, 40, 16, 174, 150]
  }

  function ROWS3(): (rows: seq<byte>)
    ensures |rows| == 32
  {
    [190, 134, 56, 0, 223, 231, 89, 97, 162, 154, 36, 28, 195, 251, 69, 125,
    124, 68, 250, 194, 29, 37, 155, 163, 96, 88, 230, 222, 1, 57, 135, 191]
  }

  function ROWS4(): (rows: seq<byte>)
    ensures |rows| == 32
  {
    [64, 120, 198, 254, 33, 25, 167, 159, 92, 100, 218, 226, 61, 5, 187, 131,
    130, 186, 4, 60, 227, 219, 101, 93, 158, 166, 24, 32, 255, 199, 121, 65]
  }

  function ROWS5(): (rows: seq<byte>)
    ensures |rows| == 32
  {
    [105, 81, 239, 215, 8, 48, 142, 182, 117, 77, 243, 203, 20, 44, 146, 170,
    171, 147, 45, 21, 202, 242, 76, 116, 183, 143, 49, 9, 214, 238, 80, 104]
  }

  function ROWS6(): (rows: seq<byte>)
    ensures |rows| == 32
  {
    [212, 236, 82, 106, 181, 141, 51, 11, 200, 240, 78, 118, 169, 145, 47, 23,
    22, 46, 144, 168, 119, 79, 241, 201, 10, 50, 140, 180, 107, 83, 237, 213]
  }

  function ROWS7(): (rows: seq<byte>)
    ensures |rows| == 32
  {
    [253, 197, 123, 67, 156, 164, 26, 34, 225, 217, 103, 95, 128, 184, 6, 62,
    63, 7, 185, 129, 94, 102, 216, 224, 35, 27, 165, 157, 66, 122, 196, 252]
  }

  function STABLE(): (table: seq<byte>)
    ensures |table| == 256
  {
    ((ROWS0() + ROWS1()) + (ROWS2() + ROWS3())) + ((ROWS4() + ROWS5()) + (ROWS6() + ROWS7()))
  }

  lemma TableRows0(y: bv8)
    requires y < 32
    ensures ROWS0()[y as int] == ClientEntry(y) as int
  {}

  lemma TableRows1(y: bv8)
    requires 32 <= y < 64
    ensures ROWS1()[y as int - 32] == ClientEntry(y) as int
  {}

  lemma TableRows2(y: bv8)
    requires 64 <= y < 96
    ensures ROWS2()[y as int - 64] == ClientEntry(y) as int
  {}

  lemma TableRows3(y: bv8)
    requires 96 <= y < 128
    ensures ROWS3()[y as int - 96] == ClientEntry(y) as int
  {}

  lemma TableRows4(y: bv8)
    requires 128 <= y < 160
    ensures ROWS4()[y as int - 128] == ClientEntry(y) as int
  {}

  lemma TableRows5(y: bv8)
    requires 160 <= y < 192
    ensures ROWS5()[y as int - 160] == ClientEntry(y) as int
  {}

  lemma TableRows6(y: bv8)
    requires 192 <= y < 224
    ensures ROWS6()[y as int - 192] == ClientEntry(y) as int
  {}

  lemma TableRows7(y: bv8)
    requires 224 <= y
    ensures ROWS7()[y as int - 224] == ClientEntry(y) as int
  {}

  lemma TableEntry(y: bv8)
    ensures STABLE()[y as int] == ClientEntry(y) as int
  {
    hide ROWS0, ROWS1, ROWS2, ROWS3, ROWS4, ROWS5, ROWS6, ROWS7, ClientEntry;
    if y < 32 {
      TableRows0(y);
    } else if y < 64 {
      TableRows1(y);
    } else if y < 96 {
      TableRows2(y);
    } else if y < 128 {
      TableRows3(y);
    } else if y < 160 {
      TableRows4(y);
    } else if y < 192 {
      TableRows5(y);
    } else if y < 224 {
      TableRows6(y);
    } else {
      TableRows7(y);
    }
  }

  lemma BitsOfInt(v: bv8)
    ensures 0 <= v as int < 256 && (v as int) as bv8 == v
  {}

  lemma NextBits(v: bv8)
    requires v < 255
    ensures (v + 1) as int == v as int + 1
  {}

  lemma {:induction false} IntOfBits(i: int)
    requires 0 <= i < 256
    ensures (i as bv8) as int == i
    decreases i
  {
    if i == 0 {
      assert (0 as bv8) as int == 0;
    } else {
      IntOfBits(i - 1);
      var previous := (i - 1) as bv8;
      NextBits(previous);
      BitsOfInt(previous + 1);
    }
  }

  lemma TableUndoesEntry(v: bv8)
    ensures STABLE()[BaseEntry(v) as int] == v as int
  {
    hide STABLE;
    var y := BaseEntry(v);
    ClientEntryUndoesBase(v);
    TableEntry(y);
  }

  lemma EntryUndoesTable(v: bv8)
    ensures BaseEntry(STABLE()[v as int] as bv8) == v
  {
    hide STABLE;
    var c := ClientEntry(v);
    ClientEntryUndoesBase(v);
    TableEntry(v);
    BitsOfInt(c);
  }

  /** The literal table of the client is, entry for entry, the inverse of the generated box. */
  lemma LiteralTableInvertsBaseBox(i: byte)
    ensures STABLE()[BaseBox(i)] == i && BaseBox(STABLE()[i]) == i
  {
    hide STABLE;
    IntOfBits(i);
    TableUndoesEntry(i as bv8);
    EntryUndoesTable(i as bv8);
  }

  function OriginalBox(): (box: seq<byte>)
    ensures |box| == 256
  {
    seq(256, i requires 0 <= i < 256 => BaseBox(i))
  }

  // ---------------------------------------------------------------- exchanging entries

  /** `table` undoes `box` and `box` undoes `table`, on every byte. */
  ghost predicate Inverse(box: seq<byte>, table: seq<byte>) {
    && |box| == |table| == 256
    && (forall i: byte :: table[box[i]] == i)
    && (forall i: byte :: box[table[i]] == i)
  }

  lemma OriginalBoxesAreInverse()
    ensures Inverse(OriginalBox(), STABLE())
  {
    hide STABLE;
    LiteralTableInvertsBaseBox(0);
    var box := OriginalBox();
    forall i: byte ensures STABLE()[box[i]] == i {
      LiteralTableInvertsBaseBox(i);
    }
    forall i: byte ensures box[STABLE()[i]] == i {
      LiteralTableInvertsBaseBox(i);
    }
  }

  /** The server's exchange: the entries at two indices. */
  function SwapAt(box: seq<byte>, i: byte, j: byte): (r: seq<byte>)
    requires |box| == 256
    ensures |r| == 256
  {
    box[i := box[j]][j := box[i]]
  }

  /** The index the client's search ends with: the last place of the value, or 0. */
  function LastPlace(table: seq<byte>, value: byte): (p: nat)
    ensures p < |table| || p == 0
    ensures value in table ==> p < |table| && table[p] == value
  {
    if |table| == 0 then 0
    else if table[|table| - 1] == value then |table| - 1
    else LastPlace(table[..|table| - 1], value)
  }

  /** The client's exchange: two values trade places. */
  function SwapValues(table: seq<byte>, s: byte, t: byte): (r: seq<byte>)
    requires |table| == 256
    ensures |r| == 256
  {
    if s == t then table
    else SwapAt(table, LastPlace(table, s), LastPlace(table, t))
  }

  function ServerExchange(box: seq<byte>, pairs: bytes): (r: seq<byte>)
    requires |box| == 256 && |pairs| % 2 == 0
    ensures |r| == 256
  {
    if |pairs| == 0 then box
    else
      var n := |pairs| - 2;
      SwapAt(ServerExchange(box, pairs[..n]), pairs[n], pairs[n + 1])
  }

  function ClientExchange(table: seq<byte>, pairs: bytes): (r: seq<byte>)
    requires |table| == 256 && |pairs| % 2 == 0
    ensures |r| == 256
  {
    if |pairs| == 0 then table
    else
      var n := |pairs| - 2;
      SwapValues(ClientExchange(table, pairs[..n]), pairs[n], pairs[n + 1])
  }

  lemma OneExchangeKeepsInverse(box: seq<byte>, table: seq<byte>, i: byte, j: byte)
    requires Inverse(box, table)
    ensures Inverse(SwapAt(box, i, j), SwapValues(table, i, j))
  {
    assert table[box[i]] == i && table[box[j]] == j;
    if i != j {
      var p, q := LastPlace(table, i), LastPlace(table, j);
      assert box[table[p]] == p && box[table[q]] == q;
      assert p == box[i] && q == box[j];
    }
  }

  /** Any list of exchange pairs keeps the two sides inverse, although one side names indices
    * and the other values. */
  lemma {:induction false} ExchangesKeepInverse(box: seq<byte>, table: seq<byte>, pairs: bytes)
    requires Inverse(box, table) && |pairs| % 2 == 0
    ensures Inverse(ServerExchange(box, pairs), ClientExchange(table, pairs))
    decreases |pairs|
  {
    if |pairs| > 0 {
      var n := |pairs| - 2;
      ExchangesKeepInverse(box, table, pairs[..n]);
      OneExchangeKeepsInverse(ServerExchange(box, pairs[..n]), ClientExchange(table, pairs[..n]), pairs[n], pairs[n + 1]);
    }
  }

  // ---------------------------------------------------------------- substituting messages

  function Substitute(box: seq<byte>, message: bytes): (r: bytes)
    requires |box| == 256
    ensures |r| == |message|
    ensures forall i :: 0 <= i < |r| ==> r[i] == box[message[i]]
  {
    seq(|message|, i requires 0 <= i < |message| => box[message[i]])
  }

  lemma InverseUndoesSubstitution(box: seq<byte>, table: seq<byte>, message: bytes)
    requires Inverse(box, table)
    ensures Substitute(table, Substitute(box, message)) == message
    ensures Substitute(box, Substitute(table, message)) == message
  {}

  lemma AfterHandshake(pairs: bytes)
    requires |pairs| % 2 == 0
    ensures Inverse(ServerExchange(OriginalBox(), pairs), ClientExchange(STABLE(), pairs))
  {
    hide STABLE;
    OriginalBoxesAreInverse();
    ExchangesKeepInverse(OriginalBox(), STABLE(), pairs);
  }

  /** After any handshake, what either side substitutes the other side reads back. */
  lemma SubstitutionRoundTrip(pairs: bytes, message: bytes)
    requires |pairs| % 2 == 0
    ensures Substitute(ClientExchange(STABLE(), pairs), Substitute(ServerExchange(OriginalBox(), pairs), message)) == message
    ensures Substitute(ServerExchange(OriginalBox(), pairs), Substitute(ClientExchange(STABLE(), pairs), message)) == message
  {
    hide STABLE;
    AfterHandshake(pairs);
    InverseUndoesSubstitution(ServerExchange(OriginalBox(), pairs), ClientExchange(STABLE(), pairs), message);
  }

  // ---------------------------------------------------------------- the code itself

  /** The number of binary digits. */
  function Digits(t: bv16): nat {
    if t >= 0x8000 then 16 else if t >= 0x4000 then 15 else if t >= 0x2000 then 14
    else if t >= 0x1000 then 13 else if t >= 0x0800 then 12 else if t >= 0x0400 then 11
    else if t >= 0x0200 then 10 else if t >= 0x0100 then 9 else if t >= 0x0080 then 8
    else if t >= 0x0040 then 7 else if t >= 0x0020 then 6 else if t >= 0x0010 then 5
    else if t >= 0x0008 then 4 else if t >= 0x0004 then 3 else if t >= 0x0002 then 2
    else if t >= 0x0001 then 1 else 0
  }

  method Length(t: bv16) returns (n: nat)
    ensures n == Digits(t)
  {
    var temp := t;
    n := 0;
    while temp != 0
      invariant n + Digits(temp) == Digits(t)
      decreases temp
    {
      temp := temp >> 1;
      n := n + 1;
    }
  }

  /** The modulus moved up to the leading digit of `t`. */
  function Aligned(t: bv16): bv16
    requires t >= 0x0100
  {
    if t >= 0x8000 then 0x8100 else if t >= 0x4000 then 0x4080 else if t >= 0x2000 then 0x2040
    else if t >= 0x1000 then 0x1020 else if t >= 0x0800 then 0x0810 else if t >= 0x0400 then 0x0408
    else if t >= 0x0200 then 0x0204 else 0x0102
  }

  lemma AlignedIsShifted(t: bv16)
    requires t >= 0x0100
    ensures 9 <= Digits(t) <= 16 && MX << (Digits(t) - 9) == Aligned(t)
  {
    assert MX << 0 == 0x0102 && MX << 1 == 0x0204 && MX << 2 == 0x0408 && MX << 3 == 0x0810;
    assert MX << 4 == 0x1020 && MX << 5 == 0x2040 && MX << 6 == 0x4080 && MX << 7 == 0x8100;
  }

  lemma ResidueDistributes(t: bv16, u: bv16)
    ensures Residue(t ^ u) == Residue(t) ^ Residue(u)
  {}

  lemma MultiplesLeaveNoResidue(t: bv16, m: bv16)
    requires Residue(m) == 0
    ensures Residue(t ^ m) == Residue(t)
  {
    ResidueDistributes(t, m);
  }

  lemma ModulusLeavesNothing(t: bv16)
    requires t >= 0x0100
    ensures Residue(Aligned(t)) == 0
  {}

  lemma DivisionShrinks(t: bv16)
    requires t >= 0x0100
    ensures t ^ Aligned(t) < t
  {}

  lemma LongDivisionStep(t: bv16, m: bv16)
    requires t >= 0x0100 && m == Aligned(t)
    ensures t ^ m < t && Residue(t ^ m) == Residue(t)
  {
    DivisionShrinks(t);
    ModulusLeavesNothing(t);
    MultiplesLeaveNoResidue(t, m);
  }

  /** mod, by long division. */
  method Mod(t: bv16) returns (r: bv8)
    ensures r == Residue(t)
  {
    var temp := t;
    while temp >= 0x0100
      invariant Residue(temp) == Residue(t)
      decreases temp
    {
      var n := Length(temp);
      AlignedIsShifted(temp);
      var bemod := MX << (n - 9);
      LongDivisionStep(temp, bemod);
      temp := temp ^ bemod;
    }
    r := temp as bv8;
  }

  /** mul: a square, one output bit for each input bit. */
  method Square(t: bv8) returns (out: bv16)
    ensures out == Product(t, t)
  {
    out := 0;
    if t & 0x80 != 0 { out := out + 0x4000; }
    if t & 0x40 != 0 { out := out + 0x1000; }
    if t & 0x20 != 0 { out := out + 0x0400; }
    if t & 0x10 != 0 { out := out + 0x0100; }
    if t & 0x08 != 0 { out := out + 0x0040; }
    if t & 0x04 != 0 { out := out + 0x0010; }
    if t & 0x02 != 0 { out := out + 0x0004; }
    if t & 0x01 != 0 { out := out + 0x0001; }
  }

  /** seekat0 to seekat7: whether a byte has a digit. */
  function Seek(t: bv8, digit: bv8): bv16 {
    if t & digit != 0 then 1 else 0
  }

  lemma LowColumn14IsDigit(a: bv8, b: bv8)
    ensures (LowRows(a, b) >> 14) & 1 == 0
  {}

  function HighColumn14(a: bv8, b: bv8): bv16 {
    (Seek(a, 0x80) & Seek(b, 0x80))
  }

  lemma HighColumn14IsDigit(a: bv8, b: bv8)
    ensures (HighRows(a, b) >> 14) & 1 == HighColumn14(a, b)
  {}

  function Column14(a: bv8, b: bv8): bv16 {
    HighColumn14(a, b)
  }

  lemma XorDigit14(x: bv16, y: bv16)
    ensures ((x ^ y) >> 14) & 1 == ((x >> 14) & 1) ^ ((y >> 14) & 1)
  {}

  lemma Column14IsDigit(a: bv8, b: bv8)
    ensures Column14(a, b) == (Product(a, b) >> 14) & 1
  {
    hide Seek, LowRows, HighRows, HighColumn14;
    LowColumn14IsDigit(a, b);
    HighColumn14IsDigit(a, b);
    XorDigit14(LowRows(a, b), HighRows(a, b));
  }

  lemma LowColumn13IsDigit(a: bv8, b: bv8)
    ensures (LowRows(a, b) >> 13) & 1 == 0
  {}

  function HighColumn13(a: bv8, b: bv8): bv16 {
    (Seek(a, 0x80) & Seek(b, 0x40)) ^ (Seek(a, 0x40) & Seek(b, 0x80))
  }

  lemma HighColumn13IsDigit(a: bv8, b: bv8)
    ensures (HighRows(a, b) >> 13) & 1 == HighColumn13(a, b)
  {}

  function Column13(a: bv8, b: bv8): bv16 {
    HighColumn13(a, b)
  }

  lemma XorDigit13(x: bv16, y: bv16)
    ensures ((x ^ y) >> 13) & 1 == ((x >> 13) & 1) ^ ((y >> 13) & 1)
  {}

  lemma Column13IsDigit(a: bv8, b: bv8)
    ensures Column13(a, b) == (Product(a, b) >> 13) & 1
  {
    hide Seek, LowRows, HighRows, HighColumn13;
    LowColumn13IsDigit(a, b);
    HighColumn13IsDigit(a, b);
    XorDigit13(LowRows(a, b), HighRows(a, b));
  }

  lemma LowColumn12IsDigit(a: bv8, b: bv8)
    ensures (LowRows(a, b) >> 12) & 1 == 0
  {}

  function HighColumn12(a: bv8, b: bv8): bv16 {
    (Seek(a, 0x80) & Seek(b, 0x20)) ^ (Seek(a, 0x40) & Seek(b, 0x40))
    ^ (Seek(a, 0x20) & Seek(b, 0x80))
  }

  lemma HighColumn12IsDigit(a: bv8, b: bv8)
    ensures (HighRows(a, b) >> 12) & 1 == HighColumn12(a, b)
  {}

  function Column12(a: bv8, b: bv8): bv16 {
    HighColumn12(a, b)
  }

  lemma XorDigit12(x: bv16, y: bv16)
    ensures ((x ^ y) >> 12) & 1 == ((x >> 12) & 1) ^ ((y >> 12) & 1)
  {}

  lemma Column12IsDigit(a: bv8, b: bv8)
    ensures Column12(a, b) == (Product(a, b) >> 12) & 1
  {
    hide Seek, LowRows, HighRows, HighColumn12;
    LowColumn12IsDigit(a, b);
    HighColumn12IsDigit(a, b);
    XorDigit12(LowRows(a, b), HighRows(a, b));
  }

  lemma LowColumn11IsDigit(a: bv8, b: bv8)
    ensures (LowRows(a, b) >> 11) & 1 == 0
  {}

  function HighColumn11(a: bv8, b: bv8): bv16 {
    (Seek(a, 0x80) & Seek(b, 0x10)) ^ (Seek(a, 0x40) & Seek(b, 0x20))
    ^ (Seek(a, 0x20) & Seek(b, 0x40)) ^ (Seek(a, 0x10) & Seek(b, 0x80))
  }

  lemma HighColumn11IsDigit(a: bv8, b: bv8)
    ensures (HighRows(a, b) >> 11) & 1 == HighColumn11(a, b)
  {}

  function Column11(a: bv8, b: bv8): bv16 {
    HighColumn11(a, b)
  }

  lemma XorDigit11(x: bv16, y: bv16)
    ensures ((x ^ y) >> 11) & 1 == ((x >> 11) & 1) ^ ((y >> 11) & 1)
  {}

  lemma Column11IsDigit(a: bv8, b: bv8)
    ensures Column11(a, b) == (Product(a, b) >> 11) & 1
  {
    hide Seek, LowRows, HighRows, HighColumn11;
    LowColumn11IsDigit(a, b);
    HighColumn11IsDigit(a, b);
    XorDigit11(LowRows(a, b), HighRows(a, b));
  }

  function LowColumn10(a: bv8, b: bv8): bv16 {
    (Seek(a, 0x80) & Seek(b, 0x08))
  }

  lemma LowColumn10IsDigit(a: bv8, b: bv8)
    ensures (LowRows(a, b) >> 10) & 1 == LowColumn10(a, b)
  {}

  function HighColumn10(a: bv8, b: bv8): bv16 {
    (Seek(a, 0x40) & Seek(b, 0x10)) ^ (Seek(a, 0x20) & Seek(b, 0x20))
    ^ (Seek(a, 0x10) & Seek(b, 0x40)) ^ (Seek(a, 0x08) & Seek(b, 0x80))
  }

  lemma HighColumn10IsDigit(a: bv8, b: bv8)
    ensures (HighRows(a, b) >> 10) & 1 == HighColumn10(a, b)
  {}

  function Column10(a: bv8, b: bv8): bv16 {
    LowColumn10(a, b) ^ HighColumn10(a, b)
  }

  lemma XorDigit10(x: bv16, y: bv16)
    ensures ((x ^ y) >> 10) & 1 == ((x >> 10) & 1) ^ ((y >> 10) & 1)
  {}

  lemma Column10IsDigit(a: bv8, b: bv8)
    ensures Column10(a, b) == (Product(a, b) >> 10) & 1
  {
    hide Seek, LowRows, HighRows, LowColumn10, HighColumn10;
    LowColumn10IsDigit(a, b);
    HighColumn10IsDigit(a, b);
    XorDigit10(LowRows(a, b), HighRows(a, b));
  }

  function LowColumn9(a: bv8, b: bv8): bv16 {
    (Seek(a, 0x80) & Seek(b, 0x04)) ^ (Seek(a, 0x40) & Seek(b, 0x08))
  }

  lemma LowColumn9IsDigit(a: bv8, b: bv8)
    ensures (LowRows(a, b) >> 9) & 1 == LowColumn9(a, b)
  {}

  function HighColumn9(a: bv8, b: bv8): bv16 {
    (Seek(a, 0x20) & Seek(b, 0x10)) ^ (Seek(a, 0x10) & Seek(b, 0x20))
    ^ (Seek(a, 0x08) & Seek(b, 0x40)) ^ (Seek(a, 0x04) & Seek(b, 0x80))
  }

  lemma HighColumn9IsDigit(a: bv8, b: bv8)
    ensures (HighRows(a, b) >> 9) & 1 == HighColumn9(a, b)
  {}

  function Column9(a: bv8, b: bv8): bv16 {
    LowColumn9(a, b) ^ HighColumn9(a, b)
  }

  lemma XorDigit9(x: bv16, y: bv16)
    ensures ((x ^ y) >> 9) & 1 == ((x >> 9) & 1) ^ ((y >> 9) & 1)
  {}

  lemma Column9IsDigit(a: bv8, b: bv8)
    ensures Column9(a, b) == (Product(a, b) >> 9) & 1
  {
    hide Seek, LowRows, HighRows, LowColumn9, HighColumn9;
    LowColumn9IsDigit(a, b);
    HighColumn9IsDigit(a, b);
    XorDigit9(LowRows(a, b), HighRows(a, b));
  }

  function LowColumn8(a: bv8, b: bv8): bv16 {
    (Seek(a, 0x80) & Seek(b, 0x02)) ^ (Seek(a, 0x40) & Seek(b, 0x04))
    ^ (Seek(a, 0x20) & Seek(b, 0x08))
  }

  lemma LowColumn8IsDigit(a: bv8, b: bv8)
    ensures (LowRows(a, b) >> 8) & 1 == LowColumn8(a, b)
  {}

  function HighColumn8(a: bv8, b: bv8): bv16 {
    (Seek(a, 0x10) & Seek(b, 0x10)) ^ (Seek(a, 0x08) & Seek(b, 0x20))
    ^ (Seek(a, 0x04) & Seek(b, 0x40)) ^ (Seek(a, 0x02) & Seek(b, 0x80))
  }

  lemma HighColumn8IsDigit(a: bv8, b: bv8)
    ensures (HighRows(a, b) >> 8) & 1 == HighColumn8(a, b)
  {}

  function Column8(a: bv8, b: bv8): bv16 {
    LowColumn8(a, b) ^ HighColumn8(a, b)
  }

  lemma XorDigit8(x: bv16, y: bv16)
    ensures ((x ^ y) >> 8) & 1 == ((x >> 8) & 1) ^ ((y >> 8) & 1)
  {}

  lemma Column8IsDigit(a: bv8, b: bv8)
    ensures Column8(a, b) == (Product(a, b) >> 8) & 1
  {
    hide Seek, LowRows, HighRows, LowColumn8, HighColumn8;
    LowColumn8IsDigit(a, b);
    HighColumn8IsDigit(a, b);
    XorDigit8(LowRows(a, b), HighRows(a, b));
  }

  function LowColumn7(a: bv8, b: bv8): bv16 {
    (Seek(a, 0x80) & Seek(b, 0x01)) ^ (Seek(a, 0x40) & Seek(b, 0x02))
    ^ (Seek(a, 0x20) & Seek(b, 0x04)) ^ (Seek(a, 0x10) & Seek(b, 0x08))
  }

  lemma LowColumn7IsDigit(a: bv8, b: bv8)
    ensures (LowRows(a, b) >> 7) & 1 == LowColumn7(a, b)
  {}

  function HighColumn7(a: bv8, b: bv8): bv16 {
    (Seek(a, 0x08) & Seek(b, 0x10)) ^ (Seek(a, 0x04) & Seek(b, 0x20))
    ^ (Seek(a, 0x02) & Seek(b, 0x40)) ^ (Seek(a, 0x01) & Seek(b, 0x80))
  }

  lemma HighColumn7IsDigit(a: bv8, b: bv8)
    ensures (HighRows(a, b) >> 7) & 1 == HighColumn7(a, b)
  {}

  function Column7(a: bv8, b: bv8): bv16 {
    LowColumn7(a, b) ^ HighColumn7(a, b)
  }

  lemma XorDigit7(x: bv16, y: bv16)
    ensures ((x ^ y) >> 7) & 1 == ((x >> 7) & 1) ^ ((y >> 7) & 1)
  {}

  lemma Column7IsDigit(a: bv8, b: bv8)
    ensures Column7(a, b) == (Product(a, b) >> 7) & 1
  {
    hide Seek, LowRows, HighRows, LowColumn7, HighColumn7;
    LowColumn7IsDigit(a, b);
    HighColumn7IsDigit(a, b);
    XorDigit7(LowRows(a, b), HighRows(a, b));
  }

  function LowColumn6(a: bv8, b: bv8): bv16 {
    (Seek(a, 0x40) & Seek(b, 0x01)) ^ (Seek(a, 0x20) & Seek(b, 0x02))
    ^ (Seek(a, 0x10) & Seek(b, 0x04)) ^ (Seek(a, 0x08) & Seek(b, 0x08))
  }

  lemma LowColumn6IsDigit(a: bv8, b: bv8)
    ensures (LowRows(a, b) >> 6) & 1 == LowColumn6(a, b)
  {}

  function HighColumn6(a: bv8, b: bv8): bv16 {
    (Seek(a, 0x04) & Seek(b, 0x10)) ^ (Seek(a, 0x02) & Seek(b, 0x20))
    ^ (Seek(a, 0x01) & Seek(b, 0x40))
  }

  lemma HighColumn6IsDigit(a: bv8, b: bv8)
    ensures (HighRows(a, b) >> 6) & 1 == HighColumn6(a, b)
  {}

  function Column6(a: bv8, b: bv8): bv16 {
    LowColumn6(a, b) ^ HighColumn6(a, b)
  }

  lemma XorDigit6(x: bv16, y: bv16)
    ensures ((x ^ y) >> 6) & 1 == ((x >> 6) & 1) ^ ((y >> 6) & 1)
  {}

  lemma Column6IsDigit(a: bv8, b: bv8)
    ensures Column6(a, b) == (Product(a, b) >> 6) & 1
  {
    hide Seek, LowRows, HighRows, LowColumn6, HighColumn6;
    LowColumn6IsDigit(a, b);
    HighColumn6IsDigit(a, b);
    XorDigit6(LowRows(a, b), HighRows(a, b));
  }

  function LowColumn5(a: bv8, b: bv8): bv16 {
    (Seek(a, 0x20) & Seek(b, 0x01)) ^ (Seek(a, 0x10) & Seek(b, 0x02))
    ^ (Seek(a, 0x08) & Seek(b, 0x04)) ^ (Seek(a, 0x04) & Seek(b, 0x08))
  }

  lemma LowColumn5IsDigit(a: bv8, b: bv8)
    ensures (LowRows(a, b) >> 5) & 1 == LowColumn5(a, b)
  {}

  function HighColumn5(a: bv8, b: bv8): bv16 {
    (Seek(a, 0x02) & Seek(b, 0x10)) ^ (Seek(a, 0x01) & Seek(b, 0x20))
  }

  lemma HighColumn5IsDigit(a: bv8, b: bv8)
    ensures (HighRows(a, b) >> 5) & 1 == HighColumn5(a, b)
  {}

  function Column5(a: bv8, b: bv8): bv16 {
    LowColumn5(a, b) ^ HighColumn5(a, b)
  }

  lemma XorDigit5(x: bv16, y: bv16)
    ensures ((x ^ y) >> 5) & 1 == ((x >> 5) & 1) ^ ((y >> 5) & 1)
  {}

  lemma Column5IsDigit(a: bv8, b: bv8)
    ensures Column5(a, b) == (Product(a, b) >> 5) & 1
  {
    hide Seek, LowRows, HighRows, LowColumn5, HighColumn5;
    LowColumn5IsDigit(a, b);
    HighColumn5IsDigit(a, b);
    XorDigit5(LowRows(a, b), HighRows(a, b));
  }

  function LowColumn4(a: bv8, b: bv8): bv16 {
    (Seek(a, 0x10) & Seek(b, 0x01)) ^ (Seek(a, 0x08) & Seek(b, 0x02))
    ^ (Seek(a, 0x04) & Seek(b, 0x04)) ^ (Seek(a, 0x02) & Seek(b, 0x08))
  }

  lemma LowColumn4IsDigit(a: bv8, b: bv8)
    ensures (LowRows(a, b) >> 4) & 1 == LowColumn4(a, b)
  {}

  function HighColumn4(a: bv8, b: bv8): bv16 {
    (Seek(a, 0x01) & Seek(b, 0x10))
  }

  lemma HighColumn4IsDigit(a: bv8, b: bv8)
    ensures (HighRows(a, b) >> 4) & 1 == HighColumn4(a, b)
  {}

  function Column4(a: bv8, b: bv8): bv16 {
    LowColumn4(a, b) ^ HighColumn4(a, b)
  }

  lemma XorDigit4(x: bv16, y: bv16)
    ensures ((x ^ y) >> 4) & 1 == ((x >> 4) & 1) ^ ((y >> 4) & 1)
  {}

  lemma Column4IsDigit(a: bv8, b: bv8)
    ensures Column4(a, b) == (Product(a, b) >> 4) & 1
  {
    hide Seek, LowRows, HighRows, LowColumn4, HighColumn4;
    LowColumn4IsDigit(a, b);
    HighColumn4IsDigit(a, b);
    XorDigit4(LowRows(a, b), HighRows(a, b));
  }

  function LowColumn3(a: bv8, b: bv8): bv16 {
    (Seek(a, 0x08) & Seek(b, 0x01)) ^ (Seek(a, 0x04) & Seek(b, 0x02))
    ^ (Seek(a, 0x02) & Seek(b, 0x04)) ^ (Seek(a, 0x01) & Seek(b, 0x08))
  }

  lemma LowColumn3IsDigit(a: bv8, b: bv8)
    ensures (LowRows(a, b) >> 3) & 1 == LowColumn3(a, b)
  {}

  lemma HighColumn3IsDigit(a: bv8, b: bv8)
    ensures (HighRows(a, b) >> 3) & 1 == 0
  {}

  function Column3(a: bv8, b: bv8): bv16 {
    LowColumn3(a, b)
  }

  lemma XorDigit3(x: bv16, y: bv16)
    ensures ((x ^ y) >> 3) & 1 == ((x >> 3) & 1) ^ ((y >> 3) & 1)
  {}

  lemma Column3IsDigit(a: bv8, b: bv8)
    ensures Column3(a, b) == (Product(a, b) >> 3) & 1
  {
    hide Seek, LowRows, HighRows, LowColumn3;
    LowColumn3IsDigit(a, b);
    HighColumn3IsDigit(a, b);
    XorDigit3(LowRows(a, b), HighRows(a, b));
  }

  function LowColumn2(a: bv8, b: bv8): bv16 {
    (Seek(a, 0x04) & Seek(b, 0x01)) ^ (Seek(a, 0x02) & Seek(b, 0x02))
    ^ (Seek(a, 0x01) & Seek(b, 0x04))
  }

  lemma LowColumn2IsDigit(a: bv8, b: bv8)
    ensures (LowRows(a, b) >> 2) & 1 == LowColumn2(a, b)
  {}

  lemma HighColumn2IsDigit(a: bv8, b: bv8)
    ensures (HighRows(a, b) >> 2) & 1 == 0
  {}

  function Column2(a: bv8, b: bv8): bv16 {
    LowColumn2(a, b)
  }

  lemma XorDigit2(x: bv16, y: bv16)
    ensures ((x ^ y) >> 2) & 1 == ((x >> 2) & 1) ^ ((y >> 2) & 1)
  {}

  lemma Column2IsDigit(a: bv8, b: bv8)
    ensures Column2(a, b) == (Product(a, b) >> 2) & 1
  {
    hide Seek, LowRows, HighRows, LowColumn2;
    LowColumn2IsDigit(a, b);
    HighColumn2IsDigit(a, b);
    XorDigit2(LowRows(a, b), HighRows(a, b));
  }

  function LowColumn1(a: bv8, b: bv8): bv16 {
    (Seek(a, 0x02) & Seek(b, 0x01)) ^ (Seek(a, 0x01) & Seek(b, 0x02))
  }

  lemma LowColumn1IsDigit(a: bv8, b: bv8)
    ensures (LowRows(a, b) >> 1) & 1 == LowColumn1(a, b)
  {}

  lemma HighColumn1IsDigit(a: bv8, b: bv8)
    ensures (HighRows(a, b) >> 1) & 1 == 0
  {}

  function Column1(a: bv8, b: bv8): bv16 {
    LowColumn1(a, b)
  }

  lemma XorDigit1(x: bv16, y: bv16)
    ensures ((x ^ y) >> 1) & 1 == ((x >> 1) & 1) ^ ((y >> 1) & 1)
  {}

  lemma Column1IsDigit(a: bv8, b: bv8)
    ensures Column1(a, b) == (Product(a, b) >> 1) & 1
  {
    hide Seek, LowRows, HighRows, LowColumn1;
    LowColumn1IsDigit(a, b);
    HighColumn1IsDigit(a, b);
    XorDigit1(LowRows(a, b), HighRows(a, b));
  }

  function LowColumn0(a: bv8, b: bv8): bv16 {
    (Seek(a, 0x01) & Seek(b, 0x01))
  }

  lemma LowColumn0IsDigit(a: bv8, b: bv8)
    ensures (LowRows(a, b) >> 0) & 1 == LowColumn0(a, b)
  {}

  lemma HighColumn0IsDigit(a: bv8, b: bv8)
    ensures (HighRows(a, b) >> 0) & 1 == 0
  {}

  function Column0(a: bv8, b: bv8): bv16 {
    LowColumn0(a, b)
  }

  lemma XorDigit0(x: bv16, y: bv16)
    ensures ((x ^ y) >> 0) & 1 == ((x >> 0) & 1) ^ ((y >> 0) & 1)
  {}

  lemma Column0IsDigit(a: bv8, b: bv8)
    ensures Column0(a, b) == (Product(a, b) >> 0) & 1
  {
    hide Seek, LowRows, HighRows, LowColumn0;
    LowColumn0IsDigit(a, b);
    HighColumn0IsDigit(a, b);
    XorDigit0(LowRows(a, b), HighRows(a, b));
  }

  /** The digits of a number that a mask keeps. */
  function Kept(t: bv16, mask: bv16): bv16 {
    t & mask
  }

  lemma LowRowsAreShort(a: bv8, b: bv8)
    ensures Kept(LowRows(a, b), 0x7fff) == LowRows(a, b)
  {}

  lemma HighRowsAreShort(a: bv8, b: bv8)
    ensures Kept(HighRows(a, b), 0x7fff) == HighRows(a, b)
  {}

  lemma KeptXor(x: bv16, y: bv16)
    ensures Kept(x ^ y, 0x7fff) == Kept(x, 0x7fff) ^ Kept(y, 0x7fff) && Kept(x, 0) == 0
  {}

  lemma ProductIsShort(a: bv8, b: bv8)
    ensures Kept(Product(a, b), 0x7fff) == Product(a, b) && Kept(Product(a, b), 0) == 0
  {
    hide *;
    ProductRows(a, b);
    LowRowsAreShort(a, b);
    HighRowsAreShort(a, b);
    KeptXor(LowRows(a, b), HighRows(a, b));
    KeptXor(Product(a, b), 0);
  }

  lemma ProductRows(a: bv8, b: bv8)
    ensures Product(a, b) == LowRows(a, b) ^ HighRows(a, b)
  {
    hide LowRows, HighRows;
  }

  function AddDigit(out: bv16, column: bv16, digit: bv16): bv16 {
    if column != 0 then out + digit else out
  }

  lemma Digit14(t: bv16, c: bv16)
    requires c == (t >> 14) & 1
    ensures AddDigit(Kept(t, 0x0000), c, 0x4000) == Kept(t, 0x4000)
  {}

  lemma Digit13(t: bv16, c: bv16)
    requires c == (t >> 13) & 1
    ensures AddDigit(Kept(t, 0x4000), c, 0x2000) == Kept(t, 0x6000)
  {}

  lemma Digit12(t: bv16, c: bv16)
    requires c == (t >> 12) & 1
    ensures AddDigit(Kept(t, 0x6000), c, 0x1000) == Kept(t, 0x7000)
  {}

  lemma Digit11(t: bv16, c: bv16)
    requires c == (t >> 11) & 1
    ensures AddDigit(Kept(t, 0x7000), c, 0x0800) == Kept(t, 0x7800)
  {}

  lemma Digit10(t: bv16, c: bv16)
    requires c == (t >> 10) & 1
    ensures AddDigit(Kept(t, 0x7800), c, 0x0400) == Kept(t, 0x7c00)
  {}

  lemma Digit9(t: bv16, c: bv16)
    requires c == (t >> 9) & 1
    ensures AddDigit(Kept(t, 0x7c00), c, 0x0200) == Kept(t, 0x7e00)
  {}

  lemma Digit8(t: bv16, c: bv16)
    requires c == (t >> 8) & 1
    ensures AddDigit(Kept(t, 0x7e00), c, 0x0100) == Kept(t, 0x7f00)
  {}

  lemma Digit7(t: bv16, c: bv16)
    requires c == (t >> 7) & 1
    ensures AddDigit(Kept(t, 0x7f00), c, 0x0080) == Kept(t, 0x7f80)
  {}

  lemma Digit6(t: bv16, c: bv16)
    requires c == (t >> 6) & 1
    ensures AddDigit(Kept(t, 0x7f80), c, 0x0040) == Kept(t, 0x7fc0)
  {}

  lemma Digit5(t: bv16, c: bv16)
    requires c == (t >> 5) & 1
    ensures AddDigit(Kept(t, 0x7fc0), c, 0x0020) == Kept(t, 0x7fe0)
  {}

  lemma Digit4(t: bv16, c: bv16)
    requires c == (t >> 4) & 1
    ensures AddDigit(Kept(t, 0x7fe0), c, 0x0010) == Kept(t, 0x7ff0)
  {}

  lemma Digit3(t: bv16, c: bv16)
    requires c == (t >> 3) & 1
    ensures AddDigit(Kept(t, 0x7ff0), c, 0x0008) == Kept(t, 0x7ff8)
  {}

  lemma Digit2(t: bv16, c: bv16)
    requires c == (t >> 2) & 1
    ensures AddDigit(Kept(t, 0x7ff8), c, 0x0004) == Kept(t, 0x7ffc)
  {}

  lemma Digit1(t: bv16, c: bv16)
    requires c == (t >> 1) & 1
    ensures AddDigit(Kept(t, 0x7ffc), c, 0x0002) == Kept(t, 0x7ffe)
  {}

  lemma Digit0(t: bv16, c: bv16)
    requires c == (t >> 0) & 1
    ensures AddDigit(Kept(t, 0x7ffe), c, 0x0001) == Kept(t, 0x7fff)
  {}

  lemma UpperColumns(a: bv8, b: bv8)
    ensures var t := Product(a, b);
            && AddDigit(Kept(t, 0x0000), Column14(a, b), 0x4000) == Kept(t, 0x4000)
            && AddDigit(Kept(t, 0x4000), Column13(a, b), 0x2000) == Kept(t, 0x6000)
            && AddDigit(Kept(t, 0x6000), Column12(a, b), 0x1000) == Kept(t, 0x7000)
            && AddDigit(Kept(t, 0x7000), Column11(a, b), 0x0800) == Kept(t, 0x7800)
            && AddDigit(Kept(t, 0x7800), Column10(a, b), 0x0400) == Kept(t, 0x7c00)
            && AddDigit(Kept(t, 0x7c00), Column9(a, b), 0x0200) == Kept(t, 0x7e00)
            && AddDigit(Kept(t, 0x7e00), Column8(a, b), 0x0100) == Kept(t, 0x7f00)
            && AddDigit(Kept(t, 0x7f00), Column7(a, b), 0x0080) == Kept(t, 0x7f80)
  {
    hide *;
    var t := Product(a, b);
    Column14IsDigit(a, b);
    Digit14(t, Column14(a, b));
    Column13IsDigit(a, b);
    Digit13(t, Column13(a, b));
    Column12IsDigit(a, b);
    Digit12(t, Column12(a, b));
    Column11IsDigit(a, b);
    Digit11(t, Column11(a, b));
    Column10IsDigit(a, b);
    Digit10(t, Column10(a, b));
    Column9IsDigit(a, b);
    Digit9(t, Column9(a, b));
    Column8IsDigit(a, b);
    Digit8(t, Column8(a, b));
    Column7IsDigit(a, b);
    Digit7(t, Column7(a, b));
  }

  lemma LowerColumns(a: bv8, b: bv8)
    ensures var t := Product(a, b);
            && AddDigit(Kept(t, 0x7f80), Column6(a, b), 0x0040) == Kept(t, 0x7fc0)
            && AddDigit(Kept(t, 0x7fc0), Column5(a, b), 0x0020) == Kept(t, 0x7fe0)
            && AddDigit(Kept(t, 0x7fe0), Column4(a, b), 0x0010) == Kept(t, 0x7ff0)
            && AddDigit(Kept(t, 0x7ff0), Column3(a, b), 0x0008) == Kept(t, 0x7ff8)
            && AddDigit(Kept(t, 0x7ff8), Column2(a, b), 0x0004) == Kept(t, 0x7ffc)
            && AddDigit(Kept(t, 0x7ffc), Column1(a, b), 0x0002) == Kept(t, 0x7ffe)
            && AddDigit(Kept(t, 0x7ffe), Column0(a, b), 0x0001) == Kept(t, 0x7fff)
  {
    hide *;
    var t := Product(a, b);
    Column6IsDigit(a, b);
    Digit6(t, Column6(a, b));
    Column5IsDigit(a, b);
    Digit5(t, Column5(a, b));
    Column4IsDigit(a, b);
    Digit4(t, Column4(a, b));
    Column3IsDigit(a, b);
    Digit3(t, Column3(a, b));
    Column2IsDigit(a, b);
    Digit2(t, Column2(a, b));
    Column1IsDigit(a, b);
    Digit1(t, Column1(a, b));
    Column0IsDigit(a, b);
    Digit0(t, Column0(a, b));
  }

  /** multwo: one column of the long multiplication for each digit of the product. */
  method MulTwo(a: bv8, b: bv8) returns (out: bv16)
    ensures out == Product(a, b)
  {
    hide *;
    ProductIsShort(a, b);
    UpperColumns(a, b);
    LowerColumns(a, b);
    out := 0;
    out := AddDigit(out, Column14(a, b), 0x4000);
    out := AddDigit(out, Column13(a, b), 0x2000);
    out := AddDigit(out, Column12(a, b), 0x1000);
    out := AddDigit(out, Column11(a, b), 0x0800);
    out := AddDigit(out, Column10(a, b), 0x0400);
    out := AddDigit(out, Column9(a, b), 0x0200);
    out := AddDigit(out, Column8(a, b), 0x0100);
    out := AddDigit(out, Column7(a, b), 0x0080);
    out := AddDigit(out, Column6(a, b), 0x0040);
    out := AddDigit(out, Column5(a, b), 0x0020);
    out := AddDigit(out, Column4(a, b), 0x0010);
    out := AddDigit(out, Column3(a, b), 0x0008);
    out := AddDigit(out, Column2(a, b), 0x0004);
    out := AddDigit(out, Column1(a, b), 0x0002);
    out := AddDigit(out, Column0(a, b), 0x0001);
  }

  /** matrix: the affine step, one output digit at a time. */
  method Matrix(t: bv8) returns (out: bv8)
    ensures out == Affine(t)
  {
    var t0, t1, t2, t3, t4, t5, t6, t7 := Seek(t, 0x01), Seek(t, 0x02), Seek(t, 0x04), Seek(t, 0x08),
      Seek(t, 0x10), Seek(t, 0x20), Seek(t, 0x40), Seek(t, 0x80);
    out := 0;
    if t0 ^ t4 ^ t5 ^ t6 ^ t7 ^ 1 == 1 { out := out + 1; }
    if t0 ^ t1 ^ t5 ^ t6 ^ t7 ^ 1 == 1 { out := out + 2; }
    if t0 ^ t1 ^ t2 ^ t6 ^ t7 ^ 0 == 1 { out := out + 4; }
    if t0 ^ t1 ^ t2 ^ t3 ^ t7 ^ 0 == 1 { out := out + 8; }
    if t0 ^ t1 ^ t2 ^ t3 ^ t4 ^ 0 == 1 { out := out + 16; }
    if t1 ^ t2 ^ t3 ^ t4 ^ t5 ^ 1 == 1 { out := out + 32; }
    if t2 ^ t3 ^ t4 ^ t5 ^ t6 ^ 1 == 1 { out := out + 64; }
    if t3 ^ t4 ^ t5 ^ t6 ^ t7 ^ 0 == 1 { out := out + 128; }
  }

  /** The inner loop of generateBox, for one entry. */
  method Entry(v: bv8) returns (entry: bv8)
    ensures entry == BaseEntry(v)
  {
    var value: bv8 := v;
    var out: bv8 := 1;
    for i := 0 to 7
      invariant (value, out) == Rounds(v, i)
    {
      var square := Square(value);
      value := Mod(square);
      var product := MulTwo(out, value);
      out := Mod(product);
    }
    entry := Matrix(out);
  }

  /** generateBox with the modulus 0x0102. */
  method GenerateBox() returns (box: array<byte>)
    ensures fresh(box) && box[..] == OriginalBox()
  {
    box := new byte[256](_ => 0);
    var count := 0;
    while count < 256
      invariant 0 <= count <= 256
      invariant forall k: byte :: k < count ==> box[k] == BaseBox(k)
    {
      var entry := Entry(count as bv8);
      box[count] := entry as int;
      count := count + 1;
    }
  }

  /** formNewBoxes: copies the base box and exchanges entries in place. */
  method FormNewBoxes(original: array<byte>, box: array<byte>, randoms: bytes)
    requires original.Length == box.Length == 256 && |randoms| == 128 && original != box
    modifies box
    ensures box[..] == ServerExchange(original[..], randoms)
  {
    for k := 0 to 256
      invariant forall m :: 0 <= m < k ==> box[m] == original[m]
    {
      box[k] := original[k];
    }
    assert box[..] == original[..];
    var j := 0;
    while j < 128
      invariant 0 <= j <= 128 && j % 2 == 0
      invariant box[..] == ServerExchange(original[..], randoms[..j])
    {
      ghost var before := box[..];
      var index1, index2 := randoms[j], randoms[j + 1];
      var temp := box[index1];
      box[index1] := box[index2];
      box[index2] := temp;
      assert box[..] == SwapAt(before, index1, index2);
      assert randoms[..j + 2][..j] == randoms[..j];
      j := j + 2;
    }
    assert randoms[..128] == randoms;
  }

  /** encrypt and decrypt of TeaAlgorithm run the same loop. */
  method SubstituteInPlace(buffer: array<byte>, length: nat, box: array<byte>)
    requires length <= buffer.Length && box.Length == 256 && buffer != box
    modifies buffer
    ensures buffer[..] == Substitute(box[..], old(buffer[..length])) + old(buffer[length..])
  {
    var index := 0;
    while index < length
      invariant 0 <= index <= length
      invariant forall k :: 0 <= k < index ==> buffer[k] == box[old(buffer[k])]
      invariant forall k :: index <= k < buffer.Length ==> buffer[k] == old(buffer[k])
    {
      buffer[index] := box[buffer[index]];
      index := index + 1;
    }
  }

  /** The Python client's box. */
  class EncryptionBox {
    var stable: seq<byte>

    constructor ()
      ensures stable == STABLE()
    {
      stable := STABLE();
    }

    method SwitchSbox(s: byte, t: byte)
      requires |stable| == 256
      modifies this
      ensures stable == SwapValues(old(stable), s, t)
    {
      if s == t {
        return;
      }
      var sIndex, tIndex := 0, 0;
      for i := 0 to 256
        invariant sIndex == LastPlace(stable[..i], s) && tIndex == LastPlace(stable[..i], t)
        invariant 0 <= sIndex < 256 && 0 <= tIndex < 256
        invariant stable == old(stable)
      {
        assert stable[..i + 1][..i] == stable[..i];
        if s == stable[i] {
          sIndex := i;
        }
        if t == stable[i] {
          tIndex := i;
        }
      }
      assert stable[..256] == stable;
      var tmp := stable[sIndex];
      stable := stable[sIndex := stable[tIndex]];
      stable := stable[tIndex := tmp];
    }

    /** SwithTable ignores a list that is not 128 bytes long. */
    method SwitchTable(pairs: bytes)
      requires |stable| == 256
      modifies this
      ensures stable == if |pairs| == 128 then ClientExchange(old(stable), pairs) else old(stable)
    {
      if |pairs| != 128 {
        return;
      }
      var i := 0;
      while i < 128
        invariant 0 <= i <= 128 && i % 2 == 0
        invariant stable == ClientExchange(old(stable), pairs[..i])
      {
        SwitchSbox(pairs[i], pairs[i + 1]);
        assert pairs[..i + 2][..i] == pairs[..i];
        i := i + 2;
      }
      assert pairs[..128] == pairs;
    }

    method EDcrpt(buffer: bytes, size: nat) returns (r: bytes)
      requires |stable| == 256 && size <= |buffer|
      ensures r == Substitute(stable, buffer[..size])
    {
      r := [];
      for i := 0 to size
        invariant |r| == i
        invariant forall k :: 0 <= k < i ==> r[k] == stable[buffer[k]]
      {
        r := r + [stable[buffer[i]]];
      }
    }
  }
}

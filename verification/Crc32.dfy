/** The checksum of the ZIP writer, bit by bit, against the byte-wise table of RFC 1952 section 8. */
module Crc32 {
  type Byte = n: nat | n < 256

  const POLYNOMIAL: bv32 := 0xedb88320

  function Step(c: bv32): bv32 {
    if c & 1 == 1 then POLYNOMIAL ^ (c >> 1) else c >> 1
  }

  function Iterate<T>(f: T -> T, x: T, k: nat): T {
    if k == 0 then x else f(Iterate(f, x, k - 1))
  }

  /** An entry of the table, with `bits` 8. */
  function TableEntry(n: bv32, bits: nat): bv32 {
    Iterate(Step, n, bits)
  }

  function Absorb(c: bv32, byte: bv32, bits: nat): bv32 {
    TableEntry((c ^ byte) & 0xff, bits) ^ (c >> 8)
  }

  function Word(b: Byte): (w: bv32)
    ensures w <= 0xff
  {
    b as bv32
  }

  function Fold<T, B>(f: (T, B) -> T, x: T, bytes: seq<B>): T {
    if bytes == [] then x else f(Fold(f, x, bytes[..|bytes| - 1]), bytes[|bytes| - 1])
  }

  function AbsorbByte(c: bv32, b: Byte): bv32 {
    Absorb(c, Word(b), 8)
  }

  function Checksum(bytes: seq<Byte>): bv32 {
    Fold(AbsorbByte, 0xffffffff, bytes) ^ 0xffffffff
  }

  // ------------------------------------------------------------------ Words

  lemma LowBit(c: bv32)
    ensures c & 1 == 0 || c & 1 == 1
  {
  }

  lemma LowBitXor(a: bv32, b: bv32)
    ensures (a ^ b) & 1 == (a & 1) ^ (b & 1) && (a ^ b) >> 1 == (a >> 1) ^ (b >> 1)
  {
  }

  lemma XorTwice(a: bv32, b: bv32, p: bv32)
    ensures (p ^ a) ^ (p ^ b) == a ^ b && (p ^ a) ^ b == p ^ (a ^ b) && a ^ (p ^ b) == p ^ (a ^ b)
  {
  }

  lemma MaskOnes(p: bv32)
    ensures p & (0 - 1) == p && p & (0 - 0) == 0
  {
  }

  lemma XorSides(a: bv32, p: bv32)
    ensures a ^ p == p ^ a && a ^ 0 == a
  {
  }

  /** Subtracting the low bit from zero makes it a mask: the shift of the inner loop is a branch. */
  lemma MaskIsStep(c: bv32)
    ensures (c >> 1) ^ (POLYNOMIAL & (0 - (c & 1))) == Step(c)
  {
    LowBit(c);
    MaskOnes(POLYNOMIAL);
    XorSides(c >> 1, POLYNOMIAL);
  }

  lemma OneBits()
    ensures (0 as bv32) ^ 0 == 0 && (1 as bv32) ^ 0 == 1 && (0 as bv32) ^ 1 == 1 && (1 as bv32) ^ 1 == 0
  {
  }

  lemma StepLinear(a: bv32, b: bv32)
    ensures Step(a ^ b) == Step(a) ^ Step(b)
  {
    LowBit(a);
    LowBit(b);
    LowBitXor(a, b);
    OneBits();
    XorTwice(a >> 1, b >> 1, POLYNOMIAL);
  }

  lemma {:induction false} IterateLinear<T(!new)>(f: T -> T, xor: (T, T) -> T, a: T, b: T, k: nat)
    requires forall x, y :: f(xor(x, y)) == xor(f(x), f(y))
    ensures Iterate(f, xor(a, b), k) == xor(Iterate(f, a, k), Iterate(f, b, k))
  {
    if k > 0 { IterateLinear(f, xor, a, b, k - 1); }
  }

  lemma {:induction false} IterateTwo<T>(f: T -> T, x: T, x1: T, x2: T, k: nat)
    requires f(x) == x1 && f(x1) == x2
    ensures Iterate(f, x, k + 2) == Iterate(f, x2, k)
  {
    if k == 0 {
      assert Iterate(f, x, 1) == x1;
    } else {
      IterateTwo(f, x, x1, x2, k - 1);
    }
  }

  lemma FoldStep<T, B>(f: (T, B) -> T, x: T, bytes: seq<B>, i: nat)
    requires i < |bytes|
    ensures Fold(f, x, bytes[..i + 1]) == f(Fold(f, x, bytes[..i]), bytes[i])
  {
    assert bytes[..i + 1][..i] == bytes[..i] && bytes[..i + 1][i] == bytes[i];
  }

  function Xor(a: bv32, b: bv32): bv32 {
    a ^ b
  }

  lemma ByteStays(d: bv32, b: bv32)
    requires b <= 0xff
    ensures (d ^ b) >> 8 == d >> 8
  {
  }

  lemma TwoSteps(x: bv32, x1: bv32, x2: bv32, k: nat)
    requires Step(x) == x1 && Step(x1) == x2
    ensures Iterate(Step, x, k + 2) == Iterate(Step, x2, k)
  {
    IterateTwo(Step, x, x1, x2, k);
  }

  lemma Zeros0(c: bv32, x: bv32, k: nat)
    requires x == c & 0xffffff00
    ensures Iterate(Step, x, k + 2) == Iterate(Step, x >> 2, k)
  {
    assert Step(x) == x >> 1 && Step(x >> 1) == x >> 2;
    TwoSteps(x, x >> 1, x >> 2, k);
  }

  lemma Zeros2(c: bv32, x: bv32, k: nat)
    requires x == c & 0xffffff00
    ensures Iterate(Step, x >> 2, k + 2) == Iterate(Step, x >> 4, k)
  {
    assert Step(x >> 2) == x >> 3 && Step(x >> 3) == x >> 4;
    TwoSteps(x >> 2, x >> 3, x >> 4, k);
  }

  lemma Zeros4(c: bv32, x: bv32, k: nat)
    requires x == c & 0xffffff00
    ensures Iterate(Step, x >> 4, k + 2) == Iterate(Step, x >> 6, k)
  {
    assert Step(x >> 4) == x >> 5 && Step(x >> 5) == x >> 6;
    TwoSteps(x >> 4, x >> 5, x >> 6, k);
  }

  lemma Zeros6(c: bv32, x: bv32, k: nat)
    requires x == c & 0xffffff00
    ensures Iterate(Step, x >> 6, k + 2) == Iterate(Step, x >> 8, k)
  {
    assert Step(x >> 6) == x >> 7 && Step(x >> 7) == x >> 8;
    TwoSteps(x >> 6, x >> 7, x >> 8, k);
  }

  /** Shifting out eight zero bits never meets the polynomial. */
  lemma HighPart(c: bv32, x: bv32, x2: bv32, x4: bv32, x6: bv32, x8: bv32, k: nat)
    requires x == c & 0xffffff00 && x2 == x >> 2 && x4 == x >> 4 && x6 == x >> 6 && x8 == x >> 8 && k == 8
    ensures Iterate(Step, x, k) == x8
  {
    Zeros0(c, x, k - 2);
    Zeros2(c, x, k - 4);
    Zeros4(c, x, k - 6);
    Zeros6(c, x, k - 8);
  }

  lemma StepsLinear(a: bv32, b: bv32, k: nat)
    ensures Iterate(Step, a ^ b, k) == Iterate(Step, a, k) ^ Iterate(Step, b, k)
  {
    forall x, y ensures Step(Xor(x, y)) == Xor(Step(x), Step(y)) { StepLinear(x, y); }
    IterateLinear(Step, Xor, a, b, k);
  }

  lemma JoinHalves(c: bv32, low: bv32, high: bv32, shifted: bv32, k: nat)
    requires c == low ^ high && Iterate(Step, high, k) == shifted
    ensures Iterate(Step, c, k) == Iterate(Step, low, k) ^ shifted
  {
    StepsLinear(low, high, k);
  }

  lemma Halves(c: bv32, low: bv32, high: bv32)
    requires low == c & 0xff && high == c & 0xffffff00
    ensures c == low ^ high && high >> 8 == c >> 8
  {
  }

  /** Eight bit steps on a word are one table step; the shifted words are named to keep them apart. */
  lemma EightSteps(c: bv32, low: bv32, x: bv32, x2: bv32, x4: bv32, x6: bv32, x8: bv32, k: nat)
    requires low == c & 0xff && x == c & 0xffffff00 && k == 8
    requires x2 == x >> 2 && x4 == x >> 4 && x6 == x >> 6 && x8 == x >> 8
    ensures Iterate(Step, c, k) == Iterate(Step, low, k) ^ x8 && x8 == c >> 8
  {
    Halves(c, low, x);
    HighPart(c, x, x2, x4, x6, x8, k);
    JoinHalves(c, low, x, x8, k);
  }

  lemma AbsorbWord(c: bv32, byte: bv32, low: bv32, k: nat)
    requires low == (c ^ byte) & 0xff
    ensures Absorb(c, byte, k) == TableEntry(low, k) ^ (c >> 8)
  {
  }

  lemma AbsorbIsEightSteps(c: bv32, byte: bv32, word: bv32, low: bv32, x: bv32, x2: bv32, x4: bv32, x6: bv32,
                           x8: bv32, k: nat)
    requires byte <= 0xff && word == c ^ byte && k == 8
    requires low == word & 0xff && x == word & 0xffffff00
    requires x2 == x >> 2 && x4 == x >> 4 && x6 == x >> 6 && x8 == x >> 8
    ensures Iterate(Step, word, k) == TableEntry(low, k) ^ (c >> 8)
  {
    EightSteps(word, low, x, x2, x4, x6, x8, k);
    ByteStays(c, byte);
  }

  lemma WordIsAbsorbed(c: bv32, byte: bv32, word: bv32, k: nat)
    requires byte <= 0xff && word == c ^ byte && k == 8
    ensures Iterate(Step, word, k) == Absorb(c, byte, k)
  {
    var low, high := word & 0xff, word & 0xffffff00;
    AbsorbWord(c, byte, low, k);
    AbsorbIsEightSteps(c, byte, word, low, high, high >> 2, high >> 4, high >> 6, high >> 8, k);
  }

  method Shift(c: bv32) returns (d: bv32)
    ensures d == Step(c)
  {
    MaskIsStep(c);
    d := (c >> 1) ^ (POLYNOMIAL & (0 - (c & 1)));
  }

  method ShiftByte(c: bv32, byte: bv32, bits: nat) returns (crc: bv32)
    requires byte <= 0xff && bits == 8
    ensures crc == Absorb(c, byte, bits)
  {
    crc := c ^ byte;
    ghost var start := crc;
    for bit := 0 to bits
      invariant crc == Iterate(Step, start, bit)
    {
      crc := Shift(crc);
    }
    WordIsAbsorbed(c, byte, start, bits);
  }

  method Compute(bytes: seq<Byte>) returns (crc: bv32)
    ensures crc == Checksum(bytes)
  {
    crc := 0xffffffff;
    for i := 0 to |bytes|
      invariant crc == Fold(AbsorbByte, 0xffffffff, bytes[..i])
    {
      FoldStep(AbsorbByte, 0xffffffff, bytes, i);
      crc := ShiftByte(crc, Word(bytes[i]), 8);
    }
    assert bytes[..|bytes|] == bytes;
    crc := crc ^ 0xffffffff;
  }
}

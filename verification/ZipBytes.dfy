/**
 The archive byte by byte, as PKWARE's APPNOTE.TXT lays it out in sections 4.3.7, 4.3.12 and 4.3.16, and the
 checksum's published check value.
 */
module ZipBytes {
  import opened Common
  import opened Crc32
  import opened ZipLayout
  import opened ZipFormat

  function Low(n: nat): Byte { n % 0x100 }

  function Two(n: nat): seq<Byte> { [Low(n), Low(n / 0x100)] }

  function Four(n: nat): seq<Byte> { [Low(n), Low(n / 0x100), Low(n / 0x1_0000), Low(n / 0x100_0000)] }

  lemma PutTwo(n: nat)
    ensures Put(2, n) == Two(n)
  {
    assert Put(1, n / 256) == [n / 256 % 256] + Put(0, n / 256 / 256);
    assert Put(2, n) == [n % 256] + Put(1, n / 256);
  }

  lemma PutFour(n: nat)
    ensures Put(4, n) == Four(n)
  {
    PutTwo(n / 0x1_0000);
    assert n / 256 / 256 == n / 0x1_0000 && n / 0x1_0000 / 0x100 == n / 0x100_0000;
    assert Put(3, n / 256) == [n / 256 % 256] + Put(2, n / 256 / 256);
    assert Put(4, n) == [n % 256] + Put(3, n / 256);
  }

  /** A field of two or four bytes, written out. */
  function Piece(f: Field): seq<Byte> {
    if f.width == 2 then Two(f.value) else Four(f.value)
  }

  function Pieces(fields: seq<Field>): seq<seq<Byte>> {
    seq(|fields|, i requires 0 <= i < |fields| => Piece(fields[i]))
  }

  /** Pieces one after the other. */
  function Joined(pieces: seq<seq<Byte>>): seq<Byte> {
    if pieces == [] then [] else Joined(pieces[..|pieces| - 1]) + pieces[|pieces| - 1]
  }

  lemma {:induction false} RecordBytes(fields: seq<Field>)
    requires forall f | f in fields :: f.width == 2 || f.width == 4
    ensures Record(fields) == Joined(Pieces(fields))
  {
    if fields != [] {
      var n := |fields| - 1;
      RecordBytes(fields[..n]);
      PutTwo(fields[n].value);
      PutFour(fields[n].value);
      assert Pieces(fields)[..n] == Pieces(fields[..n]);
    }
  }

  /** A local header: signature, version 2.0, names in UTF-8, no compression, the first day of 1980, and then
      what depends on the file. */
  function LocalPieces(crc: nat, size: nat, name: nat): seq<seq<Byte>> {
    [[0x50, 0x4b, 3, 4], [20, 0], [0, 8], [0, 0], [0, 0], [0x21, 0],
     Four(crc), Four(size), Four(size), Two(name), [0, 0]]
  }

  /** A directory header: signature, made on Unix, then as in the local header, no comment, the mode in the
      upper half of the external attributes, and where the file is. */
  function CentralPieces(crc: nat, size: nat, name: nat, mode: nat, offset: nat): seq<seq<Byte>> {
    [[0x50, 0x4b, 1, 2], [0x1e, 3], [20, 0], [0, 8], [0, 0], [0, 0], [0x21, 0],
     Four(crc), Four(size), Four(size), Two(name), [0, 0], [0, 0],
     [0, 0], [0, 0], [0, 0] + Two(mode), Four(offset)]
  }

  lemma LocalFieldPieces(m: Member)
    ensures Pieces(LocalFields(m)) == LocalPieces(Crc(m.content), |m.content|, |m.name|)
  {
    Signatures();
    SmallPieces();
    var got, want := Pieces(LocalFields(m)), LocalPieces(Crc(m.content), |m.content|, |m.name|);
    assert forall k | 0 <= k < 6 :: got[k] == want[k];
    assert forall k | 6 <= k < 11 :: got[k] == want[k];
  }

  lemma CentralFirst(m: Member, offset: nat)
    ensures var want := CentralPieces(Crc(m.content), |m.content|, |m.name|, m.mode, offset);
      forall k | 0 <= k < 8 :: Piece(CentralFields(m, offset)[k]) == want[k]
  {
    Signatures();
    SmallPieces();
  }

  lemma CentralLast(m: Member, offset: nat)
    ensures var want := CentralPieces(Crc(m.content), |m.content|, |m.name|, m.mode, offset);
      forall k | 8 <= k < 17 :: Piece(CentralFields(m, offset)[k]) == want[k]
  {
    SmallPieces();
    UpperHalf(m.mode);
  }

  lemma CentralFieldPieces(m: Member, offset: nat)
    ensures Pieces(CentralFields(m, offset)) == CentralPieces(Crc(m.content), |m.content|, |m.name|, m.mode, offset)
  {
    CentralFirst(m, offset);
    CentralLast(m, offset);
    var got := Pieces(CentralFields(m, offset));
    assert |got| == 17 && forall k | 0 <= k < 17 :: got[k] == Piece(CentralFields(m, offset)[k]);
  }

  lemma SmallPieces()
    ensures Two(0) == [0, 0] && Two(20) == [20, 0] && Two(0x0800) == [0, 8] && Two(0x21) == [0x21, 0]
    ensures Two(0x031e) == [0x1e, 3]
  {
  }

  lemma LocalBytes(m: Member)
    ensures LocalPart(m) == Joined(LocalPieces(Crc(m.content), |m.content|, |m.name|)) + m.name + m.content
  {
    RecordBytes(LocalFields(m));
    LocalFieldPieces(m);
  }

  lemma CentralBytes(m: Member, offset: nat)
    ensures CentralPart(m, offset)
         == Joined(CentralPieces(Crc(m.content), |m.content|, |m.name|, m.mode, offset)) + m.name
  {
    RecordBytes(CentralFields(m, offset));
    CentralFieldPieces(m, offset);
  }

  /** The end record: one disk, the number of files, and where the directory is. */
  lemma EndBytes(count: nat, size: nat, offset: nat)
    ensures Record(EndFields(count, size, offset)) == Joined([
      [0x50, 0x4b, 5, 6], [0, 0], [0, 0], Two(count), Two(count), Four(size), Four(offset), [0, 0]])
  {
    RecordBytes(EndFields(count, size, offset));
    Signatures();
    assert Pieces(EndFields(count, size, offset)) == [
      [0x50, 0x4b, 5, 6], [0, 0], [0, 0], Two(count), Two(count), Four(size), Four(offset), [0, 0]];
  }

  lemma Signatures()
    ensures Four(LOCAL_SIGNATURE) == [0x50, 0x4b, 3, 4] && Four(CENTRAL_SIGNATURE) == [0x50, 0x4b, 1, 2]
    ensures Four(END_SIGNATURE) == [0x50, 0x4b, 5, 6]
  {
  }

  lemma UpperHalf(mode: nat)
    ensures Four(mode * 0x1_0000) == [0, 0] + Two(mode)
  {
  }

  // ------------------------------------------------------------------ The check value

  lemma Absorb1()
    ensures AbsorbByte(0xffffffff, 0x31) == 0x7c231048
  {
    Entry(0xce, 0x67, 0xedb88313, 0x9b64c2a9, 0xa00ae274, 0x5005713a, 0x2802b89d, 0xf9b9df6e, 0x7cdcefb7);
    assert Word(0x31) == 0x31;
  }

  lemma Absorb2()
    ensures AbsorbByte(0x7c231048, 0x32) == 0xb0acbb32
  {
    Entry(0x7a, 0x3d, 0xedb8833e, 0x76dc419f, 0xd6d6a3ef, 0x86d3d2d7, 0xaed16a4b, 0xbad03605, 0xb0d09822);
    assert Word(0x32) == 0x32;
  }

  lemma Absorb3()
    ensures AbsorbByte(0xb0acbb32, 0x33) == 0x77b79c2d
  {
    Entry(0x1, 0xedb88320, 0x76dc4190, 0x3b6e20c8, 0x1db71064, 0xedb8832, 0x76dc419, 0xee0e612c, 0x77073096);
    assert Word(0x33) == 0x33;
  }

  lemma Absorb4()
    ensures AbsorbByte(0x77b79c2d, 0x34) == 0x641c1f5c
  {
    Entry(0x19, 0xedb8832c, 0x76dc4196, 0x3b6e20cb, 0xf00f9345, 0x95bf4a82, 0x4adfa541, 0xc8d75180, 0x646ba8c0);
    assert Word(0x34) == 0x34;
  }

  lemma Absorb5()
    ensures AbsorbByte(0x641c1f5c, 0x35) == 0x340ac5e3
  {
    Entry(0x69, 0xedb88314, 0x76dc418a, 0x3b6e20c5, 0xf00f9342, 0x7807c9a1, 0xd1bb67f0, 0x68ddb3f8, 0x346ed9fc);
    assert Word(0x35) == 0x35;
  }

  lemma Absorb6()
    ensures AbsorbByte(0x340ac5e3, 0x36) == 0xf68d2c9e
  {
    Entry(0xd5, 0xedb8834a, 0x76dc41a5, 0xd6d6a3f2, 0x6b6b51f9, 0xd80d2bdc, 0x6c0695ee, 0x36034af7, 0xf6b9265b);
    assert Word(0x36) == 0x36;
  }

  lemma Absorb7()
    ensures AbsorbByte(0xf68d2c9e, 0x37) == 0xaffc9660
  {
    Entry(0xa9, 0xedb88374, 0x76dc41ba, 0x3b6e20dd, 0xf00f934e, 0x7807c9a7, 0xd1bb67f3, 0x856530d9, 0xaf0a1b4c);
    assert Word(0x37) == 0x37;
  }

  lemma Absorb8()
    ensures AbsorbByte(0xaffc9660, 0x38) == 0x651f2550
  {
    Entry(0x58, 0x2c, 0x16, 0xb, 0xedb88325, 0x9b64c2b2, 0x4db26159, 0xcb61b38c, 0x65b0d9c6);
    assert Word(0x38) == 0x38;
  }

  lemma Absorb9()
    ensures AbsorbByte(0x651f2550, 0x39) == 0x340bc6d9
  {
    Entry(0x69, 0xedb88314, 0x76dc418a, 0x3b6e20c5, 0xf00f9342, 0x7807c9a1, 0xd1bb67f0, 0x68ddb3f8, 0x346ed9fc);
    assert Word(0x39) == 0x39;
  }

  /** Eight steps, one by one. */
  lemma Entry(n: bv32, a: bv32, b: bv32, c: bv32, d: bv32, e: bv32, f: bv32, g: bv32, h: bv32)
    requires Step(n) == a && Step(a) == b && Step(b) == c && Step(c) == d
    requires Step(d) == e && Step(e) == f && Step(f) == g && Step(g) == h
    ensures TableEntry(n, 8) == h
  {
    assert Iterate(Step, n, 1) == Step(Iterate(Step, n, 0)) == a;
    assert Iterate(Step, n, 2) == b;
    assert Iterate(Step, n, 3) == c;
    assert Iterate(Step, n, 4) == d;
    assert Iterate(Step, n, 5) == e;
    assert Iterate(Step, n, 6) == f;
    assert Iterate(Step, n, 7) == g;
  }

  /** Following the values one byte after the other. */
  lemma {:induction false} FoldFollows<T, B>(f: (T, B) -> T, values: seq<T>, bytes: seq<B>, k: nat)
    requires |values| == |bytes| + 1 && k <= |bytes|
    requires forall i | 0 <= i < |bytes| :: f(values[i], bytes[i]) == values[i + 1]
    ensures Fold(f, values[0], bytes[..k]) == values[k]
  {
    if k > 0 {
      FoldFollows(f, values, bytes, k - 1);
      FoldStep(f, values[0], bytes, k - 1);
    }
  }

  /** The bytes from `first` on lead from each value to the next. */
  predicate Follow(values: seq<bv32>, digits: seq<Byte>, first: nat, last: nat)
    requires |values| == |digits| + 1 && last <= |digits|
  {
    forall i | first <= i < last :: AbsorbByte(values[i], digits[i]) == values[i + 1]
  }

  lemma FirstDigits(values: seq<bv32>, digits: seq<Byte>)
    requires |values| == 10 && |digits| == 9 && digits[..3] == [0x31, 0x32, 0x33]
    requires values[..4] == [0xffffffff, 0x7c231048, 0xb0acbb32, 0x77b79c2d]
    ensures Follow(values, digits, 0, 3)
  {
    Absorb1();
    Absorb2();
    Absorb3();
    assert values[0] == values[..4][0] && values[1] == values[..4][1] && values[2] == values[..4][2];
    assert values[3] == values[..4][3];
    assert digits[0] == digits[..3][0] && digits[1] == digits[..3][1] && digits[2] == digits[..3][2];
  }

  lemma MiddleDigits(values: seq<bv32>, digits: seq<Byte>)
    requires |values| == 10 && |digits| == 9 && digits[3..6] == [0x34, 0x35, 0x36]
    requires values[3..7] == [0x77b79c2d, 0x641c1f5c, 0x340ac5e3, 0xf68d2c9e]
    ensures Follow(values, digits, 3, 6)
  {
    Absorb4();
    Absorb5();
    Absorb6();
    assert values[3] == values[3..7][0] && values[4] == values[3..7][1] && values[5] == values[3..7][2];
    assert values[6] == values[3..7][3];
    assert digits[3] == digits[3..6][0] && digits[4] == digits[3..6][1] && digits[5] == digits[3..6][2];
  }

  lemma LastDigits(values: seq<bv32>, digits: seq<Byte>)
    requires |values| == 10 && |digits| == 9 && digits[6..] == [0x37, 0x38, 0x39]
    requires values[6..] == [0xf68d2c9e, 0xaffc9660, 0x651f2550, 0x340bc6d9]
    ensures Follow(values, digits, 6, 9)
  {
    Absorb7();
    Absorb8();
    Absorb9();
    assert values[6] == values[6..][0] && values[7] == values[6..][1] && values[8] == values[6..][2];
    assert values[9] == values[6..][3];
    assert digits[6] == digits[6..][0] && digits[7] == digits[6..][1] && digits[8] == digits[6..][2];
  }

  lemma AllFollow(values: seq<bv32>, digits: seq<Byte>)
    requires |values| == 10 && |digits| == 9
    requires Follow(values, digits, 0, 3) && Follow(values, digits, 3, 6) && Follow(values, digits, 6, 9)
    ensures Fold(AbsorbByte, values[0], digits) == values[9]
  {
    FoldFollows(AbsorbByte, values, digits, 9);
    assert digits[..9] == digits;
  }

  /** The check value of the CRC that ZIP uses: the digits 1 to 9 give 0xcbf43926. */
  lemma CheckValue()
    ensures Checksum([0x31, 0x32, 0x33, 0x34, 0x35, 0x36, 0x37, 0x38, 0x39]) == 0xcbf43926
  {
    var values := [0xffffffff, 0x7c231048, 0xb0acbb32, 0x77b79c2d, 0x641c1f5c, 0x340ac5e3, 0xf68d2c9e,
                   0xaffc9660, 0x651f2550, 0x340bc6d9];
    var digits := [0x31, 0x32, 0x33, 0x34, 0x35, 0x36, 0x37, 0x38, 0x39];
    FirstDigits(values, digits);
    MiddleDigits(values, digits);
    LastDigits(values, digits);
    AllFollow(values, digits);
  }
}

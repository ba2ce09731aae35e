/** Little-endian records, and a reader of stored ZIP archives after PKWARE APPNOTE.TXT. */
module ZipFormat {
  import opened Common
  import opened Crc32
  import opened ZipLayout

  // ------------------------------------------------------------------ Little-endian fields

  function Radix(width: nat): nat {
    if width == 0 then 1 else 256 * Radix(width - 1)
  }

  function Put(width: nat, value: nat): (b: seq<Byte>)
    ensures |b| == width
  {
    if width == 0 then [] else [value % 256] + Put(width - 1, value / 256)
  }

  function Get(b: seq<Byte>): nat {
    if b == [] then 0 else b[0] + 256 * Get(b[1..])
  }

  lemma {:induction false} GetPut(width: nat, value: nat)
    requires value < Radix(width)
    ensures Get(Put(width, value)) == value
  {
    if width > 0 {
      GetPut(width - 1, value / 256);
      assert Put(width, value)[1..] == Put(width - 1, value / 256);
    }
  }

  datatype Field = Field(width: nat, value: nat)

  function Size(widths: seq<nat>): nat {
    if widths == [] then 0 else Size(widths[..|widths| - 1]) + widths[|widths| - 1]
  }

  function Widths(fields: seq<Field>): seq<nat> {
    seq(|fields|, k requires 0 <= k < |fields| => fields[k].width)
  }

  predicate FieldsFit(fields: seq<Field>) {
    forall k | 0 <= k < |fields| :: fields[k].value < Radix(fields[k].width)
  }

  /** A record: its fields one after the other. */
  function Record(fields: seq<Field>): seq<Byte> {
    if fields == [] then []
    else Record(fields[..|fields| - 1]) + Put(fields[|fields| - 1].width, fields[|fields| - 1].value)
  }

  /** The field values of the record that a byte string starts with. */
  function Values(widths: seq<nat>, b: seq<Byte>): seq<nat>
    requires Size(widths) <= |b|
  {
    if widths == [] then []
    else
      var rest := widths[..|widths| - 1];
      Values(rest, b) + [Get(b[Size(rest)..Size(widths)])]
  }

  lemma {:induction false} RecordSize(fields: seq<Field>)
    ensures |Record(fields)| == Size(Widths(fields))
  {
    if fields != [] {
      var n := |fields| - 1;
      RecordSize(fields[..n]);
      assert Widths(fields)[..n] == Widths(fields[..n]);
    }
  }

  lemma Middle(a: seq<Byte>, b: seq<Byte>, c: seq<Byte>)
    ensures (a + b) + c == a + (b + c) && ((a + b) + c)[|a|..|a| + |b|] == b
  {
  }

  lemma LastField(fields: seq<Field>, rest: seq<Byte>)
    requires fields != []
    ensures var n := |fields| - 1;
      && Widths(fields)[..n] == Widths(fields[..n]) && |Record(fields)| == Size(Widths(fields))
      && Record(fields) + rest == Record(fields[..n]) + (Put(fields[n].width, fields[n].value) + rest)
      && (Record(fields) + rest)[Size(Widths(fields[..n]))..Size(Widths(fields))]
        == Put(fields[n].width, fields[n].value)
  {
    var n := |fields| - 1;
    RecordSize(fields[..n]);
    RecordSize(fields);
    assert Widths(fields)[..n] == Widths(fields[..n]);
    Middle(Record(fields[..n]), Put(fields[n].width, fields[n].value), rest);
  }

  function FieldValues(fields: seq<Field>): seq<nat> {
    seq(|fields|, k requires 0 <= k < |fields| => fields[k].value)
  }

  /** Reading the widths of a record back gives its values. */
  lemma {:induction false} RecordRoundTrip(fields: seq<Field>, rest: seq<Byte>)
    requires FieldsFit(fields)
    ensures |Record(fields)| == Size(Widths(fields))
    ensures Values(Widths(fields), Record(fields) + rest) == FieldValues(fields)
  {
    RecordSize(fields);
    if fields != [] {
      var n := |fields| - 1;
      LastField(fields, rest);
      RecordRoundTrip(fields[..n], Put(fields[n].width, fields[n].value) + rest);
      GetPut(fields[n].width, fields[n].value);
      assert FieldValues(fields) == FieldValues(fields[..n]) + [fields[n].value];
    }
  }

  // ------------------------------------------------------------------ Reading

  const LOCAL_SIGNATURE: nat := 0x04034b50
  const CENTRAL_SIGNATURE: nat := 0x02014b50
  const END_SIGNATURE: nat := 0x06054b50

  /** Widths of the fixed parts in sections 4.3.7, 4.3.12 and 4.3.16 of APPNOTE.TXT. */
  function LocalWidths(): seq<nat> { [4, 2, 2, 2, 2, 2, 4, 4, 4, 2, 2] }

  function CentralWidths(): seq<nat> { [4, 2, 2, 2, 2, 2, 2, 4, 4, 4, 2, 2, 2, 2, 2, 4, 4] }

  function EndWidths(): seq<nat> { [4, 2, 2, 2, 2, 4, 4, 2] }

  lemma LocalSize()
    ensures Size(LocalWidths()) == 30
  {
    var w := LocalWidths();
    SizeStep(w, 11);
    assert Sum(w, 2) == 6 && Sum(w, 4) == 10 && Sum(w, 6) == 14 && Sum(w, 8) == 22 && Sum(w, 10) == 28;
  }

  lemma CentralHalf()
    ensures Sum(CentralWidths(), 8) == 20
  {
    var w := CentralWidths();
    assert Sum(w, 2) == 6 && Sum(w, 4) == 10 && Sum(w, 6) == 14;
  }

  lemma CentralSize()
    ensures Size(CentralWidths()) == 46
  {
    var w := CentralWidths();
    CentralHalf();
    assert Sum(w, 10) == 28 && Sum(w, 12) == 32 && Sum(w, 14) == 36 && Sum(w, 16) == 42;
    SizeStep(w, 17);
  }

  lemma EndSize()
    ensures Size(EndWidths()) == 22
  {
    var w := EndWidths();
    SizeStep(w, 8);
    assert Sum(w, 2) == 6 && Sum(w, 4) == 10 && Sum(w, 6) == 16;
  }

  function Sum(widths: seq<nat>, n: nat): nat
    requires n <= |widths|
  {
    if n == 0 then 0 else Sum(widths, n - 1) + widths[n - 1]
  }

  lemma {:induction false} SizeStep(widths: seq<nat>, n: nat)
    requires n <= |widths|
    ensures Size(widths[..n]) == Sum(widths, n)
    ensures widths[..|widths|] == widths
  {
    if n > 0 {
      SizeStep(widths, n - 1);
      assert widths[..n][..n - 1] == widths[..n - 1];
    }
  }

  lemma {:induction false} ValuesCount(widths: seq<nat>, b: seq<Byte>)
    requires Size(widths) <= |b|
    ensures |Values(widths, b)| == |widths|
  {
    if widths != [] { ValuesCount(widths[..|widths| - 1], b); }
  }

  function FixedPart(widths: seq<nat>, b: seq<Byte>): (v: seq<nat>)
    requires Size(widths) <= |b|
    ensures |v| == |widths|
  {
    ValuesCount(widths, b);
    Values(widths, b)
  }

  function Crc(content: seq<Byte>): nat {
    Checksum(content) as nat
  }

  /** A stored file: its name, its bytes and the upper half of its external attributes. */
  datatype Member = Member(name: seq<Byte>, content: seq<Byte>, mode: nat)

  datatype Header = Header(name: seq<Byte>, compression: nat, crc: nat, packed: nat, unpacked: nat, attributes: nat,
                           offset: nat)

  /** The directory header that `b` starts with, and how long it is. */
  function ReadCentral(b: seq<Byte>): Option<(Header, nat)> {
    CentralSize();
    if |b| < 46 then None
    else
      var v := FixedPart(CentralWidths(), b);
      var size := 46 + v[10] + v[11] + v[12];
      if v[0] != CENTRAL_SIGNATURE || size > |b| then None
      else Some((Header(b[46..46 + v[10]], v[4], v[7], v[8], v[9], v[15], v[16]), size))
  }

  /** The local file at the start of `b`, whose fixed part has the values `v`, with every field it
      shares with the directory header and the checksum of its content checked. */
  function OpenLocal(b: seq<Byte>, v: seq<nat>, h: Header, checksum: seq<Byte> -> nat): Option<Member>
    requires |b| >= 30 && |v| == 11
  {
    var start := 30 + v[9] + v[10];
    if v[0] != LOCAL_SIGNATURE || h.compression != 0 || h.packed != h.unpacked
       || v[3] != 0 || v[6] != h.crc || v[7] != h.packed || v[8] != h.unpacked || start + h.packed > |b| then None
    else
      var name, content := b[30..30 + v[9]], b[start..start + h.packed];
      if name != h.name || checksum(content) != h.crc then None
      else Some(Member(name, content, h.attributes / 0x1_0000))
  }

  function ReadLocal(a: seq<Byte>, h: Header): Option<Member> {
    LocalSize();
    if h.offset + 30 > |a| then None
    else OpenLocal(a[h.offset..], FixedPart(LocalWidths(), a[h.offset..]), h, Crc)
  }

  /** The members of an archive whose end record has the values `v`; multi-disk archives, comments
      and gaps before the end record are not read. */
  function ReadDirectory(header: seq<Byte> -> Option<(Header, nat)>, file: (seq<Byte>, Header) -> Option<Member>,
                         a: seq<Byte>, v: seq<nat>): Option<seq<Member>>
    requires |v| == 8 && |a| >= 22
  {
    if v[0] != END_SIGNATURE || v[1] != 0 || v[2] != 0 || v[3] != v[4] || v[7] != 0 || v[6] + v[5] != |a| - 22 then None
    else ReadMembers(header, file, a, a[v[6]..v[6] + v[5]], v[4])
  }

  function ReadZip(a: seq<Byte>): Option<seq<Member>> {
    EndSize();
    if |a| < 22 then None else ReadDirectory(ReadCentral, ReadLocal, a, FixedPart(EndWidths(), a[|a| - 22..]))
  }

  // ------------------------------------------------------------------ The archive of a list of members

  function LocalFields(m: Member): seq<Field> {
    [Field(4, LOCAL_SIGNATURE), Field(2, 20), Field(2, 0x0800), Field(2, 0), Field(2, 0), Field(2, 0x21),
     Field(4, Crc(m.content)), Field(4, |m.content|), Field(4, |m.content|), Field(2, |m.name|), Field(2, 0)]
  }

  function CentralFields(m: Member, offset: nat): seq<Field> {
    [Field(4, CENTRAL_SIGNATURE), Field(2, 0x031e), Field(2, 20), Field(2, 0x0800), Field(2, 0), Field(2, 0),
     Field(2, 0x21), Field(4, Crc(m.content)), Field(4, |m.content|), Field(4, |m.content|), Field(2, |m.name|),
     Field(2, 0), Field(2, 0), Field(2, 0), Field(2, 0), Field(4, m.mode * 0x1_0000), Field(4, offset)]
  }

  function EndFields(count: nat, size: nat, offset: nat): seq<Field> {
    [Field(4, END_SIGNATURE), Field(2, 0), Field(2, 0), Field(2, count), Field(2, count), Field(4, size),
     Field(4, offset), Field(2, 0)]
  }

  function LocalPart(m: Member): seq<Byte> {
    Record(LocalFields(m)) + m.name + m.content
  }

  function CentralPart(m: Member, offset: nat): seq<Byte> {
    Record(CentralFields(m, offset)) + m.name
  }

  function Archive(members: seq<Member>): seq<Byte> {
    var locals, directory := Locals(LocalPart, members), Directory(LocalPart, CentralPart, members);
    locals + directory + Record(EndFields(|members|, |directory|, |locals|))
  }

  predicate MemberFits(m: Member) {
    |m.name| < 0x1_0000 && |m.content| < 0x1_0000_0000 && m.mode < 0x1_0000
  }

  /** Every length, count and offset fits its field. */
  predicate Fits(members: seq<Member>) {
    && (forall m | m in members :: MemberFits(m))
    && |members| < 0x1_0000 && |Locals(LocalPart, members)| < 0x1_0000_0000
    && |Directory(LocalPart, CentralPart, members)| < 0x1_0000_0000
  }
}

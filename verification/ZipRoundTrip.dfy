/** Reading the archive of a member list back recovers exactly that list. */
module ZipRoundTrip {
  import opened Common
  import opened Crc32
  import opened ZipLayout
  import opened ZipFormat

  lemma FieldWidths()
    ensures Radix(2) == 0x1_0000 && Radix(4) == 0x1_0000_0000
  {
    assert Radix(1) == 256;
    assert Radix(3) == 0x100_0000;
  }

  lemma EndBack(count: nat, size: nat, offset: nat)
    requires count < 0x1_0000 && size < 0x1_0000_0000 && offset < 0x1_0000_0000
    ensures var r := Record(EndFields(count, size, offset));
      |r| == 22 && Size(EndWidths()) == 22
      && FixedPart(EndWidths(), r) == [END_SIGNATURE, 0, 0, count, count, size, offset, 0]
  {
    var fields := EndFields(count, size, offset);
    FieldWidths();
    EndSize();
    assert Widths(fields) == EndWidths();
    RecordRoundTrip(fields, []);
    assert Record(fields) + [] == Record(fields);
    assert FieldValues(fields) == [END_SIGNATURE, 0, 0, count, count, size, offset, 0];
  }

  lemma CentralFixed(m: Member, offset: nat, rest: seq<Byte>)
    requires MemberFits(m) && offset < 0x1_0000_0000
    ensures |Record(CentralFields(m, offset))| == 46 == Size(CentralWidths())
    ensures FixedPart(CentralWidths(), Record(CentralFields(m, offset)) + rest) == FieldValues(CentralFields(m, offset))
  {
    var fields := CentralFields(m, offset);
    FieldWidths();
    CentralSize();
    assert Widths(fields) == CentralWidths();
    RecordRoundTrip(fields, rest);
  }

  function HeaderOf(m: Member, offset: nat): Header {
    Header(m.name, 0, Crc(m.content), |m.content|, |m.content|, m.mode * 0x1_0000, offset)
  }

  lemma CentralBack(m: Member, offset: nat, rest: seq<Byte>, b: seq<Byte>)
    requires MemberFits(m) && offset < 0x1_0000_0000 && b == CentralPart(m, offset) + rest
    ensures |CentralPart(m, offset)| == 46 + |m.name|
    ensures ReadCentral(b) == Some((HeaderOf(m, offset), 46 + |m.name|))
  {
    var fixed := Record(CentralFields(m, offset));
    CentralFixed(m, offset, m.name + rest);
    assert b == fixed + (m.name + rest);
    assert (fixed + (m.name + rest))[46..46 + |m.name|] == m.name;
  }

  lemma LocalFixed(m: Member, rest: seq<Byte>)
    requires MemberFits(m)
    ensures |Record(LocalFields(m))| == 30 == Size(LocalWidths())
    ensures FixedPart(LocalWidths(), Record(LocalFields(m)) + rest) == FieldValues(LocalFields(m))
  {
    var fields := LocalFields(m);
    FieldWidths();
    LocalSize();
    assert Widths(fields) == LocalWidths();
    RecordRoundTrip(fields, rest);
  }

  lemma LocalSlices(fixed: seq<Byte>, name: seq<Byte>, content: seq<Byte>, after: seq<Byte>)
    requires |fixed| == 30
    ensures var b := fixed + (name + content + after);
      && fixed + name + content + after == b
      && b[30..30 + |name|] == name && b[30 + |name|..30 + |name| + |content|] == content
  {
  }

  lemma LocalOpens(m: Member, offset: nat, b: seq<Byte>, v: seq<nat>)
    requires |b| >= 30 + |m.name| + |m.content| && |v| == 11
    requires v[0] == LOCAL_SIGNATURE && v[3] == 0 && v[6] == Crc(m.content)
    requires v[7] == v[8] == |m.content| && v[9] == |m.name| && v[10] == 0
    requires b[30..30 + |m.name|] == m.name && b[30 + |m.name|..30 + |m.name| + |m.content|] == m.content
    ensures OpenLocal(b, v, HeaderOf(m, offset), Crc) == Some(m)
  {
    ModeOfHeader(m, offset);
    OpensAs(b, v, HeaderOf(m, offset), m.name, m.content, Crc);
  }

  lemma ModeOfHeader(m: Member, offset: nat)
    ensures HeaderOf(m, offset).attributes / 0x1_0000 == m.mode
  {
  }

  lemma OpensAs(b: seq<Byte>, v: seq<nat>, h: Header, name: seq<Byte>, content: seq<Byte>,
                checksum: seq<Byte> -> nat)
    requires |b| >= 30 + |name| + |content| && |v| == 11
    requires v[0] == LOCAL_SIGNATURE && v[3] == 0 && v[6] == h.crc && v[7] == v[8] == |content|
    requires v[9] == |name| && v[10] == 0
    requires b[30..30 + |name|] == name && b[30 + |name|..30 + |name| + |content|] == content
    requires h.compression == 0 && h.packed == h.unpacked == |content| && h.name == name && h.crc == checksum(content)
    ensures OpenLocal(b, v, h, checksum) == Some(Member(name, content, h.attributes / 0x1_0000))
  {
    var start := 30 + v[9] + v[10];
    assert b[30..30 + v[9]] == name && b[start..start + h.packed] == content;
  }

  lemma LocalBack(before: seq<Byte>, m: Member, after: seq<Byte>, a: seq<Byte>)
    requires MemberFits(m) && a == before + (LocalPart(m) + after)
    ensures ReadLocal(a, HeaderOf(m, |before|)) == Some(m)
  {
    var fixed := Record(LocalFields(m));
    LocalFixed(m, m.name + m.content + after);
    LocalSlices(fixed, m.name, m.content, after);
    var b := a[|before|..];
    assert b == LocalPart(m) + after == fixed + (m.name + m.content + after);
    LocalOpens(m, |before|, b, FieldValues(LocalFields(m)));
  }

  // ------------------------------------------------------------------ The whole archive

  lemma ReadersUndo(members: seq<Member>)
    requires forall m | m in members :: MemberFits(m)
    ensures Undoes(LocalPart, CentralPart, HeaderOf, ReadCentral, ReadLocal, members, 0x1_0000_0000)
  {
    forall m, offset: nat, rest | m in members && offset < 0x1_0000_0000
      ensures ReadCentral(CentralPart(m, offset) + rest) == Some((HeaderOf(m, offset), |CentralPart(m, offset)|))
    {
      CentralBack(m, offset, rest, CentralPart(m, offset) + rest);
    }
    forall m, before, rest | m in members
      ensures ReadLocal(before + (LocalPart(m) + rest), HeaderOf(m, |before|)) == Some(m)
    {
      LocalBack(before, m, rest, before + (LocalPart(m) + rest));
    }
  }

  lemma ArchiveSlices(locals: seq<Byte>, directory: seq<Byte>, end: seq<Byte>)
    requires |end| == 22
    ensures var a := locals + directory + end;
      && a == locals + (directory + end) && a[|a| - 22..] == end && a[|locals|..|locals| + |directory|] == directory
  {
  }

  lemma ReadDirectoryStep(header: seq<Byte> -> Option<(Header, nat)>, file: (seq<Byte>, Header) -> Option<Member>,
                          a: seq<Byte>, v: seq<nat>, count: nat, size: nat, offset: nat)
    requires |a| >= 22 && offset + size == |a| - 22 && v == [END_SIGNATURE, 0, 0, count, count, size, offset, 0]
    ensures ReadDirectory(header, file, a, v) == ReadMembers(header, file, a, a[offset..offset + size], count)
  {
  }

  lemma ReadZipSlices(locals: seq<Byte>, directory: seq<Byte>, end: seq<Byte>, count: nat)
    requires |end| == 22 == Size(EndWidths())
    requires FixedPart(EndWidths(), end) == [END_SIGNATURE, 0, 0, count, count, |directory|, |locals|, 0]
    ensures ReadZip(locals + directory + end)
         == ReadMembers(ReadCentral, ReadLocal, locals + (directory + end), directory, count)
  {
    ArchiveSlices(locals, directory, end);
    ReadDirectoryStep(ReadCentral, ReadLocal, locals + directory + end, FixedPart(EndWidths(), end), count,
                      |directory|, |locals|);
  }

  /** Reading the end record, the directory and the local files it points to recovers every member,
      in order, with its name, bytes and mode; the checksums and sizes of both headers agree. */
  lemma ArchiveRoundTrip(members: seq<Member>)
    requires Fits(members)
    ensures ReadZip(Archive(members)) == Some(members)
  {
    var locals, directory := Locals(LocalPart, members), Directory(LocalPart, CentralPart, members);
    var end := Record(EndFields(|members|, |directory|, |locals|));
    EndBack(|members|, |directory|, |locals|);
    ReadZipSlices(locals, directory, end, |members|);
    ReadersUndo(members);
    ReadBack(LocalPart, CentralPart, HeaderOf, ReadCentral, ReadLocal, members, directory + end, 0x1_0000_0000);
  }

  lemma ArchiveInjective(left: seq<Member>, right: seq<Member>)
    requires Fits(left) && Fits(right) && Archive(left) == Archive(right)
    ensures left == right
  {
    ArchiveRoundTrip(left);
    ArchiveRoundTrip(right);
  }
}

/** The stable ZIP writer: normalized paths, a stable sort, fixed-width little-endian buffers. */
module Zip {
  import opened Common
  import opened Crc32
  import opened ZipLayout
  import opened ZipFormat
  import opened ZipRoundTrip

  datatype ZipFile = ZipFile(path: string, content: seq<Byte>, mode: Option<nat>)

  datatype ZipError = InvalidPath | OutOfRange

  /** The locale's order of paths, and the UTF-8 encoding of text. */
  datatype Text = Text(before: (string, string) -> bool, encode: string -> seq<Byte>)

  ghost predicate TotalPreorder(before: (string, string) -> bool) {
    && (forall a, b :: before(a, b) || before(b, a))
    && (forall a, b, c :: before(a, b) && before(b, c) ==> before(a, c))
  }

  // ------------------------------------------------------------------ Paths

  function Slashes(path: string): string {
    seq(|path|, k requires 0 <= k < |path| => if path[k] == '\\' then '/' else path[k])
  }

  function StripLeading(path: string): string {
    if path != "" && path[0] == '/' then StripLeading(path[1..]) else path
  }

  function Split(path: string): (parts: seq<string>)
    ensures parts != []
  {
    if path == "" then [""]
    else
      var rest := Split(path[1..]);
      if path[0] == '/' then [""] + rest else [[path[0]] + rest[0]] + rest[1..]
  }

  predicate PlainSegments(path: string) {
    forall s | s in Split(path) :: s != "" && s != "." && s != ".."
  }

  function Normalize(path: string): Option<string> {
    var normalized := StripLeading(Slashes(path));
    if normalized == "" || !PlainSegments(normalized) then None else Some(normalized)
  }

  lemma {:induction false} Stripped(path: string)
    ensures StripLeading(path) == "" || StripLeading(path)[0] != '/'
    ensures forall c | c in StripLeading(path) :: c in path
    ensures path == "" || path[0] != '/' ==> StripLeading(path) == path
  {
    if path != "" && path[0] == '/' { Stripped(path[1..]); }
  }

  /** A normalized path is relative and free of backslashes and of empty, `.` and `..` segments, and
      normalizing it again changes nothing. */
  lemma NormalizedIsPlain(path: string)
    requires Normalize(path).Some?
    ensures var n := Normalize(path).value;
      n != "" && n[0] != '/' && '\\' !in n && PlainSegments(n) && Normalize(n) == Some(n)
  {
    var n := Normalize(path).value;
    Stripped(Slashes(path));
    assert forall c | c in n :: c in Slashes(path) && c != '\\';
    assert forall k | 0 <= k < |n| :: n[k] in n;
    assert Slashes(n) == n;
    Stripped(n);
  }

  // ------------------------------------------------------------------ Sorting

  function Insert(text: Text, sorted: seq<ZipFile>, f: ZipFile): seq<ZipFile> {
    if sorted == [] then [f]
    else
      var n := |sorted| - 1;
      if text.before(sorted[n].path, f.path) then sorted + [f] else Insert(text, sorted[..n], f) + [sorted[n]]
  }

  /** The stable sort by path: files the order does not separate keep their input order. */
  function Sort(text: Text, files: seq<ZipFile>): seq<ZipFile> {
    if files == [] then [] else Insert(text, Sort(text, files[..|files| - 1]), files[|files| - 1])
  }

  predicate Sorted(text: Text, files: seq<ZipFile>) {
    forall i, j | 0 <= i < j < |files| :: text.before(files[i].path, files[j].path)
  }

  lemma LastSplit(files: seq<ZipFile>)
    requires files != []
    ensures multiset(files) == multiset(files[..|files| - 1]) + multiset{files[|files| - 1]}
  {
    assert files == files[..|files| - 1] + [files[|files| - 1]];
  }

  lemma {:induction false} InsertPermutes(text: Text, sorted: seq<ZipFile>, f: ZipFile)
    ensures multiset(Insert(text, sorted, f)) == multiset(sorted) + multiset{f}
  {
    if sorted != [] {
      LastSplit(sorted);
      InsertPermutes(text, sorted[..|sorted| - 1], f);
    }
  }

  lemma {:induction false} InsertMembers(text: Text, sorted: seq<ZipFile>, f: ZipFile)
    ensures forall g | g in Insert(text, sorted, f) :: g in sorted || g == f
  {
    if sorted != [] { InsertMembers(text, sorted[..|sorted| - 1], f); }
  }

  lemma {:induction false} InsertSorts(text: Text, sorted: seq<ZipFile>, f: ZipFile)
    requires TotalPreorder(text.before) && Sorted(text, sorted)
    ensures Sorted(text, Insert(text, sorted, f))
  {
    if sorted != [] {
      var n := |sorted| - 1;
      if !text.before(sorted[n].path, f.path) {
        InsertSorts(text, sorted[..n], f);
        InsertMembers(text, sorted[..n], f);
        var more := Insert(text, sorted[..n], f);
        assert forall i | 0 <= i < |more| :: more[i] in sorted[..n] || more[i] == f;
      } else {
        assert forall i | 0 <= i < n :: text.before(sorted[i].path, sorted[n].path);
      }
    }
  }

  lemma {:induction false} SortSorts(text: Text, files: seq<ZipFile>)
    requires TotalPreorder(text.before)
    ensures Sorted(text, Sort(text, files))
  {
    if files != [] {
      SortSorts(text, files[..|files| - 1]);
      InsertSorts(text, Sort(text, files[..|files| - 1]), files[|files| - 1]);
    }
  }

  lemma {:induction false} SortPermutes(text: Text, files: seq<ZipFile>)
    ensures multiset(Sort(text, files)) == multiset(files)
  {
    if files != [] {
      LastSplit(files);
      SortPermutes(text, files[..|files| - 1]);
      InsertPermutes(text, Sort(text, files[..|files| - 1]), files[|files| - 1]);
    }
  }

  lemma {:induction false} SortKeepsSorted(text: Text, files: seq<ZipFile>)
    requires Sorted(text, files)
    ensures Sort(text, files) == files
  {
    if files != [] {
      var n := |files| - 1;
      SortKeepsSorted(text, files[..n]);
      assert files == files[..n] + [files[n]];
      if n > 0 { assert text.before(files[n - 1].path, files[n].path); }
    }
  }

  // ------------------------------------------------------------------ Writing

  function ModeBits(mode: Option<nat>): nat {
    (if mode.Some? then mode.value else 0x81A4) % 0x1_0000
  }

  predicate PathsValid(files: seq<ZipFile>) {
    forall f | f in files :: Normalize(f.path).Some?
  }

  function MemberOf(text: Text, f: ZipFile): Member
    requires Normalize(f.path).Some?
  {
    Member(text.encode(Normalize(f.path).value), f.content, ModeBits(f.mode))
  }

  function MembersOf(text: Text, files: seq<ZipFile>): (members: seq<Member>)
    requires PathsValid(files)
    ensures |members| == |files| && forall k | 0 <= k < |files| :: members[k] == MemberOf(text, files[k])
  {
    if files == [] then []
    else MembersOf(text, files[..|files| - 1]) + [MemberOf(text, files[|files| - 1])]
  }

  lemma SameFiles(text: Text, files: seq<ZipFile>)
    ensures PathsValid(Sort(text, files)) <==> PathsValid(files)
  {
    SortPermutes(text, files);
    forall f ensures f in files <==> f in Sort(text, files) {
      assert f in multiset(files) <==> f in multiset(Sort(text, files));
    }
  }

  /** The members in archive order; none if a path is not valid. */
  function ZipMembers(text: Text, files: seq<ZipFile>): seq<Member> {
    var sorted := Sort(text, files);
    if PathsValid(sorted) then MembersOf(text, sorted) else []
  }

  /** Writes one little-endian number; the buffer write throws when it does not fit. */
  method WriteUInt(buffer: array<Byte>, width: nat, value: nat, at: nat) returns (ok: bool)
    requires at + width <= buffer.Length
    modifies buffer
    ensures ok <==> value < Radix(width)
    ensures ok ==> buffer[..at + width] == old(buffer[..at]) + Put(width, value)
  {
    ok := value < Radix(width);
    if !ok { return; }
    var rest := value;
    for i := 0 to width
      invariant buffer[..at] == old(buffer[..at])
      invariant buffer[at..at + i] + Put(width - i, rest) == Put(width, value)
    {
      buffer[at + i] := rest % 256;
      rest := rest / 256;
      assert buffer[at..at + i + 1] == buffer[at..at + i] + [buffer[at + i]];
    }
    assert buffer[..at + width] == buffer[..at] + buffer[at..at + width];
  }

  /** Fills a new buffer of `size` bytes field by field. */
  method WriteRecord(fields: seq<Field>, size: nat) returns (ok: bool, bytes: seq<Byte>)
    requires size == Size(Widths(fields))
    ensures ok <==> FieldsFit(fields)
    ensures ok ==> bytes == Record(fields)
  {
    var buffer := new Byte[size](_ => 0);
    var at := 0;
    bytes := [];
    for k := 0 to |fields|
      invariant at == Size(Widths(fields[..k])) <= size && buffer.Length == size
      invariant FieldsFit(fields[..k]) && buffer[..at] == Record(fields[..k])
    {
      FieldStep(fields, k);
      ok := WriteUInt(buffer, fields[k].width, fields[k].value, at);
      if !ok { return; }
      at := at + fields[k].width;
    }
    assert fields[..|fields|] == fields;
    ok, bytes := true, buffer[..];
  }

  lemma {:induction false} SizeGrows(fields: seq<Field>, k: nat)
    requires k <= |fields|
    ensures Size(Widths(fields[..k])) <= Size(Widths(fields))
  {
    if k < |fields| {
      var n := |fields| - 1;
      SizeGrows(fields[..n], k);
      assert fields[..n][..k] == fields[..k] && Widths(fields)[..n] == Widths(fields[..n]);
    } else {
      assert fields[..k] == fields;
    }
  }

  lemma FieldStep(fields: seq<Field>, k: nat)
    requires k < |fields| && FieldsFit(fields[..k])
    ensures Size(Widths(fields[..k + 1])) == Size(Widths(fields[..k])) + fields[k].width <= Size(Widths(fields))
    ensures Record(fields[..k + 1]) == Record(fields[..k]) + Put(fields[k].width, fields[k].value)
    ensures FieldsFit(fields[..k + 1]) <==> fields[k].value < Radix(fields[k].width)
  {
    var longer := fields[..k + 1];
    assert longer[..k] == fields[..k] && Widths(longer)[..k] == Widths(fields[..k]);
    assert FieldsFit(longer) ==> longer[k].value < Radix(longer[k].width);
    SizeGrows(fields, k + 1);
  }

  lemma LocalFits(m: Member)
    ensures FieldsFit(LocalFields(m)) <==> |m.name| < 0x1_0000 && |m.content| < 0x1_0000_0000
    ensures Size(Widths(LocalFields(m))) == 30
  {
    FieldWidths();
    var fields := LocalFields(m);
    assert Widths(fields) == LocalWidths();
    LocalSize();
    assert FieldsFit(fields) ==> fields[9].value < Radix(2) && fields[7].value < Radix(4);
  }

  lemma CentralFits(m: Member, offset: nat)
    requires |m.name| < 0x1_0000 && |m.content| < 0x1_0000_0000 && m.mode < 0x1_0000
    ensures FieldsFit(CentralFields(m, offset)) <==> offset < 0x1_0000_0000
  {
    FieldWidths();
    var fields := CentralFields(m, offset);
    assert fields[16] == Field(4, offset);
    assert forall k | 0 <= k < 16 :: fields[k].value < Radix(fields[k].width);
  }

  lemma CentralFixedSize(m: Member, offset: nat)
    requires m.mode < 0x1_0000
    ensures Size(Widths(CentralFields(m, offset))) == 46
  {
    CentralFieldWidths(m, offset);
    CentralSize();
  }

  lemma CentralFieldWidths(m: Member, offset: nat)
    requires m.mode < 0x1_0000
    ensures Widths(CentralFields(m, offset)) == CentralWidths()
  {
    var fields := CentralFields(m, offset);
    FieldWidths();
    assert Widths(fields) == CentralWidths();
  }

  lemma EndFits(count: nat, size: nat, offset: nat)
    ensures FieldsFit(EndFields(count, size, offset)) <==>
        count < 0x1_0000 && size < 0x1_0000_0000 && offset < 0x1_0000_0000
    ensures Size(Widths(EndFields(count, size, offset))) == 22
  {
    FieldWidths();
    var fields := EndFields(count, size, offset);
    assert Widths(fields) == EndWidths();
    EndSize();
    assert FieldsFit(fields) ==> fields[3].value < Radix(2) && fields[5].value < Radix(4) && fields[6].value < Radix(4);
  }

  lemma TooFar(members: seq<Member>, k: nat)
    requires k <= |members| && |Locals(LocalPart, members[..k])| >= 0x1_0000_0000
    ensures !Fits(members)
  {
    Prefixes(LocalPart, CentralPart, members, k);
  }

  lemma MemberTooLarge(members: seq<Member>, m: Member)
    requires m in members && !MemberFits(m)
    ensures !Fits(members)
  {
  }

  /** One file: its local header, name and content, and its directory header and name. */
  method WriteFile(m: Member, offset: nat) returns (ok: bool, local: seq<Byte>, central: seq<Byte>)
    requires m.mode < 0x1_0000
    ensures ok <==> MemberFits(m) && offset < 0x1_0000_0000
    ensures ok ==> local == LocalPart(m) && central == CentralPart(m, offset)
  {
    local, central := [], [];
    var crc := Compute(m.content);
    assert crc as nat == Crc(m.content);
    LocalFits(m);
    ok, local := WriteRecord(LocalFields(m), 30);
    if !ok { return; }
    local := local + m.name + m.content;
    CentralFits(m, offset);
    CentralFixedSize(m, offset);
    ok, central := WriteRecord(CentralFields(m, offset), 46);
    central := central + m.name;
  }

  /** The first `k` files have been written. */
  ghost predicate Written(text: Text, sorted: seq<ZipFile>, k: nat, local: seq<Byte>, central: seq<Byte>)
    requires k <= |sorted|
  {
    PathsValid(sorted[..k]) && var members := MembersOf(text, sorted[..k]);
      && (forall m | m in members :: MemberFits(m))
      && local == Locals(LocalPart, members) && central == Directory(LocalPart, CentralPart, members)
  }

  lemma AppendPart(members: seq<Member>, m: Member)
    ensures Locals(LocalPart, members + [m]) == Locals(LocalPart, members) + LocalPart(m)
    ensures Directory(LocalPart, CentralPart, members + [m])
         == Directory(LocalPart, CentralPart, members) + CentralPart(m, |Locals(LocalPart, members)|)
  {
    assert (members + [m])[..|members|] == members;
  }

  lemma WrittenStep(text: Text, sorted: seq<ZipFile>, k: nat, local: seq<Byte>, central: seq<Byte>, m: Member)
    requires k < |sorted| && Written(text, sorted, k, local, central)
    requires Normalize(sorted[k].path).Some? && m == MemberOf(text, sorted[k])
    ensures MemberFits(m) ==> Written(text, sorted, k + 1, local + LocalPart(m), central + CentralPart(m, |local|))
    ensures !(MemberFits(m) && |local| < 0x1_0000_0000) ==> !(PathsValid(sorted) && Fits(MembersOf(text, sorted)))
  {
    MembersStep(text, sorted, k);
    var members := MembersOf(text, sorted[..k]);
    AppendPart(members, m);
    if PathsValid(sorted) && !(MemberFits(m) && |local| < 0x1_0000_0000) {
      FileTooLarge(text, sorted, k, members);
    }
  }

  /** The local parts and the directory of files already in archive order. */
  method WriteFiles(text: Text, sorted: seq<ZipFile>)
    returns (error: Option<ZipError>, local: seq<Byte>, central: seq<Byte>)
    ensures error.None? ==> Written(text, sorted, |sorted|, local, central)
    ensures error.Some? ==> !(PathsValid(sorted) && Fits(MembersOf(text, sorted)))
  {
    local, central := [], [];
    var offset := 0;
    for k := 0 to |sorted|
      invariant Written(text, sorted, k, local, central) && offset == |local|
    {
      var path := Normalize(sorted[k].path);
      if path.None? {
        assert sorted[k] in sorted;
        return Some(InvalidPath), local, central;
      }
      var m := Member(text.encode(path.value), sorted[k].content, ModeBits(sorted[k].mode));
      WrittenStep(text, sorted, k, local, central, m);
      var ok, localPart, centralPart := WriteFile(m, offset);
      if !ok { return Some(OutOfRange), local, central; }
      local, central, offset := local + localPart, central + centralPart, offset + |localPart|;
    }
    error := None;
  }

  /** The archive of the files in path order, or the error of a bad path or of a number too large
      for its field. */
  method CreateZip(text: Text, files: seq<ZipFile>) returns (r: Result<seq<Byte>, ZipError>)
    requires TotalPreorder(text.before)
    ensures r.Ok? <==> PathsValid(files) && Fits(ZipMembers(text, files))
    ensures r.Ok? ==> r.value == Archive(ZipMembers(text, files))
  {
    var sorted := Sort(text, files);
    SameFiles(text, files);
    var error, local, central := WriteFiles(text, sorted);
    assert sorted[..|sorted|] == sorted;
    if error.Some? { return Err(error.value); }
    EndFits(|sorted|, |central|, |local|);
    var ok, end := WriteRecord(EndFields(|sorted|, |central|, |local|), 22);
    if !ok { return Err(OutOfRange); }
    return Ok(local + central + end);
  }

  lemma {:induction false} MembersPrefix(text: Text, files: seq<ZipFile>, k: nat)
    requires PathsValid(files) && k <= |files|
    ensures MembersOf(text, files[..k]) == MembersOf(text, files)[..k]
  {
  }

  lemma MembersStep(text: Text, files: seq<ZipFile>, k: nat)
    requires k < |files| && PathsValid(files[..k]) && Normalize(files[k].path).Some?
    ensures PathsValid(files[..k + 1])
    ensures MembersOf(text, files[..k + 1]) == MembersOf(text, files[..k]) + [MemberOf(text, files[k])]
  {
    assert files[..k + 1] == files[..k] + [files[k]];
  }

  lemma FileTooLarge(text: Text, files: seq<ZipFile>, k: nat, members: seq<Member>)
    requires PathsValid(files) && k < |files| && members == MembersOf(text, files[..k])
    requires !(MemberFits(MemberOf(text, files[k])) && |Locals(LocalPart, members)| < 0x1_0000_0000)
    ensures !Fits(MembersOf(text, files))
  {
    var all := MembersOf(text, files);
    MembersPrefix(text, files, k);
    if MemberFits(MemberOf(text, files[k])) {
      TooFar(all, k);
    } else {
      assert all[k] == MemberOf(text, files[k]);
      MemberTooLarge(all, all[k]);
    }
  }

  // ------------------------------------------------------------------ Stability under input order

  predicate Tied(text: Text, f: ZipFile, g: ZipFile) {
    text.before(f.path, g.path) && text.before(g.path, f.path)
  }

  function Count(p: ZipFile -> bool, files: seq<ZipFile>): nat {
    if files == [] then 0
    else Count(p, files[..|files| - 1]) + if p(files[|files| - 1]) then 1 else 0
  }

  lemma {:induction false} CountAppend(p: ZipFile -> bool, a: seq<ZipFile>, b: seq<ZipFile>)
    ensures Count(p, a + b) == Count(p, a) + Count(p, b)
  {
    if b == [] {
      assert a + b == a;
    } else {
      var n := |b| - 1;
      assert (a + b)[..|a + b| - 1] == a + b[..n];
      CountAppend(p, a, b[..n]);
    }
  }

  lemma {:induction false} CountPermutes(p: ZipFile -> bool, left: seq<ZipFile>, right: seq<ZipFile>)
    requires multiset(left) == multiset(right)
    ensures Count(p, left) == Count(p, right)
  {
    assert |multiset(left)| == |left| && |multiset(right)| == |right|;
    if left != [] {
      var f := left[|left| - 1];
      assert f in multiset(right);
      var j :| 0 <= j < |right| && right[j] == f;
      var a, b := right[..j], right[j + 1..];
      assert right == a + ([f] + b);
      LastSplit(left);
      assert multiset(left[..|left| - 1]) == multiset(left) - multiset{f};
      assert multiset(a + b) == multiset(right) - multiset{f};
      CountPermutes(p, left[..|left| - 1], a + b);
      CountAppend(p, a, b);
      CountAppend(p, a, [f] + b);
      CountAppend(p, [f], b);
      assert Count(p, [f]) == if p(f) then 1 else 0;
    }
  }

  lemma {:induction false} CountBounds(p: ZipFile -> bool, files: seq<ZipFile>, n: nat)
    requires n <= |files|
    ensures (forall j | 0 <= j < n :: p(files[j])) ==> Count(p, files) >= n
    ensures (forall j | n <= j < |files| :: !p(files[j])) ==> Count(p, files) <= n
  {
    if n < |files| {
      CountBounds(p, files[..|files| - 1], n);
    } else if n > 0 {
      CountBounds(p, files[..n - 1], n - 1);
    }
  }

  /** Two sorted arrangements of the same files tie position by position. */
  lemma SortedTie(text: Text, left: seq<ZipFile>, right: seq<ZipFile>, i: nat)
    requires TotalPreorder(text.before) && Sorted(text, left) && Sorted(text, right)
        && multiset(left) == multiset(right)
    requires i < |left| && i < |right|
    ensures text.before(right[i].path, left[i].path)
  {
    var p := (f: ZipFile) => text.before(f.path, left[i].path);
    CountPermutes(p, left, right);
    CountBounds(p, left, i + 1);
    assert forall j | 0 <= j < i + 1 :: p(left[j]);
    if !text.before(right[i].path, left[i].path) {
      forall j | i <= j < |right| ensures !p(right[j]) {
        assert j > i ==> text.before(right[i].path, right[j].path);
      }
      CountBounds(p, right, i);
    }
  }

  predicate TiesAgree(text: Text, files: seq<ZipFile>)
    requires PathsValid(files)
  {
    forall f, g | f in files && g in files && Tied(text, f, g) :: MemberOf(text, f) == MemberOf(text, g)
  }

  lemma SameElements(left: seq<ZipFile>, right: seq<ZipFile>, f: ZipFile)
    requires multiset(left) == multiset(right)
    ensures f in left <==> f in right
  {
    assert f in multiset(left) <==> f in multiset(right);
  }

  lemma SwapSorted(text: Text, s: seq<ZipFile>, i: nat, j: nat)
    requires TotalPreorder(text.before) && Sorted(text, s) && i < |s| && j < |s| && Tied(text, s[i], s[j])
    ensures Sorted(text, s[i := s[j]][j := s[i]]) && multiset(s[i := s[j]][j := s[i]]) == multiset(s)
  {
    var t := s[i := s[j]][j := s[i]];
    forall a, b | 0 <= a < b < |t| ensures text.before(t[a].path, t[b].path) {
      assert text.before(s[a].path, s[b].path);
      assert text.before(t[a].path, s[a].path) && text.before(s[b].path, t[b].path) by {
        assert text.before(s[a].path, s[a].path) && text.before(s[b].path, s[b].path);
      }
    }
  }

  lemma SwappedTie(text: Text, files: seq<ZipFile>, f: ZipFile, g: ZipFile) returns (other: seq<ZipFile>)
    requires TotalPreorder(text.before) && f in files && g in files && Tied(text, f, g)
    ensures multiset(other) == multiset(files) && Sort(text, other) == other && |other| == |Sort(text, files)|
    ensures exists i :: 0 <= i < |other| && other[i] == g && Sort(text, files)[i] == f
  {
    var s := Sort(text, files);
    SortSorts(text, files);
    SortPermutes(text, files);
    SameElements(files, s, f);
    SameElements(files, s, g);
    var i :| 0 <= i < |s| && s[i] == f;
    var j :| 0 <= j < |s| && s[j] == g;
    other := s[i := g][j := f];
    SwapSorted(text, s, i, j);
    SortKeepsSorted(text, other);
    assert other[i] == g;
  }

  lemma TieShows(text: Text, files: seq<ZipFile>, other: seq<ZipFile>, f: ZipFile, g: ZipFile)
    requires PathsValid(files) && multiset(other) == multiset(files) && Sort(text, other) == other
    requires f in files && g in files && MemberOf(text, f) != MemberOf(text, g)
    requires |other| == |Sort(text, files)|
        && exists i :: 0 <= i < |other| && other[i] == g && Sort(text, files)[i] == f
    ensures ZipMembers(text, other) != ZipMembers(text, files)
  {
    SameFiles(text, files);
    forall h | h in other ensures h in files { SameElements(other, files, h); }
    var i :| 0 <= i < |other| && other[i] == g && Sort(text, files)[i] == f;
    assert MembersOf(text, other)[i] == MemberOf(text, g);
    assert MembersOf(text, Sort(text, files))[i] == MemberOf(text, f);
  }

  /** What the writer returns for files with valid paths; None is the error of a number too large. */
  function Outcome(text: Text, files: seq<ZipFile>): Option<seq<Byte>>
    requires PathsValid(files)
  {
    if Fits(ZipMembers(text, files)) then Some(Archive(ZipMembers(text, files))) else None
  }

  lemma SamePathsValid(files: seq<ZipFile>, other: seq<ZipFile>)
    requires PathsValid(files) && multiset(other) == multiset(files)
    ensures PathsValid(other)
  {
    forall h | h in other ensures h in files { SameElements(other, files, h); }
  }

  /** The archive does not depend on the order of the input if and only if files that the locale's
      order cannot tell apart have the same name, content and mode. */
  lemma InputOrderIndependence(text: Text, files: seq<ZipFile>)
    requires TotalPreorder(text.before) && PathsValid(files) && Fits(ZipMembers(text, files))
    ensures (forall other | multiset(other) == multiset(files) ::
               PathsValid(other) && Outcome(text, other) == Outcome(text, files))
      <==> TiesAgree(text, files)
  {
    if TiesAgree(text, files) {
      forall other | multiset(other) == multiset(files)
        ensures PathsValid(other) && Outcome(text, other) == Outcome(text, files)
      {
        SamePathsValid(files, other);
        SameArrangement(text, files, other);
      }
    } else {
      var f, g :| f in files && g in files && Tied(text, f, g) && MemberOf(text, f) != MemberOf(text, g);
      var other := SwappedTie(text, files, f, g);
      TieShows(text, files, other, f, g);
      SamePathsValid(files, other);
      if Outcome(text, other) == Outcome(text, files) {
        ArchiveInjective(ZipMembers(text, other), ZipMembers(text, files));
      }
    }
  }

  lemma ArrangementsTie(text: Text, files: seq<ZipFile>, other: seq<ZipFile>)
    requires TotalPreorder(text.before) && multiset(other) == multiset(files)
    ensures var left, right := Sort(text, files), Sort(text, other);
      |left| == |right|
      && forall i | 0 <= i < |left| :: left[i] in files && right[i] in files && Tied(text, left[i], right[i])
  {
    var left, right := Sort(text, files), Sort(text, other);
    SortSorts(text, files);
    SortSorts(text, other);
    SortPermutes(text, files);
    SortPermutes(text, other);
    assert |multiset(left)| == |left| && |multiset(right)| == |right|;
    forall i | 0 <= i < |left| ensures left[i] in files && right[i] in files && Tied(text, left[i], right[i]) {
      SortedTie(text, left, right, i);
      SortedTie(text, right, left, i);
      SameElements(left, files, left[i]);
      SameElements(right, files, right[i]);
    }
  }

  lemma SameArrangement(text: Text, files: seq<ZipFile>, other: seq<ZipFile>)
    requires TotalPreorder(text.before) && PathsValid(files) && TiesAgree(text, files)
        && multiset(other) == multiset(files)
    ensures ZipMembers(text, other) == ZipMembers(text, files)
  {
    ArrangementsTie(text, files, other);
    var left, right := Sort(text, files), Sort(text, other);
    assert PathsValid(left) && PathsValid(right);
    assert forall i | 0 <= i < |left| :: MemberOf(text, left[i]) == MemberOf(text, right[i]);
  }

  /** Reading the written archive recovers the files in path order. */
  lemma WrittenArchiveReadsBack(text: Text, files: seq<ZipFile>)
    requires PathsValid(files) && Fits(ZipMembers(text, files))
    ensures var sorted := Sort(text, files);
      && multiset(sorted) == multiset(files) && PathsValid(sorted)
      && ReadZip(Archive(ZipMembers(text, files))) == Some(MembersOf(text, sorted))
  {
    SameFiles(text, files);
    SortPermutes(text, files);
    ArchiveRoundTrip(ZipMembers(text, files));
  }
}

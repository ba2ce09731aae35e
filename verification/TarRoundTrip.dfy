/** Archives of regular files in the ustar interchange format read back as those files. */
module TarRoundTrip {
  import opened Common
  import opened TarFormat
  import opened Tar

  /** The header bytes the reader does not look at: mode and owners, times and checksum, link name,
      magic, owner names and devices, padding. */
  datatype Unread = Unread(mode: Bytes, times: Bytes, link: Bytes, tail: Bytes)

  datatype Source = Source(prefix: Bytes, name: Bytes, content: Bytes, unread: Unread)

  function Zeros(n: nat): (z: Bytes)
    ensures |z| == n && forall k | 0 <= k < n :: z[k] == 0
  {
    seq(n, _ => 0)
  }

  function Pad(b: Bytes, n: nat): (p: Bytes)
    requires |b| <= n
    ensures |p| == n
  {
    b + Zeros(n - |b|)
  }

  function Octal(width: nat, n: nat): (d: Bytes)
    ensures |d| == width && forall c | c in d :: Digit(c, 8)
  {
    if width == 0 then [] else Octal(width - 1, n / 8) + [0x30 + n % 8]
  }

  predicate UnreadOk(u: Unread) {
    |u.mode| == 24 && |u.times| == 20 && |u.link| == 188 && |u.tail| == 12
  }

  /** A file whose name, split or not, lies under package/ and is a plain relative path there. */
  predicate SourceOk(f: Source) {
    && |f.name| <= 100 && 0 !in f.name && |f.prefix| <= 155 && 0 !in f.prefix && UnreadOk(f.unread)
    && PackagePrefix() <= FullName(f.prefix, f.name)
    && SafeRelative(FullName(f.prefix, f.name)[8..]) == Some(FullName(f.prefix, f.name)[8..])
    && |f.content| <= FILE_LIMIT
  }

  function HeaderBlock(f: Source): (h: Bytes)
    requires SourceOk(f)
    ensures |h| == 512
  {
    Pad(f.name, 100) + f.unread.mode + (Octal(11, |f.content|) + [0]) + f.unread.times + [0x30] + f.unread.link
      + Pad(f.prefix, 155) + f.unread.tail
  }

  // ------------------------------------------------------------------ Fields

  lemma {:induction false} CutNulPad(b: Bytes, zeros: Bytes)
    requires 0 !in b && (zeros == [] || zeros[0] == 0)
    ensures CutNul(b + zeros) == b
  {
    if b == [] {
      assert b + zeros == zeros;
    } else {
      assert (b + zeros)[1..] == b[1..] + zeros && b == [b[0]] + b[1..];
      CutNulPad(b[1..], zeros);
    }
  }

  lemma {:induction false} AllDigits(d: Bytes)
    requires forall c | c in d :: Digit(c, 8)
    ensures Digits(d, 8) == d
  {
    if d != [] {
      AllDigits(d[1..]);
      assert d == [d[0]] + d[1..];
    }
  }

  function Eights(width: nat): nat {
    if width == 0 then 1 else 8 * Eights(width - 1)
  }

  lemma {:induction false} OctalValue(width: nat, n: nat)
    requires n < Eights(width)
    ensures Value(Octal(width, n), 8) == n
  {
    if width > 0 {
      OctalValue(width - 1, n / 8);
      var d := Octal(width, n);
      assert d[..width - 1] == Octal(width - 1, n / 8);
    }
  }

  lemma DigitsStay(d: Bytes)
    requires d != [] && forall c | c in d :: Digit(c, 8)
    ensures CutNul(d + [0]) == d && TrimEnd(TrimStart(d)) == d && TrimStart(d) == d && Digits(d, 8) == d
    ensures d[0] != 0x2B && d[0] != 0x2D
  {
    assert Digit(d[0], 8) && Digit(d[|d| - 1], 8) && !Digit(0, 8);
    CutNulPad(d, [0]);
    AllDigits(d);
  }

  lemma DigitsParse(d: Bytes)
    requires d != [] && forall c | c in d :: Digit(c, 8)
    ensures ParseInt(d, 8) == Some(Value(d, 8))
  {
    DigitsStay(d);
  }

  lemma OctalParses(width: nat, n: nat)
    requires width > 0 && n < Eights(width) && n < 0x20_0000_0000_0000
    ensures ParseTarNumber(Octal(width, n) + [0]) == Some(n)
  {
    var d := Octal(width, n);
    DigitsStay(d);
    DigitsParse(d);
    OctalValue(width, n);
  }

  lemma {:induction false} EightsGrow(width: nat)
    requires width >= 8
    ensures Eights(width) >= 0x100_0000
  {
    if width == 8 {
      assert Eights(2) == 64 && Eights(4) == 4096 && Eights(6) == 0x4_0000;
    } else {
      EightsGrow(width - 1);
    }
  }

  /** The pieces of a block, found where the reader looks for them. */
  lemma Pieces(a: Bytes, b: Bytes, c: Bytes, d: Bytes, e: Bytes, f: Bytes, g: Bytes, h: Bytes)
    requires |a| == 100 && |b| == 24 && |c| == 12 && |d| == 20 && |e| == 1 && |f| == 188 && |g| == 155 && |h| == 12
    ensures var all := a + b + c + d + e + f + g + h;
      |all| == 512 && all[0..100] == a && all[124..136] == c && all[156] == e[0] && all[345..500] == g
  {
  }

  lemma DecodeBlock(f: Source)
    requires SourceOk(f)
    ensures Decode(HeaderBlock(f)) == Header(f.name, f.prefix, Some(|f.content|), 0x30)
    ensures !Blank(HeaderBlock(f))
  {
    var size := Octal(11, |f.content|) + [0];
    Pieces(Pad(f.name, 100), f.unread.mode, size, f.unread.times, [0x30], f.unread.link, Pad(f.prefix, 155),
           f.unread.tail);
    CutNulPad(f.name, Zeros(100 - |f.name|));
    CutNulPad(f.prefix, Zeros(155 - |f.prefix|));
    EightsGrow(11);
    OctalParses(11, |f.content|);
    CutNulPad(Octal(11, |f.content|), [0]);
    var h := HeaderBlock(f);
    assert ReadString(h, 124, 12) == CutNul(size);
    CutNulTwice(size);
  }

  lemma {:induction false} CutNulTwice(b: Bytes)
    ensures CutNul(CutNul(b)) == CutNul(b) && ParseTarNumber(CutNul(b)) == ParseTarNumber(b)
  {
    if b != [] && b[0] != 0 {
      CutNulTwice(b[1..]);
      assert CutNul(b)[1..] == CutNul(b[1..]);
    }
  }

  // ------------------------------------------------------------------ Items: a header block and its data

  /** A header block, what it decodes to, and the file it announces. */
  datatype Item = Item(block: Bytes, header: Header, path: Bytes, content: Bytes)

  function ItemBytes(item: Item): (b: Bytes)
    ensures |b| == |item.block| + Blocks(|item.content|)
  {
    BlocksCover(|item.content|);
    item.block + item.content + Zeros(Blocks(|item.content|) - |item.content|)
  }

  function ItemsBytes(items: seq<Item>): Bytes {
    if items == [] then [] else ItemBytes(items[0]) + ItemsBytes(items[1..])
  }

  function TotalBytes(items: seq<Item>): nat {
    if items == [] then 0 else |items[0].content| + TotalBytes(items[1..])
  }

  function Written(items: seq<Item>, start: nat): seq<Write> {
    if items == [] then []
    else [File(items[0].path, items[0].content, start + 512)] + Written(items[1..], start + |ItemBytes(items[0])|)
  }

  predicate Clear(s: State) {
    PathKey() !in s.pax && s.longName.None?
  }

  function Filed(s: State, item: Item, start: nat): State {
    State(s.offset, s.total + |item.content|, map[], None, s.writes + [File(item.path, item.content, start)])
  }

  /** The reader decodes the block and keeps the file. */
  ghost predicate Reads(reader: Reader, item: Item) {
    && |item.block| == 512 && !Blank(item.block) && item.header.size == Some(|item.content|)
    && reader.decode(item.block) == item.header
    && forall s, start: nat | Clear(s) && s.total + |item.content| <= PLUGIN_LIMIT ::
         reader.entry(s, item.header, item.content, start) == Ok(Filed(s, item, start))
  }

  function After(s: State, item: Item): State {
    Filed(s, item, s.offset + 512).(offset := s.offset + 512 + Blocks(|item.content|))
  }

  lemma ItemSlices(tar: Bytes, item: Item, offset: nat, rest: Bytes)
    requires |item.block| == 512 && offset <= |tar| && tar[offset..] == ItemBytes(item) + rest
    ensures offset + 512 + Blocks(|item.content|) <= |tar| && tar[offset + 512 + Blocks(|item.content|)..] == rest
    ensures offset + 512 + |item.content| <= |tar| && tar[offset..offset + 512] == item.block
    ensures tar[offset + 512..offset + 512 + |item.content|] == item.content
  {
    var t := tar[offset..];
    var n := 512 + Blocks(|item.content|);
    BlocksCover(|item.content|);
    assert |t| == n + |rest|;
    assert t[..512] == item.block && t[512..512 + |item.content|] == item.content && t[n..] == rest;
    assert tar[offset..offset + 512] == t[..512] && tar[offset + n..] == t[n..];
    assert tar[offset + 512..offset + 512 + |item.content|] == t[512..512 + |item.content|];
  }

  lemma ItemStep(reader: Reader, tar: Bytes, s: State, item: Item, rest: Bytes)
    requires Reads(reader, item) && Clear(s) && s.total + |item.content| <= PLUGIN_LIMIT
    requires s.offset <= |tar| && tar[s.offset..] == ItemBytes(item) + rest
    ensures After(s, item).offset <= |tar| && tar[After(s, item).offset..] == rest
    ensures !AtEnd(tar, s.offset) && Step(reader, tar, s) == Ok(After(s, item))
  {
    ItemSlices(tar, item, s.offset, rest);
    StepTaken(reader, tar, s, item);
  }

  lemma StepTaken(reader: Reader, tar: Bytes, s: State, item: Item)
    requires Reads(reader, item) && Clear(s) && s.total + |item.content| <= PLUGIN_LIMIT
    requires s.offset + 512 + |item.content| <= |tar| && tar[s.offset..s.offset + 512] == item.block
    requires tar[s.offset + 512..s.offset + 512 + |item.content|] == item.content
    ensures !AtEnd(tar, s.offset) && Step(reader, tar, s) == Ok(After(s, item))
  {
    assert reader.entry(s, item.header, item.content, s.offset + 512) == Ok(Filed(s, item, s.offset + 512));
  }

  lemma ParseOn(reader: Reader, tar: Bytes, s: State, next: State)
    requires !AtEnd(tar, s.offset) && Step(reader, tar, s) == Ok(next)
    ensures Parse(reader, tar, s) == Parse(reader, tar, next)
  {
  }

  lemma EndsHere(reader: Reader, tar: Bytes, s: State, end: Bytes)
    requires s.offset <= |tar| && tar[s.offset..] == end && (|end| < 512 || Blank(end[..512]))
    ensures Parse(reader, tar, s) == Ok(s)
  {
    if s.offset + 512 <= |tar| { assert tar[s.offset..s.offset + 512] == end[..512]; }
  }

  lemma {:induction false} ParseItems(reader: Reader, tar: Bytes, s: State, items: seq<Item>, end: Bytes)
    requires (forall item | item in items :: Reads(reader, item)) && Clear(s) && s.offset <= |tar|
    requires tar[s.offset..] == ItemsBytes(items) + end && s.total + TotalBytes(items) <= PLUGIN_LIMIT
    requires |end| < 512 || Blank(end[..512])
    ensures var r := Parse(reader, tar, s); r.Ok? && r.value.writes == s.writes + Written(items, s.offset)
    decreases |items|
  {
    if items == [] {
      assert tar[s.offset..] == end;
      EndsHere(reader, tar, s, end);
    } else {
      var item, rest := items[0], items[1..];
      assert ItemsBytes(items) + end == ItemBytes(item) + (ItemsBytes(rest) + end);
      ItemStep(reader, tar, s, item, ItemsBytes(rest) + end);
      ParseOn(reader, tar, s, After(s, item));
      ParseItems(reader, tar, After(s, item), rest, end);
      WrittenOnto(s, item, rest);
    }
  }

  lemma WrittenOnto(s: State, item: Item, rest: seq<Item>)
    requires |item.block| == 512
    ensures After(s, item).writes + Written(rest, After(s, item).offset)
         == s.writes + ([File(item.path, item.content, s.offset + 512)] + Written(rest, s.offset + |ItemBytes(item)|))
  {
  }

  // ------------------------------------------------------------------ Regular files

  lemma {:induction false} NoTrailing(b: Bytes)
    ensures StripTrailing(b) == [] || StripTrailing(b)[|StripTrailing(b)| - 1] != SLASH
  {
    if b != [] && b[|b| - 1] == SLASH { NoTrailing(b[..|b| - 1]); }
  }

  lemma SafeEndsInName(path: Bytes)
    requires SafeRelative(path) == Some(path)
    ensures DropOneSlash(path) == path && path != []
  {
    NoTrailing(StripDot(Slashes(path)));
  }

  function ItemOf(f: Source): Item
    requires SourceOk(f)
  {
    Item(HeaderBlock(f), Header(f.name, f.prefix, Some(|f.content|), 0x30), FullName(f.prefix, f.name)[8..], f.content)
  }

  function ItemsOf(files: seq<Source>): (items: seq<Item>)
    requires forall k | 0 <= k < |files| :: SourceOk(files[k])
    ensures |items| == |files| && forall k | 0 <= k < |files| :: items[k] == ItemOf(files[k])
  {
    if files == [] then [] else [ItemOf(files[0])] + ItemsOf(files[1..])
  }

  lemma NamedFile(s: State, path: Bytes, relative: Bytes, h: Header, content: Bytes, start: nat)
    requires PackagePrefix() <= path && relative == path[8..] && SafeRelative(relative) == Some(relative)
    requires h.kind == 0x30 && |content| <= FILE_LIMIT && s.total + |content| <= PLUGIN_LIMIT
    ensures Named(s, path, h, content, start)
         == Ok(s.(total := s.total + |content|, writes := s.writes + [File(relative, content, start)]))
  {
    SafeEndsInName(relative);
  }

  lemma PlainEntry(s: State, h: Header, content: Bytes, start: nat)
    requires Clear(s) && h.kind == 0x30
    ensures Entry(s, h, content, start)
         == Named(s.(pax := map[], longName := None), FullName(h.prefix, h.name), h, content, start)
  {
  }

  lemma EntryKeeps(f: Source, s: State, start: nat)
    requires SourceOk(f) && Clear(s) && s.total + |f.content| <= PLUGIN_LIMIT
    ensures Entry(s, Header(f.name, f.prefix, Some(|f.content|), 0x30), f.content, start)
         == Ok(State(s.offset, s.total + |f.content|, map[], None,
                     s.writes + [File(FullName(f.prefix, f.name)[8..], f.content, start)]))
  {
    var path, h := FullName(f.prefix, f.name), Header(f.name, f.prefix, Some(|f.content|), 0x30);
    PlainEntry(s, h, f.content, start);
    NamedFile(s.(pax := map[], longName := None), path, path[8..], h, f.content, start);
  }

  lemma EntryFiles(f: Source, item: Item, s: State, start: nat)
    requires SourceOk(f) && item.header == Header(f.name, f.prefix, Some(|f.content|), 0x30)
        && item.content == f.content
    requires item.path == FullName(f.prefix, f.name)[8..] && Clear(s) && s.total + |item.content| <= PLUGIN_LIMIT
    ensures NpmReader().entry(s, item.header, item.content, start) == Ok(Filed(s, item, start))
  {
    EntryKeeps(f, s, start);
  }

  lemma NpmReadsItem(f: Source, item: Item)
    requires SourceOk(f) && item.header == Header(f.name, f.prefix, Some(|f.content|), 0x30)
        && item.content == f.content
    requires item.path == FullName(f.prefix, f.name)[8..]
    requires |item.block| == 512 && !Blank(item.block) && NpmReader().decode(item.block) == item.header
    ensures Reads(NpmReader(), item)
  {
    forall s, start: nat | Clear(s) && s.total + |item.content| <= PLUGIN_LIMIT
      ensures NpmReader().entry(s, item.header, item.content, start) == Ok(Filed(s, item, start))
    {
      EntryFiles(f, item, s, start);
    }
  }

  lemma NpmReads(f: Source)
    requires SourceOk(f)
    ensures Reads(NpmReader(), ItemOf(f))
  {
    DecodeBlock(f);
    NpmReadsItem(f, ItemOf(f));
  }

  lemma {:induction false} WrittenCount(items: seq<Item>, start: nat)
    ensures |Written(items, start)| == |items|
  {
    if items != [] { WrittenCount(items[1..], start + |ItemBytes(items[0])|); }
  }

  lemma {:induction false} WrittenAt(items: seq<Item>, start: nat, k: nat)
    requires k < |items|
    ensures |Written(items, start)| == |items|
    ensures var w := Written(items, start)[k]; w.File? && w.path == items[k].path && w.bytes == items[k].content
  {
    WrittenCount(items, start);
    if k > 0 { WrittenAt(items[1..], start + |ItemBytes(items[0])|, k - 1); }
  }

  lemma ItemsParse(reader: Reader, items: seq<Item>, end: Bytes, start: State)
    requires (forall item | item in items :: Reads(reader, item)) && TotalBytes(items) <= PLUGIN_LIMIT
    requires (|end| < 512 || Blank(end[..512])) && start == Start()
    ensures var r := Parse(reader, ItemsBytes(items) + end, start);
      && r.Ok? && |r.value.writes| == |items|
      && forall k | 0 <= k < |items| ::
           r.value.writes[k].File? && r.value.writes[k].path == items[k].path
             && r.value.writes[k].bytes == items[k].content
  {
    var tar := ItemsBytes(items) + end;
    assert tar[start.offset..] == tar;
    ParseItems(reader, tar, start, items, end);
    WrittenCount(items, start.offset);
    assert [] + Written(items, start.offset) == Written(items, start.offset);
    forall k | 0 <= k < |items|
      ensures var w := Written(items, start.offset)[k];
        w.File? && w.path == items[k].path && w.bytes == items[k].content
    {
      WrittenAt(items, start.offset, k);
    }
  }

  /** An archive built from regular files, with anything after them that ends an archive, parses back
      to exactly those files: their paths below package/, in order, with their bytes. */
  lemma ArchiveParsesBack(files: seq<Source>, end: Bytes)
    requires (forall k | 0 <= k < |files| :: SourceOk(files[k])) && TotalBytes(ItemsOf(files)) <= PLUGIN_LIMIT
    requires |end| < 512 || Blank(end[..512])
    ensures var r, items := Parse(NpmReader(), ItemsBytes(ItemsOf(files)) + end, Start()), ItemsOf(files);
      && r.Ok? && |r.value.writes| == |files| == |items|
      && forall k | 0 <= k < |files| ::
           && items[k].path == FullName(files[k].prefix, files[k].name)[8..] && items[k].content == files[k].content
           && r.value.writes[k].File? && r.value.writes[k].path == items[k].path
             && r.value.writes[k].bytes == items[k].content
  {
    var items := ItemsOf(files);
    forall item | item in items ensures Reads(NpmReader(), item) {
      var k :| 0 <= k < |items| && items[k] == item;
      NpmReads(files[k]);
    }
    ItemsParse(NpmReader(), items, end, Start());
  }
}

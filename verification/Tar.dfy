/** The reader of npm archives: one pass over 512-byte blocks that collects directories and files. */
module Tar {
  import opened Common
  import opened TarFormat

  const FILE_LIMIT: nat := 5 * 1024 * 1024
  const PLUGIN_LIMIT: nat := 25 * 1024 * 1024

  /** `start` is where the bytes of a file begin in the archive. */
  datatype Write = Directory(path: Bytes) | File(path: Bytes, bytes: Bytes, start: nat)

  datatype State = State(offset: nat, total: nat, pax: map<Bytes, Bytes>, longName: Option<Bytes>, writes: seq<Write>)

  datatype Failure = BadSize | Truncated | BadPax | Link | Outside | Unsafe | FileTooLarge | TooLarge

  function Start(): State {
    State(0, 0, map[], None, [])
  }

  function Blocks(size: nat): nat {
    (size + 511) / 512 * 512
  }

  lemma BlocksCover(size: nat)
    ensures size <= Blocks(size) < size + 512 && Blocks(size) % 512 == 0
  {
  }

  /** No block is left, or the next one is all zero. */
  predicate AtEnd(tar: Bytes, offset: nat) {
    offset + 512 > |tar| || Blank(tar[offset..offset + 512])
  }

  function ArchivePath(s: State, h: Header): Bytes {
    if PathKey() in s.pax then s.pax[PathKey()]
    else if s.longName.Some? then s.longName.value
    else FullName(h.prefix, h.name)
  }

  /** The entry with header `h` and its data. */
  function Entry(s: State, h: Header, content: Bytes, start: nat): Result<State, Failure> {
    if h.kind == 0x78 || h.kind == 0x67 then
      match ParsePax(content, map[])
      case None => Err(BadPax)
      case Some(parsed) => Ok(s.(pax := if h.kind == 0x67 then s.pax + parsed else parsed))
    else if h.kind == 0x4C then Ok(s.(longName := Some(DropNuls(content))))
    else if h.kind == 0x31 || h.kind == 0x32 || h.kind == 0x4B then Err(Link)
    else Named(s.(pax := map[], longName := None), ArchivePath(s, h), h, content, start)
  }

  function Named(s: State, path: Bytes, h: Header, content: Bytes, start: nat): Result<State, Failure> {
    if !(PackagePrefix() <= path) then Err(Outside)
    else
      var relative := DropOneSlash(path[8..]);
      if relative == [] then Ok(s)
      else
        match SafeRelative(relative)
        case None => Err(Unsafe)
        case Some(safe) =>
          if h.kind == 0x35 then Ok(s.(writes := s.writes + [Directory(safe)]))
          else if h.kind != 0x30 && h.kind != 0 then Ok(s)
          else if |content| > FILE_LIMIT then Err(FileTooLarge)
          else if s.total + |content| > PLUGIN_LIMIT then Err(TooLarge)
          else Ok(s.(total := s.total + |content|, writes := s.writes + [File(safe, content, start)]))
  }

  /** How headers are decoded and entries handled; the pass over the blocks depends on neither. */
  datatype Reader = Reader(decode: Bytes -> Header, entry: (State, Header, Bytes, nat) -> Result<State, Failure>)

  function NpmReader(): Reader {
    Reader(Decode, Entry)
  }

  /** One turn of the loop: the next offset depends on the size alone. */
  function Step(reader: Reader, tar: Bytes, s: State): (r: Result<State, Failure>)
    requires !AtEnd(tar, s.offset)
    ensures r.Ok? ==> r.value.offset >= s.offset + 512 && (r.value.offset - s.offset) % 512 == 0
  {
    var h := reader.decode(tar[s.offset..s.offset + 512]);
    if h.size.None? then Err(BadSize)
    else
      var start := s.offset + 512;
      var end := start + h.size.value;
      BlocksCover(h.size.value);
      if end > |tar| then Err(Truncated)
      else
        match reader.entry(s, h, tar[start..end], start)
        case Err(e) => Err(e)
        case Ok(next) => Ok(next.(offset := start + Blocks(h.size.value)))
  }

  function Parse(reader: Reader, tar: Bytes, s: State): Result<State, Failure>
    decreases |tar| - s.offset
  {
    if AtEnd(tar, s.offset) then Ok(s)
    else
      match Step(reader, tar, s)
      case Err(e) => Err(e)
      case Ok(next) => Parse(reader, tar, next)
  }

  // ------------------------------------------------------------------ What is accepted

  function FileBytes(writes: seq<Write>): nat {
    if writes == [] then 0
    else FileBytes(writes[..|writes| - 1]) + if writes[|writes| - 1].File? then |writes[|writes| - 1].bytes| else 0
  }

  /** A file is a slice of the archive right after a header. */
  predicate IsSlice(tar: Bytes, w: Write, before: nat) {
    w.File? ==>
      && w.start % 512 == 0 && w.start >= 512 && |w.bytes| <= FILE_LIMIT
      && w.start + |w.bytes| <= |tar| && w.start + |w.bytes| <= before
      && w.bytes == tar[w.start..w.start + |w.bytes|]
  }

  ghost predicate Sound(tar: Bytes, s: State) {
    && s.offset % 512 == 0
    && (forall k | 0 <= k < |s.writes| :: IsSlice(tar, s.writes[k], s.offset))
    && (forall i, j | 0 <= i < j < |s.writes| && s.writes[i].File? && s.writes[j].File? ::
          s.writes[i].start + |s.writes[i].bytes| + 512 <= s.writes[j].start)
    && s.total == FileBytes(s.writes) <= PLUGIN_LIMIT
    && (forall k | 0 <= k < |s.writes| :: 0 !in s.writes[k].path && Plain(s.writes[k].path))
  }

  lemma {:induction false} StripKeeps(b: Bytes)
    ensures forall c | c in StripSlashes(b) :: c in b
    ensures forall c | c in StripTrailing(b) :: c in b
    decreases |b|
  {
    if b != [] && b[0] == SLASH { StripKeeps(b[1..]); }
    if b != [] && b[|b| - 1] == SLASH { StripKeeps(b[..|b| - 1]); }
  }

  lemma SafeIsPlain(path: Bytes)
    requires SafeRelative(path).Some?
    ensures Plain(SafeRelative(path).value) && 0 !in SafeRelative(path).value && SafeRelative(path).value != []
  {
    var slashed := Slashes(path);
    assert forall c | c in slashed :: c in path || c == SLASH;
    StripKeeps(slashed);
    if |slashed| > 1 { StripKeeps(slashed[1..]); }
    StripKeeps(StripDot(slashed));
  }

  /** Appending a directory, or a file that begins at `start` after the header at the offset. */
  lemma AddWrite(tar: Bytes, s: State, w: Write, offset: nat)
    requires Sound(tar, s) && offset % 512 == 0 && offset >= s.offset && 0 !in w.path && Plain(w.path)
    requires w.File? ==> IsSlice(tar, w, offset) && w.start == s.offset + 512 && s.total + |w.bytes| <= PLUGIN_LIMIT
    ensures Sound(tar, s.(offset := offset, total := s.total + if w.File? then |w.bytes| else 0,
                          writes := s.writes + [w]))
  {
    var longer := s.writes + [w];
    assert longer[..|longer| - 1] == s.writes;
  }

  /** Entries keep an archive's state sound, wherever the offset moves past their data. */
  ghost predicate Preserves(tar: Bytes, entry: (State, Header, Bytes, nat) -> Result<State, Failure>) {
    forall s, h, content, start: nat, offset: nat |
      && Sound(tar, s) && start == s.offset + 512 && offset % 512 == 0 && start + |content| <= offset
      && start + |content| <= |tar| && content == tar[start..start + |content|] && entry(s, h, content, start).Ok? ::
        Sound(tar, entry(s, h, content, start).value.(offset := offset))
  }

  lemma NamedSound(tar: Bytes, s: State, path: Bytes, h: Header, content: Bytes, start: nat, offset: nat)
    requires Sound(tar, s) && start == s.offset + 512 && offset % 512 == 0 && start + |content| <= offset
    requires start + |content| <= |tar| && content == tar[start..start + |content|]
    requires Named(s, path, h, content, start).Ok?
    ensures Sound(tar, Named(s, path, h, content, start).value.(offset := offset))
  {
    var relative := DropOneSlash(path[8..]);
    if relative != [] {
      SafeIsPlain(relative);
      var safe := SafeRelative(relative).value;
      if h.kind == 0x35 {
        AddWrite(tar, s, Directory(safe), offset);
      } else if h.kind == 0x30 || h.kind == 0 {
        AddWrite(tar, s, File(safe, content, start), offset);
      }
    }
  }

  lemma EntryPreserves(tar: Bytes)
    ensures Preserves(tar, Entry)
  {
    forall s, h, content, start: nat, offset: nat |
      && Sound(tar, s) && start == s.offset + 512 && offset % 512 == 0 && start + |content| <= offset
      && start + |content| <= |tar| && content == tar[start..start + |content|] && Entry(s, h, content, start).Ok?
      ensures Sound(tar, Entry(s, h, content, start).value.(offset := offset))
    {
      if !(h.kind == 0x78 || h.kind == 0x67 || h.kind == 0x4C) {
        NamedSound(tar, s.(pax := map[], longName := None), ArchivePath(s, h), h, content, start, offset);
      }
    }
  }

  lemma StepSound(reader: Reader, tar: Bytes, s: State)
    requires Preserves(tar, reader.entry) && Sound(tar, s) && !AtEnd(tar, s.offset) && Step(reader, tar, s).Ok?
    ensures Sound(tar, Step(reader, tar, s).value)
  {
    var h := reader.decode(tar[s.offset..s.offset + 512]);
    BlocksCover(h.size.value);
  }

  lemma {:induction false} ParseSound(reader: Reader, tar: Bytes, s: State)
    requires Preserves(tar, reader.entry) && Sound(tar, s) && Parse(reader, tar, s).Ok?
    ensures Sound(tar, Parse(reader, tar, s).value)
    decreases |tar| - s.offset
  {
    if !AtEnd(tar, s.offset) {
      StepSound(reader, tar, s);
      ParseSound(reader, tar, Step(reader, tar, s).value);
    }
  }

  /** Every accepted file is exactly a slice of the archive after its header, the slices are disjoint
      and in order, the sizes are within the limits, and every path is relative and plain. */
  lemma AcceptedFilesAreSlices(tar: Bytes)
    requires Parse(NpmReader(), tar, Start()).Ok?
    ensures Sound(tar, Parse(NpmReader(), tar, Start()).value)
  {
    EntryPreserves(tar);
    ParseSound(NpmReader(), tar, Start());
  }

  method ParseArchive(reader: Reader, tar: Bytes) returns (r: Result<seq<Write>, Failure>)
    ensures r == match Parse(reader, tar, Start())
                 case Err(e) => Err(e)
                 case Ok(s) => Ok(s.writes)
  {
    var s := Start();
    while s.offset + 512 <= |tar|
      invariant Parse(reader, tar, s) == Parse(reader, tar, Start())
      decreases |tar| - s.offset
    {
      if Blank(tar[s.offset..s.offset + 512]) { break; }
      var header := reader.decode(tar[s.offset..s.offset + 512]);
      if header.size.None? { return Err(BadSize); }
      var dataStart := s.offset + 512;
      var dataEnd := dataStart + header.size.value;
      if dataEnd > |tar| { return Err(Truncated); }
      var entry := reader.entry(s, header, tar[dataStart..dataEnd], dataStart);
      if entry.Err? { return Err(entry.error); }
      BlocksCover(header.size.value);
      s := entry.value.(offset := dataStart + Blocks(header.size.value));
    }
    r := Ok(s.writes);
  }
}

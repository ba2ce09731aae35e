/** What the archive reader makes of each field and each kind of entry, and what it refuses. */
module TarRules {
  import opened Common
  import opened TarFormat
  import opened Tar
  import opened TarRoundTrip

  function Ascii7(s: string): Bytes {
    seq(|s|, i requires 0 <= i < |s| => if s[i] as int < 128 then s[i] as int else 0)
  }

  // ------------------------------------------------------------------ Sizes

  predicate AllSpaces(b: Bytes) {
    forall c | c in b :: c in {9, 10, 11, 12, 13, 32}
  }

  predicate OctalDigits(b: Bytes) {
    forall c | c in b :: 48 <= c <= 55
  }

  function OctalOf(b: Bytes): int {
    if b == [] then 0 else OctalOf(b[..|b| - 1]) * 8 + (b[|b| - 1] as int - 48)
  }

  lemma {:induction false} SkipsSpaces(lead: Bytes, b: Bytes)
    requires AllSpaces(lead) && (b == [] || b[0] !in {9, 10, 11, 12, 13, 32})
    ensures TrimStart(lead + b) == b
  {
    if lead == [] {
      assert lead + b == b;
    } else {
      assert (lead + b)[1..] == lead[1..] + b;
      assert lead[0] in lead && forall c | c in lead[1..] :: c in lead;
      SkipsSpaces(lead[1..], b);
    }
  }

  lemma {:induction false} LeadingDigits(digits: Bytes, tail: Bytes)
    requires OctalDigits(digits) && (tail == [] || tail[0] < 48 || 55 < tail[0])
    ensures Digits(digits + tail, 8) == digits
  {
    if digits == [] {
      assert digits + tail == tail;
    } else {
      assert (digits + tail)[1..] == digits[1..] + tail;
      assert digits[0] in digits && forall c | c in digits[1..] :: c in digits;
      LeadingDigits(digits[1..], tail);
      assert digits == [digits[0]] + digits[1..];
    }
  }

  lemma {:induction false} ValueIsOctal(digits: Bytes)
    requires OctalDigits(digits)
    ensures Value(digits, 8) == OctalOf(digits)
  {
    if digits != [] {
      var front := digits[..|digits| - 1];
      forall c | c in front ensures 48 <= c <= 55 { assert c in digits; }
      assert digits[|digits| - 1] in digits;
      ValueIsOctal(front);
    }
  }

  lemma {:induction false} NoNulStays(b: Bytes)
    requires 0 !in b
    ensures CutNul(b) == b
  {
    CutNulPad(b, []);
    assert b + [] == b;
  }

  /** Trimming the end takes spaces off the tail only. */
  lemma {:induction false} TrimTail(b: Bytes, tail: Bytes)
    requires b != [] && b[|b| - 1] !in {9, 10, 11, 12, 13, 32}
    ensures exists rest :: TrimEnd(b + tail) == b + rest && rest <= tail
    decreases |tail|
  {
    if tail == [] {
      assert b + tail == b && b + [] == b;
    } else if Space(tail[|tail| - 1]) {
      var n := |tail| - 1;
      assert (b + tail)[..|b + tail| - 1] == b + tail[..n];
      TrimTail(b, tail[..n]);
      var rest :| TrimEnd(b + tail[..n]) == b + rest && rest <= tail[..n];
      assert rest <= tail;
    } else {
      assert (b + tail)[|b + tail| - 1] == tail[|tail| - 1];
    }
  }

  /** A size is read after any spaces, from octal digits up to whatever is none, and refused beyond 2^53. */
  lemma SizeIsRead(lead: Bytes, digits: Bytes, tail: Bytes)
    requires AllSpaces(lead) && OctalDigits(digits) && digits != []
    requires 0 !in tail && (tail == [] || tail[0] < 48 || 55 < tail[0])
    ensures ParseTarNumber(lead + digits + tail)
         == if OctalOf(digits) < 9_007_199_254_740_992 then Some(OctalOf(digits)) else None
  {
    var b := lead + digits + tail;
    assert digits[0] in digits && digits[|digits| - 1] in digits;
    assert b == lead + (digits + tail);
    NoNulStays(b);
    SkipsSpaces(lead, digits + tail);
    TrimTail(digits, tail);
    var rest :| TrimEnd(digits + tail) == digits + rest && rest <= tail;
    OctalIsParsed(digits, rest);
    assert digits + rest != [];
  }

  lemma OctalIsParsed(digits: Bytes, rest: Bytes)
    requires OctalDigits(digits) && digits != [] && (rest == [] || rest[0] < 48 || 55 < rest[0])
    ensures ParseInt(digits + rest, 8) == Some(OctalOf(digits))
  {
    assert digits[0] in digits && (digits + rest)[0] == digits[0];
    SkipsSpaces([], digits + rest);
    assert [] + (digits + rest) == digits + rest;
    LeadingDigits(digits, rest);
    ValueIsOctal(digits);
  }

  /** A blank size is zero. */
  lemma BlankSizeIsZero(b: Bytes)
    requires AllSpaces(b)
    ensures ParseTarNumber(b) == Some(0) && ParseTarNumber(b + [0]) == Some(0)
  {
    CutNulPad(b, [0]);
    NoNulStays(b);
    SkipsSpaces(b, []);
    assert b + [] == b;
  }

  /** A plus sign changes nothing. */
  lemma PlusIsPassed(t: Bytes, radix: int)
    requires radix in {8, 10} && t != [] && Digit(t[0], radix)
    ensures ParseInt(['+' as int] + t, radix) == ParseInt(t, radix)
  {
    assert (['+' as int] + t)[1..] == t;
  }

  /** A size that starts with anything else is refused, and so is a negative one. */
  lemma OtherSizesAreRefused(lead: Bytes, c: Byte, tail: Bytes)
    requires AllSpaces(lead) && 0 !in [c] + tail && c !in {9, 10, 11, 12, 13, 32} && (c < 48 || 55 < c)
    requires c == '-' as int ==> tail != [] && OctalDigits(tail) && OctalOf(tail) > 0
    requires c != '+' as int
    ensures ParseTarNumber(lead + ([c] + tail)) == None
  {
    var b := lead + ([c] + tail);
    NoNulStays(b);
    SkipsSpaces(lead, [c] + tail);
    TrimTail([c], tail);
    var rest :| TrimEnd([c] + tail) == [c] + rest && rest <= tail;
    SkipsSpaces([], [c] + rest);
    assert [] + ([c] + rest) == [c] + rest;
    if c == '-' as int {
      assert tail[|tail| - 1] in tail;
      assert ([c] + tail)[|[c] + tail| - 1] == tail[|tail| - 1];
      assert rest == tail;
      assert ([c] + rest)[1..] == rest;
      LeadingDigits(tail, []);
      assert tail + [] == tail;
      ValueIsOctal(tail);
    }
  }

  // ------------------------------------------------------------------ Extended headers

  function DecimalOf(b: Bytes): int {
    if b == [] then 0 else DecimalOf(b[..|b| - 1]) * 10 + (b[|b| - 1] as int - 48)
  }

  predicate DecimalDigits(b: Bytes) {
    b != [] && forall c | c in b :: 48 <= c <= 57
  }

  lemma {:induction false} DecimalRead(digits: Bytes)
    requires forall c | c in digits :: 48 <= c <= 57
    ensures Digits(digits, 10) == digits && Value(digits, 10) == DecimalOf(digits)
    decreases |digits|
  {
    if digits != [] {
      var front, rest := digits[..|digits| - 1], digits[1..];
      forall c | c in front ensures 48 <= c <= 57 { assert c in digits; }
      forall c | c in rest ensures 48 <= c <= 57 { assert c in digits; }
      assert digits[0] in digits && digits[|digits| - 1] in digits;
      DecimalRead(rest);
      DecimalRead(front);
      assert digits == [digits[0]] + digits[1..];
    }
  }

  lemma {:induction false} FirstAt(a: Bytes, c: Byte, b: Bytes)
    requires c !in a
    ensures IndexOf(a + [c] + b, c) == Some(|a|)
  {
    if a != [] {
      assert (a + [c] + b)[1..] == a[1..] + [c] + b;
      FirstAt(a[1..], c, b);
    }
  }

  lemma AsciiDigits(digits: Bytes)
    requires DecimalDigits(digits)
    ensures ParseInt(Ascii(digits), 10) == Some(DecimalOf(digits))
  {
    assert forall k | 0 <= k < |digits| :: digits[k] in digits;
    assert Ascii(digits) == digits;
    assert digits[0] in digits;
    DecimalRead(digits);
  }

  lemma RecordSets(found: map<Bytes, Bytes>, key: Bytes, value: Bytes)
    requires key != [] && '=' as int !in key
    ensures WithRecord(found, key + [61] + value) == found[key := value]
  {
    FirstAt(key, 61, value);
    var record := key + [61] + value;
    assert record[..|key|] == key && record[|key| + 1..] == value;
  }

  lemma RecordCut(digits: Bytes, record: Bytes, rest: Bytes, length: nat)
    requires length == |digits| + 1 + |record| + 1
    ensures var content := digits + [32] + (record + [10]) + rest;
      content[..|digits|] == digits && content[|digits| + 1..length - 1] == record && content[length..] == rest
  {
  }

  /** A record `length key=value` and a line end, whose length counts all of it, sets the key to the value. */
  lemma {:induction false} PaxRecordIsRead(digits: Bytes, key: Bytes, value: Bytes, rest: Bytes,
                                           found: map<Bytes, Bytes>)
    requires DecimalDigits(digits) && key != [] && '=' as int !in key
    requires DecimalOf(digits) == |digits| + 1 + |key + [61] + value| + 1 < 9_007_199_254_740_992
    ensures ParsePax(digits + [32] + ((key + [61] + value) + [10]) + rest, found)
         == ParsePax(rest, found[key := value])
  {
    var record := key + [61] + value;
    assert 32 !in digits;
    assert digits + [32] + (record + [10]) + rest == digits + [32] + ((record + [10]) + rest);
    FirstAt(digits, 32, (record + [10]) + rest);
    AsciiDigits(digits);
    RecordCut(digits, record, rest, DecimalOf(digits));
    RecordSets(found, key, value);
    OneRecord(digits + [32] + (record + [10]) + rest, |digits|, DecimalOf(digits), found);
  }

  lemma {:induction false} OneRecord(content: Bytes, space: nat, length: int, found: map<Bytes, Bytes>)
    requires PaxHead(content) == Some((space, Some(length))) && LengthOk(content, length)
    ensures ParsePax(content, found)
         == ParsePax(content[length..], WithRecord(found, PaxRecord(content, space, length)))
  {
  }

  /** A record longer than what is left, or without a length, is refused. */
  lemma {:induction false} PaxOverrunIsRefused(digits: Bytes, rest: Bytes, found: map<Bytes, Bytes>)
    requires DecimalDigits(digits) && (DecimalOf(digits) > |digits| + 1 + |rest| || DecimalOf(digits) == 0)
    ensures ParsePax(digits + [32] + rest, found) == None
  {
    assert 32 !in digits;
    FirstAt(digits, 32, rest);
    assert (digits + [32] + rest)[..|digits|] == digits;
    AsciiDigits(digits);
  }

  // ------------------------------------------------------------------ Paths

  /** Path segments with slashes between them. */
  function Slashed(segments: seq<Bytes>): Bytes
    requires segments != []
  {
    if |segments| == 1 then segments[0] else segments[0] + [47] + Slashed(segments[1..])
  }

  predicate Segment(s: Bytes) {
    47 !in s && 92 !in s && 0 !in s
  }

  lemma {:induction false} SplitSegment(s: Bytes)
    requires 47 !in s
    ensures Split(s) == [s]
  {
    if s != [] {
      SplitSegment(s[1..]);
      assert s == [s[0]] + s[1..];
    }
  }

  lemma {:induction false} SplitFirst(s: Bytes, rest: Bytes)
    requires 47 !in s
    ensures Split(s + [47] + rest) == [s] + Split(rest)
  {
    var b := s + [47] + rest;
    if s == [] {
      assert b[1..] == rest;
    } else {
      assert b[1..] == s[1..] + [47] + rest;
      SplitFirst(s[1..], rest);
      assert s == [s[0]] + s[1..];
    }
  }

  lemma {:induction false} SplitSlashed(segments: seq<Bytes>)
    requires segments != [] && forall s | s in segments :: Segment(s)
    ensures Split(Slashed(segments)) == segments
  {
    assert segments[0] in segments;
    if |segments| == 1 {
      SplitSegment(segments[0]);
    } else {
      SplitSlashed(segments[1..]);
      SplitFirst(segments[0], Slashed(segments[1..]));
    }
  }

  lemma {:induction false} SlashedBytes(segments: seq<Bytes>)
    requires segments != [] && segments[0] != [] && forall s | s in segments :: Segment(s) && s != []
    ensures Slashed(segments) != [] && 0 !in Slashed(segments) && 92 !in Slashed(segments)
    ensures Slashed(segments)[0] == segments[0][0] != 47
    ensures Slashed(segments)[|Slashed(segments)| - 1] != 47
  {
    assert segments[0] in segments && segments[0][0] in segments[0];
    if |segments| > 1 {
      assert segments[1] in segments;
      SlashedBytes(segments[1..]);
    } else {
      assert segments[0][|segments[0]| - 1] in segments[0];
    }
  }

  /** A path of plain segments below the package is taken as it is. */
  lemma PlainPathIsTaken(segments: seq<Bytes>)
    requires segments != [] && forall s | s in segments :: Segment(s) && s != [] && s != [46] && s != [46, 46]
    ensures SafeRelative(Slashed(segments)) == Some(Slashed(segments))
  {
    var path := Slashed(segments);
    assert segments[0] in segments;
    SlashedBytes(segments);
    SplitSlashed(segments);
    assert Slashes(path) == path;
    if |path| > 1 { NotDot(segments); }
    assert StripDot(path) == path && StripTrailing(path) == path;
  }

  lemma NotDot(segments: seq<Bytes>)
    requires segments != [] && segments[0] != [] && 47 !in segments[0] && |Slashed(segments)| > 1
    ensures Slashed(segments)[0] == 46 && Slashed(segments)[1] == 47 ==> segments[0] == [46]
  {
    if |segments[0]| > 1 {
      assert segments[0][1] in segments[0];
    } else {
      assert segments[0] == [segments[0][0]];
    }
  }

  /** A path that goes up, or is absolute, or holds a NUL, is refused. */
  lemma UpwardPathIsRefused(before: seq<Bytes>, after: seq<Bytes>)
    requires forall s | s in before + after :: Segment(s) && s != []
    requires before != [] && after != [] && before[0] != [46]
    ensures SafeRelative(Slashed(before + [[46, 46]] + after)) == None
  {
    var segments := before + [[46, 46]] + after;
    assert forall s | s in segments :: s in before + after || s == [46, 46];
    assert segments[0] == before[0] && before[0] in before + after;
    SlashedBytes(segments);
    SplitSlashed(segments);
    var path := Slashed(segments);
    assert Slashes(path) == path;
    if |path| > 1 { NotDot(segments); }
    assert StripDot(path) == path && StripTrailing(path) == path;
    assert segments[|before|] == [46, 46] && [46, 46] in Split(path);
  }

  lemma BadPathIsRefused(path: Bytes)
    requires path == [] || path[0] == 47 || 0 in path
    ensures SafeRelative(path) == None
  {
  }

  // ------------------------------------------------------------------ Entries

  /** Links of every kind are refused. */
  lemma LinksAreRefused(s: State, h: Header, content: Bytes, start: nat)
    requires h.kind in {'1' as int, '2' as int, 'K' as int}
    ensures Entry(s, h, content, start) == Err(Link)
  {
  }

  /** A long name, without its NULs, and extended headers are kept for the next entry; a global one adds to what
      is there. */
  lemma NamesAreKept(s: State, h: Header, name: Bytes, nuls: Bytes, start: nat)
    requires h.kind == 'L' as int && (name == [] || name[|name| - 1] != 0) && forall c | c in nuls :: c == 0
    ensures Entry(s, h, name + nuls, start) == Ok(s.(longName := Some(name)))
  {
    NulsDrop(name, nuls);
  }

  lemma {:induction false} NulsDrop(name: Bytes, nuls: Bytes)
    requires (name == [] || name[|name| - 1] != 0) && forall c | c in nuls :: c == 0
    ensures DropNuls(name + nuls) == name
    decreases |nuls|
  {
    if nuls == [] {
      assert name + nuls == name;
    } else {
      var n := |nuls| - 1;
      assert nuls[n] in nuls && forall c | c in nuls[..n] :: c in nuls;
      NulsDrop(name, nuls[..n]);
      assert (name + nuls)[..|name + nuls| - 1] == name + nuls[..n];
    }
  }

  lemma ExtendedHeaders(s: State, h: Header, content: Bytes, start: nat)
    requires h.kind == 'x' as int || h.kind == 'g' as int
    ensures Entry(s, h, content, start) ==
      match ParsePax(content, map[])
      case None => Err(BadPax)
      case Some(parsed) => Ok(s.(pax := if h.kind == 'x' as int then parsed else s.pax + parsed))
  {
  }

  /** Any other entry is named by the extended header, else by the long name, else by its own header; what named
      it does not name the next. */
  lemma EntryIsNamed(s: State, h: Header, content: Bytes, start: nat)
    requires h.kind !in {'x' as int, 'g' as int, 'L' as int, '1' as int, '2' as int, 'K' as int}
    ensures var path := if Ascii7("path") in s.pax then s.pax[Ascii7("path")]
                        else if s.longName.Some? then s.longName.value
                        else if h.prefix == [] then h.name else h.prefix + Ascii7("/") + h.name;
      Entry(s, h, content, start) == Named(s.(pax := map[], longName := None), path, h, content, start)
  {
    assert Ascii7("path") == PathKey();
    assert Ascii7("/") == [SLASH];
  }

  /** Below package/ a directory and a regular file are kept under their safe path, the file within 5 MiB and all
      of them within 25 MiB; other kinds of entry are passed over. */
  lemma EntryIsKept(s: State, relative: Bytes, h: Header, content: Bytes, start: nat)
    requires relative == [] || relative[|relative| - 1] != 47
    ensures var r := Named(s, Ascii7("package/") + relative, h, content, start);
      if relative == [] then r == Ok(s)
      else if SafeRelative(relative).None? then r == Err(Unsafe)
      else
        var path := SafeRelative(relative).value;
        if h.kind == '5' as int then r == Ok(s.(writes := s.writes + [Directory(path)]))
        else if h.kind != '0' as int && h.kind != 0 then r == Ok(s)
        else if |content| > 5_242_880 then r == Err(FileTooLarge)
        else if s.total + |content| > 26_214_400 then r == Err(TooLarge)
        else r == Ok(s.(total := s.total + |content|, writes := s.writes + [File(path, content, start)]))
  {
    assert Ascii7("package/") == PackagePrefix();
    assert (PackagePrefix() + relative)[8..] == relative;
  }

  /** One slash at the end of a name is dropped. */
  lemma TrailingSlash(s: State, relative: Bytes, h: Header, content: Bytes, start: nat)
    requires relative != [] && relative[|relative| - 1] != 47
    ensures Named(s, Ascii7("package/") + relative + [47], h, content, start)
         == Named(s, Ascii7("package/") + relative, h, content, start)
  {
    var prefix := Ascii7("package/");
    assert prefix == PackagePrefix();
    assert (prefix + relative)[8..] == relative && (prefix + relative + [47])[8..] == relative + [47];
    assert (relative + [47])[..|relative|] == relative;
    assert PackagePrefix() <= prefix + relative && PackagePrefix() <= prefix + relative + [47];
  }

  /** Anything outside package/ is refused. */
  lemma OutsideIsRefused(s: State, path: Bytes, h: Header, content: Bytes, start: nat)
    requires |path| < 8 || path[..8] != Ascii7("package/")
    ensures Named(s, path, h, content, start) == Err(Outside)
  {
    assert Ascii7("package/") == PackagePrefix();
  }

  // ------------------------------------------------------------------ Archives

  /** An archive of regular files ends at the first block of zeros, whatever follows. */
  lemma ZeroBlocksEnd(files: seq<Source>, rest: Bytes)
    requires (forall k | 0 <= k < |files| :: SourceOk(files[k])) && TotalBytes(ItemsOf(files)) <= PLUGIN_LIMIT
    ensures var r := Parse(NpmReader(), ItemsBytes(ItemsOf(files)) + (seq(512, _ => 0) + rest), Start());
      r.Ok? && |r.value.writes| == |files|
      && forall k | 0 <= k < |files| :: r.value.writes[k].File? && r.value.writes[k].bytes == files[k].content
  {
    var end: Bytes := seq(512, _ => 0) + rest;
    assert end[..512] == seq(512, _ => 0);
    ArchiveParsesBack(files, end);
  }

  /** A file whose bytes are not all there is refused. */
  lemma TruncatedIsRefused(f: Source, part: nat)
    requires SourceOk(f) && part < |f.content|
    ensures Parse(NpmReader(), HeaderBlock(f) + f.content[..part], Start()) == Err(Truncated)
  {
    DecodeBlock(f);
    var tar := HeaderBlock(f) + f.content[..part];
    assert tar[0..512] == HeaderBlock(f);
    assert !AtEnd(tar, 0);
    assert Step(NpmReader(), tar, Start()) == Err(Truncated);
  }
}

/** The canonical printing of JSON trees behind mutation fingerprints, and why it is unambiguous. */
module CanonicalJson {
  import opened Common
  import opened JsonText

  /** A finite number other than zero is given by its shortest decimal text, which differs for
      different numbers. */
  datatype Number = Zero(negative: bool) | Finite(text: Text) | NonFinite

  /** `Undefined` is dropped as an object member and refused elsewhere; `Unsupported` stands for
      functions, symbols and big integers. Object members come in insertion order. */
  datatype Json =
    | Null
    | Undefined
    | Unsupported
    | Bool(value: bool)
    | Num(number: Number)
    | Str(text: Text)
    | Arr(items: seq<Json>)
    | Obj(members: seq<Property>)

  datatype Property = Property(key: Text, value: Json)

  datatype Member = Member(key: Text, text: Text)

  // ------------------------------------------------------------------ Printing

  function NullText(): Text { [0x6E, 0x75, 0x6C, 0x6C] }

  function TrueText(): Text { [0x74, 0x72, 0x75, 0x65] }

  function FalseText(): Text { [0x66, 0x61, 0x6C, 0x73, 0x65] }

  function NumberText(n: Number): Option<Text> {
    match n
    case Zero(_) => Some([0x30])
    case Finite(text) => Some(text)
    case NonFinite => None
  }

  function Join(parts: seq<Text>): Text {
    if parts == [] then []
    else if |parts| == 1 then parts[0]
    else parts[0] + ([COMMA] + Join(parts[1..]))
  }

  /** Lexicographic order of code units, the default order of `sort`. */
  predicate Before(a: Text, b: Text) {
    if a == [] then b != []
    else b != [] && (a[0] < b[0] || (a[0] == b[0] && Before(a[1..], b[1..])))
  }

  function Insert(sorted: seq<Member>, m: Member): seq<Member> {
    if sorted == [] then [m]
    else if Before(m.key, sorted[0].key) then [m] + sorted
    else [sorted[0]] + Insert(sorted[1..], m)
  }

  function SortByKey(members: seq<Member>): seq<Member> {
    if members == [] then [] else Insert(SortByKey(members[1..]), members[0])
  }

  function EntryText(m: Member): Text {
    Quote(m.key) + ([COLON] + m.text)
  }

  function EntryTexts(members: seq<Member>): (texts: seq<Text>)
    ensures |texts| == |members| && forall k | 0 <= k < |members| :: texts[k] == EntryText(members[k])
  {
    if members == [] then [] else [EntryText(members[0])] + EntryTexts(members[1..])
  }

  /** None where the printer throws. */
  function Print(j: Json): Option<Text> {
    match j
    case Null => Some(NullText())
    case Bool(b) => Some(if b then TrueText() else FalseText())
    case Num(n) => NumberText(n)
    case Str(s) => Some(Quote(s))
    case Arr(items) =>
      (match PrintItems(items)
       case None => None
       case Some(texts) => Some([OPEN_BRACKET] + (Join(texts) + [CLOSE_BRACKET])))
    case Obj(members) =>
      (match PrintMembers(members)
       case None => None
       case Some(printed) => Some([OPEN_BRACE] + (Join(EntryTexts(SortByKey(printed))) + [CLOSE_BRACE])))
    case Undefined => None
    case Unsupported => None
  }

  function PrintItems(items: seq<Json>): Option<seq<Text>> {
    if items == [] then Some([])
    else
      match (Print(items[0]), PrintItems(items[1..]))
      case (Some(first), Some(rest)) => Some([first] + rest)
      case _ => None
  }

  function PrintMembers(members: seq<Property>): Option<seq<Member>> {
    if members == [] then Some([])
    else if members[0].value.Undefined? then PrintMembers(members[1..])
    else
      match (Print(members[0].value), PrintMembers(members[1..]))
      case (Some(first), Some(rest)) => Some([Member(members[0].key, first)] + rest)
      case _ => None
  }

  // ------------------------------------------------------------------ Well-formed trees

  predicate NumberUnit(u: Unit) {
    0x30 <= u <= 0x39 || u == 0x2D || u == 0x2E || u == 0x65 || u == 0x2B
  }

  predicate NumberOk(n: Number) {
    n.Finite? ==>
      && n.text != [] && n.text != [0x30] && (0x30 <= n.text[0] <= 0x39 || n.text[0] == 0x2D)
      && forall u | u in n.text :: NumberUnit(u)
  }

  /** Numbers are written as numbers are, and no object has a key twice. */
  predicate WellFormed(j: Json) {
    match j
    case Num(n) => NumberOk(n)
    case Arr(items) => forall k | 0 <= k < |items| :: WellFormed(items[k])
    case Obj(members) =>
      && (forall k | 0 <= k < |members| :: WellFormed(members[k].value))
      && (forall i, k | 0 <= i < k < |members| :: members[i].key != members[k].key)
    case _ => true
  }

  // ------------------------------------------------------------------ Where a text ends

  predicate Delimiter(u: Unit) {
    u == COMMA || u == CLOSE_BRACKET || u == CLOSE_BRACE
  }

  predicate Delimited(rest: Text) {
    rest == [] || Delimiter(rest[0])
  }

  /** Neither text can run into the other: followed by a delimiter, they agree or differ. */
  ghost predicate Apart(s: Text, t: Text) {
    forall x, y | Delimited(x) && Delimited(y) && s + x == t + y :: s == t
  }

  lemma ApartAt(s: Text, t: Text, x: Text, y: Text)
    requires Apart(s, t) && Delimited(x) && Delimited(y) && s + x == t + y
    ensures s == t && x == y
  {
    assert (s + x)[|s|..] == x && (t + y)[|t|..] == y;
  }

  predicate Starts(t: Text) {
    t != [] && !Delimiter(t[0])
  }

  /** What follows the first part of a joined list. */
  function Tail(parts: seq<Text>, close: Unit, x: Text): Text
    requires parts != []
  {
    if |parts| == 1 then [close] + x else [COMMA] + (Join(parts[1..]) + ([close] + x))
  }

  lemma JoinTail(parts: seq<Text>, close: Unit, x: Text)
    requires parts != []
    ensures Join(parts) + ([close] + x) == parts[0] + Tail(parts, close, x)
  {
    if |parts| > 1 {
      Associate(parts[0], [COMMA] + Join(parts[1..]), [close] + x);
      Associate([COMMA], Join(parts[1..]), [close] + x);
    }
  }

  lemma FirstPart(parts: seq<Text>, close: Unit, x: Text)
    requires parts != [] && Starts(parts[0])
    ensures (Join(parts) + ([close] + x))[0] == parts[0][0]
  {
    JoinTail(parts, close, x);
  }

  /** A joined list up to its closing unit determines the list. */
  lemma {:induction false} JoinApart(ps: seq<Text>, qs: seq<Text>, close: Unit, x: Text, y: Text)
    requires close == CLOSE_BRACKET || close == CLOSE_BRACE
    requires forall p | p in ps :: Starts(p)
    requires forall q | q in qs :: Starts(q)
    requires forall p, q | p in ps && q in qs :: Apart(p, q)
    requires Join(ps) + ([close] + x) == Join(qs) + ([close] + y)
    ensures ps == qs && x == y
  {
    assert [] + ([close] + x) == [close] + x && [] + ([close] + y) == [close] + y;
    if ps == [] && qs == [] {
      assert ([close] + x)[1..] == x && ([close] + y)[1..] == y;
    } else if ps == [] || qs == [] {
      if qs == [] { FirstPart(ps, close, x); } else { FirstPart(qs, close, y); }
      assert false;
    } else {
      JoinTail(ps, close, x);
      JoinTail(qs, close, y);
      ApartAt(ps[0], qs[0], Tail(ps, close, x), Tail(qs, close, y));
      if |ps| == 1 || |qs| == 1 {
        assert |ps| == |qs|;
        assert ([close] + x)[1..] == x && ([close] + y)[1..] == y;
      } else {
        var xs, ys := Join(ps[1..]) + ([close] + x), Join(qs[1..]) + ([close] + y);
        assert ([COMMA] + xs)[1..] == xs && ([COMMA] + ys)[1..] == ys;
        JoinApart(ps[1..], qs[1..], close, x, y);
        assert ps == [ps[0]] + ps[1..] && qs == [qs[0]] + qs[1..];
      }
    }
  }

  // ------------------------------------------------------------------ No text runs into another

  lemma {:induction false} PrintStarts(j: Json)
    requires WellFormed(j) && Print(j).Some?
    ensures Starts(Print(j).value)
  {
  }

  lemma {:induction false} ItemTexts(items: seq<Json>)
    requires PrintItems(items).Some?
    ensures |PrintItems(items).value| == |items|
    ensures forall k | 0 <= k < |items| :: Print(items[k]) == Some(PrintItems(items).value[k])
  {
    if items != [] {
      ItemTexts(items[1..]);
      forall k | 0 <= k < |items| ensures Print(items[k]) == Some(PrintItems(items).value[k]) {
        if k > 0 { assert items[k] == items[1..][k - 1]; }
      }
    }
  }

  predicate PrintedAt(members: seq<Property>, m: Member, k: nat) {
    k < |members| && !members[k].value.Undefined? && members[k].key == m.key && Print(members[k].value) == Some(m.text)
  }

  predicate PrintedFrom(members: seq<Property>, m: Member) {
    exists k: nat :: k < |members| && PrintedAt(members, m, k)
  }

  /** The printed members are those whose value is not undefined. */
  lemma {:induction false} MemberTexts(members: seq<Property>)
    requires PrintMembers(members).Some?
    ensures forall m | m in PrintMembers(members).value :: PrintedFrom(members, m)
    ensures forall k | 0 <= k < |members| && !members[k].value.Undefined? ::
      Print(members[k].value).Some?
      && Member(members[k].key, Print(members[k].value).value) in PrintMembers(members).value
  {
    if members != [] {
      MemberTexts(members[1..]);
      assert forall k | 0 < k < |members| :: members[k] == members[1..][k - 1];
      forall m | m in PrintMembers(members).value ensures PrintedFrom(members, m) {
        if m in PrintMembers(members[1..]).value {
          var k: nat :| k < |members| - 1 && PrintedAt(members[1..], m, k);
          assert PrintedAt(members, m, k + 1);
        } else {
          assert PrintedAt(members, m, 0);
        }
      }
    }
  }

  lemma {:induction false} InsertElements(sorted: seq<Member>, m: Member)
    ensures forall e :: e in Insert(sorted, m) <==> e in sorted || e == m
    ensures |Insert(sorted, m)| == |sorted| + 1
  {
    if sorted != [] {
      InsertElements(sorted[1..], m);
      assert sorted == [sorted[0]] + sorted[1..];
    }
  }

  lemma {:induction false} SortElements(members: seq<Member>)
    ensures forall e :: e in SortByKey(members) <==> e in members
    ensures |SortByKey(members)| == |members|
  {
    if members != [] {
      SortElements(members[1..]);
      InsertElements(SortByKey(members[1..]), members[0]);
      assert members == [members[0]] + members[1..];
    }
  }

  lemma EntriesApart(m: Member, n: Member)
    requires Apart(m.text, n.text)
    ensures Apart(EntryText(m), EntryText(n))
  {
    forall x, y | Delimited(x) && Delimited(y) && EntryText(m) + x == EntryText(n) + y
      ensures EntryText(m) == EntryText(n) {
      EntryDetermines(m, n, x, y);
      ApartAt(m.text, n.text, x, y);
    }
  }

  lemma EntryDetermines(m: Member, n: Member, x: Text, y: Text)
    requires EntryText(m) + x == EntryText(n) + y
    ensures m.key == n.key && m.text + x == n.text + y
  {
    Associate(Quote(m.key), [COLON] + m.text, x);
    Associate(Quote(n.key), [COLON] + n.text, y);
    Associate([COLON], m.text, x);
    Associate([COLON], n.text, y);
    QuoteDetermines(m.key, n.key, [COLON] + (m.text + x), [COLON] + (n.text + y));
    assert ([COLON] + (m.text + x))[1..] == m.text + x && ([COLON] + (n.text + y))[1..] == n.text + y;
  }

  lemma LongerNumber(s: Text, t: Text, x: Text, y: Text)
    requires |s| < |t| && Delimited(x) && forall u | u in t :: NumberUnit(u)
    ensures s + x != t + y
  {
    assert t[|s|] in t && (t + y)[|s|] == t[|s|];
    if x != [] { assert (s + x)[|s|] == x[0]; }
  }

  lemma NumbersApart(s: Text, t: Text)
    requires forall u | u in s :: NumberUnit(u)
    requires forall u | u in t :: NumberUnit(u)
    ensures Apart(s, t)
  {
    forall x, y | Delimited(x) && Delimited(y) && s + x == t + y ensures s == t {
      if |s| < |t| {
        LongerNumber(s, t, x, y);
      } else if |t| < |s| {
        LongerNumber(t, s, y, x);
      } else {
        assert s == (s + x)[..|s|] && t == (t + y)[..|t|];
      }
    }
  }

  lemma QuotesApart(a: Text, b: Text)
    ensures Apart(Quote(a), Quote(b))
  {
    forall x, y | Delimited(x) && Delimited(y) && Quote(a) + x == Quote(b) + y ensures Quote(a) == Quote(b) {
      QuoteDetermines(a, b, x, y);
    }
  }

  lemma ListsApart(ps: seq<Text>, qs: seq<Text>, open: Unit, close: Unit)
    requires close == CLOSE_BRACKET || close == CLOSE_BRACE
    requires forall p | p in ps :: Starts(p)
    requires forall q | q in qs :: Starts(q)
    requires forall p, q | p in ps && q in qs :: Apart(p, q)
    ensures Apart([open] + (Join(ps) + [close]), [open] + (Join(qs) + [close]))
  {
    var s, t := [open] + (Join(ps) + [close]), [open] + (Join(qs) + [close]);
    forall x, y | Delimited(x) && Delimited(y) && s + x == t + y ensures s == t {
      assert (s + x)[1..] == Join(ps) + ([close] + x) && (t + y)[1..] == Join(qs) + ([close] + y);
      JoinApart(ps, qs, close, x, y);
    }
  }

  lemma DifferentStart(s: Text, t: Text)
    requires s != [] && t != [] && s[0] != t[0]
    ensures Apart(s, t)
  {
    forall x, y ensures s + x != t + y {
      assert (s + x)[0] == s[0] && (t + y)[0] == t[0];
    }
  }

  lemma SameText(s: Text, t: Text)
    requires s == t
    ensures Apart(s, t)
  {
  }

  lemma {:induction false} PrintApart(a: Json, b: Json)
    requires WellFormed(a) && WellFormed(b) && Print(a).Some? && Print(b).Some?
    ensures Apart(Print(a).value, Print(b).value)
    decreases a
  {
    var s, t := Print(a).value, Print(b).value;
    PrintStarts(a);
    PrintStarts(b);
    if s[0] != t[0] {
      DifferentStart(s, t);
    } else {
      match a
      case Null => SameText(s, t);
      case Bool(_) => SameText(s, t);
      case Num(_) => NumbersApart(s, t);
      case Str(x) => QuotesApart(x, b.text);
      case Arr(items) =>
        ItemTexts(items);
        ItemTexts(b.items);
        var ps, qs := PrintItems(items).value, PrintItems(b.items).value;
        forall p | p in ps ensures Starts(p) { var k :| 0 <= k < |ps| && ps[k] == p; PrintStarts(items[k]); }
        forall q | q in qs ensures Starts(q) { var k :| 0 <= k < |qs| && qs[k] == q; PrintStarts(b.items[k]); }
        forall p, q | p in ps && q in qs ensures Apart(p, q) {
          var k :| 0 <= k < |ps| && ps[k] == p;
          var l :| 0 <= l < |qs| && qs[l] == q;
          PrintApart(items[k], b.items[l]);
        }
        ListsApart(ps, qs, OPEN_BRACKET, CLOSE_BRACKET);
      case Obj(members) => ObjectsApart(members, b.members);
    }
  }

  lemma {:induction false} ObjectsApart(xs: seq<Property>, ys: seq<Property>)
    requires WellFormed(Obj(xs)) && WellFormed(Obj(ys)) && PrintMembers(xs).Some? && PrintMembers(ys).Some?
    ensures Apart(Print(Obj(xs)).value, Print(Obj(ys)).value)
    decreases xs, 1
  {
    EntryTextsApart(xs, ys);
    ListsApart(SortedTexts(xs), SortedTexts(ys), OPEN_BRACE, CLOSE_BRACE);
  }

  function SortedTexts(xs: seq<Property>): seq<Text>
    requires PrintMembers(xs).Some?
  {
    EntryTexts(SortByKey(PrintMembers(xs).value))
  }

  lemma SortedTextFrom(xs: seq<Property>, t: Text) returns (m: Member, k: nat)
    requires PrintMembers(xs).Some? && t in SortedTexts(xs)
    ensures t == EntryText(m) && k < |xs| && PrintedAt(xs, m, k)
  {
    var sorted := SortByKey(PrintMembers(xs).value);
    var i :| 0 <= i < |sorted| && EntryTexts(sorted)[i] == t;
    m := sorted[i];
    SortElements(PrintMembers(xs).value);
    MemberTexts(xs);
    assert PrintedFrom(xs, m);
    k :| k < |xs| && PrintedAt(xs, m, k);
  }

  lemma {:induction false} EntryTextsApart(xs: seq<Property>, ys: seq<Property>)
    requires WellFormed(Obj(xs)) && WellFormed(Obj(ys)) && PrintMembers(xs).Some? && PrintMembers(ys).Some?
    ensures forall p | p in SortedTexts(xs) :: Starts(p)
    ensures forall q | q in SortedTexts(ys) :: Starts(q)
    ensures forall p, q | p in SortedTexts(xs) && q in SortedTexts(ys) :: Apart(p, q)
    decreases xs, 0
  {
    forall p, q | p in SortedTexts(xs) && q in SortedTexts(ys) ensures Apart(p, q) {
      var m, k := SortedTextFrom(xs, p);
      var n, l := SortedTextFrom(ys, q);
      PrintApart(xs[k].value, ys[l].value);
      EntriesApart(m, n);
    }
    forall p | p in SortedTexts(xs) ensures Starts(p) { var m, k := SortedTextFrom(xs, p); }
    forall q | q in SortedTexts(ys) ensures Starts(q) { var n, l := SortedTextFrom(ys, q); }
  }

  // ------------------------------------------------------------------ The same value

  predicate Defined(p: Property) {
    !p.value.Undefined?
  }

  /** Equal up to member order, undefined members and the sign of zero. */
  predicate Same(a: Json, b: Json) {
    match (a, b)
    case (Null, Null) => true
    case (Bool(x), Bool(y)) => x == y
    case (Num(m), Num(n)) => m == n || (m.Zero? && n.Zero?)
    case (Str(x), Str(y)) => x == y
    case (Arr(xs), Arr(ys)) => |xs| == |ys| && forall k | 0 <= k < |xs| :: Same(xs[k], ys[k])
    case (Obj(xs), Obj(ys)) =>
      && (forall i | 0 <= i < |xs| && Defined(xs[i]) :: HasSame(xs[i], ys))
      && (forall j | 0 <= j < |ys| && Defined(ys[j]) :: HasKey(xs, ys[j].key))
    case _ => false
  }

  predicate HasSame(p: Property, ys: seq<Property>) {
    exists j :: 0 <= j < |ys| && Defined(ys[j]) && p.key == ys[j].key && Same(p.value, ys[j].value)
  }

  predicate HasKey(xs: seq<Property>, key: Text) {
    exists i :: 0 <= i < |xs| && Defined(xs[i]) && xs[i].key == key
  }

  lemma JoinedEqual(ps: seq<Text>, qs: seq<Text>, open: Unit, close: Unit)
    requires close == CLOSE_BRACKET || close == CLOSE_BRACE
    requires forall p | p in ps :: Starts(p)
    requires forall q | q in qs :: Starts(q)
    requires forall p, q | p in ps && q in qs :: Apart(p, q)
    requires [open] + (Join(ps) + [close]) == [open] + (Join(qs) + [close])
    ensures ps == qs
  {
    assert ([open] + (Join(ps) + [close]))[1..] == Join(ps) + ([close] + []);
    assert ([open] + (Join(qs) + [close]))[1..] == Join(qs) + ([close] + []);
    JoinApart(ps, qs, close, [], []);
  }

  lemma ArraysPrintEqual(xs: seq<Json>, ys: seq<Json>)
    requires WellFormed(Arr(xs)) && WellFormed(Arr(ys)) && Print(Arr(xs)).Some? && Print(Arr(xs)) == Print(Arr(ys))
    ensures PrintItems(xs) == PrintItems(ys)
  {
    ItemTexts(xs);
    ItemTexts(ys);
    var ps, qs := PrintItems(xs).value, PrintItems(ys).value;
    forall p | p in ps ensures Starts(p) { var k :| 0 <= k < |ps| && ps[k] == p; PrintStarts(xs[k]); }
    forall q | q in qs ensures Starts(q) { var k :| 0 <= k < |qs| && qs[k] == q; PrintStarts(ys[k]); }
    forall p, q | p in ps && q in qs ensures Apart(p, q) {
      var k :| 0 <= k < |ps| && ps[k] == p;
      var l :| 0 <= l < |qs| && qs[l] == q;
      PrintApart(xs[k], ys[l]);
    }
    JoinedEqual(ps, qs, OPEN_BRACKET, CLOSE_BRACKET);
  }

  lemma {:induction false} EntriesEqual(ps: seq<Member>, qs: seq<Member>)
    requires EntryTexts(ps) == EntryTexts(qs)
    ensures ps == qs
  {
    assert |ps| == |EntryTexts(ps)| == |qs|;
    forall k | 0 <= k < |ps| ensures ps[k] == qs[k] {
      assert EntryTexts(ps)[k] == EntryText(ps[k]) && EntryTexts(qs)[k] == EntryText(qs[k]);
      assert EntryText(ps[k]) + [] == EntryText(qs[k]) + [];
      EntryDetermines(ps[k], qs[k], [], []);
      assert ps[k].text + [] == ps[k].text && qs[k].text + [] == qs[k].text;
    }
  }

  lemma ObjectsPrintEqual(xs: seq<Property>, ys: seq<Property>)
    requires WellFormed(Obj(xs)) && WellFormed(Obj(ys)) && Print(Obj(xs)).Some? && Print(Obj(xs)) == Print(Obj(ys))
    ensures PrintMembers(xs).Some? && PrintMembers(ys).Some?
    ensures SortByKey(PrintMembers(xs).value) == SortByKey(PrintMembers(ys).value)
  {
    EntryTextsApart(xs, ys);
    JoinedEqual(SortedTexts(xs), SortedTexts(ys), OPEN_BRACE, CLOSE_BRACE);
    EntriesEqual(SortByKey(PrintMembers(xs).value), SortByKey(PrintMembers(ys).value));
  }

  lemma {:induction false} EqualPrintsAreSame(a: Json, b: Json)
    requires WellFormed(a) && WellFormed(b) && Print(a).Some? && Print(a) == Print(b)
    ensures Same(a, b)
    decreases a
  {
    PrintStarts(a);
    PrintStarts(b);
    match a
    case Arr(xs) =>
      ArraysPrintEqual(xs, b.items);
      ItemTexts(xs);
      ItemTexts(b.items);
      forall k | 0 <= k < |xs| ensures Same(xs[k], b.items[k]) { EqualPrintsAreSame(xs[k], b.items[k]); }
    case Obj(xs) => EqualObjectsAreSame(xs, b.members);
    case Str(s) =>
      assert Quote(s) + [] == Quote(s) && Quote(b.text) + [] == Quote(b.text);
      QuoteDetermines(s, b.text, [], []);
    case _ =>
  }

  lemma MovesOver(xs: seq<Property>, ys: seq<Property>, i: nat) returns (j: nat)
    requires PrintMembers(xs).Some? && PrintMembers(ys).Some? && i < |xs| && Defined(xs[i])
    requires SortByKey(PrintMembers(xs).value) == SortByKey(PrintMembers(ys).value)
    ensures j < |ys| && Defined(ys[j]) && ys[j].key == xs[i].key
    ensures Print(xs[i].value).Some? && Print(xs[i].value) == Print(ys[j].value)
  {
    MemberTexts(xs);
    MemberTexts(ys);
    SortElements(PrintMembers(xs).value);
    SortElements(PrintMembers(ys).value);
    var m := Member(xs[i].key, Print(xs[i].value).value);
    assert PrintedFrom(ys, m);
    j :| j < |ys| && PrintedAt(ys, m, j);
  }

  lemma {:induction false} EqualObjectsAreSame(xs: seq<Property>, ys: seq<Property>)
    requires WellFormed(Obj(xs)) && WellFormed(Obj(ys)) && Print(Obj(xs)).Some? && Print(Obj(xs)) == Print(Obj(ys))
    ensures Same(Obj(xs), Obj(ys))
    decreases xs
  {
    ObjectsPrintEqual(xs, ys);
    forall i | 0 <= i < |xs| && Defined(xs[i]) ensures HasSame(xs[i], ys) {
      var j := MovesOver(xs, ys, i);
      EqualPrintsAreSame(xs[i].value, ys[j].value);
    }
    forall j | 0 <= j < |ys| && Defined(ys[j]) ensures HasKey(xs, ys[j].key) {
      var i := MovesOver(ys, xs, j);
    }
  }

  // ------------------------------------------------------------------ The same value prints the same

  lemma {:induction false} BeforeIsStrict(a: Text, b: Text)
    ensures !(Before(a, b) && Before(b, a)) && (a == b ==> !Before(a, b)) && (a != b ==> Before(a, b) || Before(b, a))
  {
    if a != [] && b != [] && a[0] == b[0] {
      BeforeIsStrict(a[1..], b[1..]);
      assert a == [a[0]] + a[1..] && b == [b[0]] + b[1..];
    }
  }

  lemma {:induction false} BeforeTransitive(a: Text, b: Text, c: Text)
    requires Before(a, b) && Before(b, c)
    ensures Before(a, c)
  {
    if a != [] && a[0] == b[0] && b[0] == c[0] { BeforeTransitive(a[1..], b[1..], c[1..]); }
  }

  /** Strictly sorted by key. */
  predicate Sorted(members: seq<Member>) {
    forall i, j | 0 <= i < j < |members| :: Before(members[i].key, members[j].key)
  }

  lemma {:induction false} InsertSorts(sorted: seq<Member>, m: Member)
    requires Sorted(sorted) && forall e | e in sorted :: e.key != m.key
    ensures Sorted(Insert(sorted, m))
  {
    if sorted != [] {
      BeforeIsStrict(m.key, sorted[0].key);
      assert sorted[0] in sorted;
      if Before(m.key, sorted[0].key) {
        forall j | 0 <= j < |sorted| ensures Before(m.key, sorted[j].key) {
          if j > 0 { BeforeTransitive(m.key, sorted[0].key, sorted[j].key); }
        }
      } else {
        InsertSorts(sorted[1..], m);
        InsertElements(sorted[1..], m);
        var rest := Insert(sorted[1..], m);
        forall j | 0 <= j < |rest| ensures Before(sorted[0].key, rest[j].key) { assert rest[j] in rest; }
      }
    }
  }

  predicate KeysDiffer(members: seq<Member>) {
    forall i, j | 0 <= i < j < |members| :: members[i].key != members[j].key
  }

  lemma {:induction false} SortSorts(members: seq<Member>)
    requires KeysDiffer(members)
    ensures Sorted(SortByKey(members))
  {
    if members != [] {
      SortSorts(members[1..]);
      SortElements(members[1..]);
      InsertSorts(SortByKey(members[1..]), members[0]);
    }
  }

  lemma FirstIsLeast(ps: seq<Member>, qs: seq<Member>)
    requires Sorted(ps) && Sorted(qs) && ps != [] && qs != [] && (forall e :: e in ps <==> e in qs)
    ensures ps[0] == qs[0]
  {
    var p, q := ps[0], qs[0];
    assert p in qs && q in ps;
    BeforeIsStrict(p.key, q.key);
  }

  /** Two sorted lists with the same elements are the same list. */
  lemma {:induction false} SortedUnique(ps: seq<Member>, qs: seq<Member>)
    requires Sorted(ps) && Sorted(qs) && (forall e :: e in ps <==> e in qs)
    ensures ps == qs
  {
    assert (ps != [] ==> ps[0] in ps) && (qs != [] ==> qs[0] in qs);
    if ps == [] || qs == [] {
    } else {
      FirstIsLeast(ps, qs);
      forall e ensures e in ps[1..] <==> e in qs[1..] {
        BeforeIsStrict(e.key, ps[0].key);
        assert e in ps <==> e == ps[0] || e in ps[1..];
        assert e in qs <==> e == qs[0] || e in qs[1..];
      }
      SortedUnique(ps[1..], qs[1..]);
      assert ps == [ps[0]] + ps[1..] && qs == [qs[0]] + qs[1..];
    }
  }

  lemma {:induction false} PrintedKeysDiffer(members: seq<Property>)
    requires WellFormed(Obj(members)) && PrintMembers(members).Some?
    ensures KeysDiffer(PrintMembers(members).value)
  {
    if members != [] {
      var rest := members[1..];
      assert WellFormed(Obj(rest)) by {
        assert forall k | 0 <= k < |rest| :: rest[k] == members[k + 1];
      }
      if PrintMembers(rest).Some? {
        PrintedKeysDiffer(rest);
        MemberTexts(rest);
        forall m | m in PrintMembers(rest).value ensures m.key != members[0].key {
          assert PrintedFrom(rest, m);
          var k: nat :| k < |rest| && PrintedAt(rest, m, k);
          assert members[0].key != members[k + 1].key;
        }
      }
    }
  }

  lemma {:induction false} SameItems(xs: seq<Json>, ys: seq<Json>)
    requires |xs| == |ys| && forall k | 0 <= k < |xs| :: Print(xs[k]).Some? && Print(xs[k]) == Print(ys[k])
    ensures PrintItems(xs) == PrintItems(ys)
  {
    if xs != [] {
      assert forall k | 0 <= k < |xs| - 1 :: xs[1..][k] == xs[k + 1] && ys[1..][k] == ys[k + 1];
      SameItems(xs[1..], ys[1..]);
    }
  }

  lemma {:induction false} ItemsPrint(xs: seq<Json>)
    requires PrintItems(xs).Some?
    ensures forall k | 0 <= k < |xs| :: Print(xs[k]).Some?
  {
    ItemTexts(xs);
  }

  lemma {:induction false} SamePrintsEqual(a: Json, b: Json)
    requires WellFormed(a) && WellFormed(b) && Print(a).Some? && Print(b).Some? && Same(a, b)
    ensures Print(a) == Print(b)
    decreases a
  {
    match a
    case Arr(xs) =>
      ItemsPrint(xs);
      ItemsPrint(b.items);
      forall k | 0 <= k < |xs| ensures Print(xs[k]) == Print(b.items[k]) { SamePrintsEqual(xs[k], b.items[k]); }
      SameItems(xs, b.items);
    case Obj(xs) => SameObjectsPrintEqual(xs, b.members);
    case _ =>
  }

  lemma {:induction false} SameObjectsPrintEqual(xs: seq<Property>, ys: seq<Property>)
    requires WellFormed(Obj(xs)) && WellFormed(Obj(ys)) && PrintMembers(xs).Some? && PrintMembers(ys).Some?
    requires Same(Obj(xs), Obj(ys))
    ensures Print(Obj(xs)) == Print(Obj(ys))
    decreases xs
  {
    MemberTexts(xs);
    MemberTexts(ys);
    var ps, qs := PrintMembers(xs).value, PrintMembers(ys).value;
    forall i, j | 0 <= i < |xs| && 0 <= j < |ys| && Defined(xs[i]) && Defined(ys[j]) && xs[i].key == ys[j].key
      ensures Print(xs[i].value) == Print(ys[j].value)
    {
      assert HasSame(xs[i], ys);
      var l :| 0 <= l < |ys| && Defined(ys[l]) && xs[i].key == ys[l].key && Same(xs[i].value, ys[l].value);
      assert l == j;
      SamePrintsEqual(xs[i].value, ys[j].value);
    }
    forall m ensures m in ps <==> m in qs {
      if m in ps {
        assert PrintedFrom(xs, m);
        var i: nat :| i < |xs| && PrintedAt(xs, m, i);
        assert HasSame(xs[i], ys);
      }
      if m in qs {
        assert PrintedFrom(ys, m);
        var j: nat :| j < |ys| && PrintedAt(ys, m, j);
        assert HasKey(xs, ys[j].key);
      }
    }
    PrintedKeysDiffer(xs);
    PrintedKeysDiffer(ys);
    SortSorts(ps);
    SortSorts(qs);
    SortElements(ps);
    SortElements(qs);
    SortedUnique(SortByKey(ps), SortByKey(qs));
  }

  /** Two trees that print do so to the same text exactly when they are equal up to member order,
      dropped undefined members and the sign of zero. */
  lemma Unambiguous(a: Json, b: Json)
    requires WellFormed(a) && WellFormed(b) && Print(a).Some? && Print(b).Some?
    ensures Print(a) == Print(b) <==> Same(a, b)
  {
    if Print(a) == Print(b) {
      EqualPrintsAreSame(a, b);
    } else if Same(a, b) {
      SamePrintsEqual(a, b);
    }
  }
}

/** Which user messages a compaction keeps, and how text is shortened to a token budget. */
module Retention {
  import opened Common

  /** A text as JavaScript iterates it: code points, with lone surrogates on their own. */
  type Char = n: nat | n < 0x11_0000

  type Text = seq<Char>

  datatype Part = TextPart(text: Text) | MediaPart(media: nat)

  datatype Content = Plain(text: Text) | Parts(parts: seq<Part>)

  datatype Kind = Unmarked | UserKind | LegacyUnknown | FrameworkKind

  datatype Message = User(kind: Kind, content: Content) | Other(role: nat)

  // ------------------------------------------------------------------ Sizes

  /** Bytes of a character in UTF-8; a lone surrogate is written as the replacement character. */
  function CharBytes(c: Char): nat {
    if c < 0x80 then 1 else if c < 0x800 then 2 else if c < 0x1_0000 then 3 else 4
  }

  /** Bytes of the first `n` characters. */
  function Upto(t: Text, n: nat): nat
    requires n <= |t|
  {
    if n == 0 then 0 else Upto(t, n - 1) + CharBytes(t[n - 1])
  }

  function Bytes(t: Text): nat {
    Upto(t, |t|)
  }

  function CeilDiv4(n: nat): nat {
    (n + 3) / 4
  }

  function Tokens(t: Text): nat {
    CeilDiv4(Bytes(t))
  }

  function PartTokens(parts: seq<Part>): nat {
    if parts == [] then 0
    else PartTokens(parts[..|parts| - 1]) + if parts[|parts| - 1].TextPart? then Tokens(parts[|parts| - 1].text) else 0
  }

  function ContentTokens(c: Content): nat {
    match c
    case Plain(text) => Tokens(text)
    case Parts(parts) => PartTokens(parts)
  }

  function Cost(m: Message): nat {
    if m.User? then Max(1, ContentTokens(m.content)) else 0
  }

  /** A character takes as few bytes as hold its code point: 7, 11, 16 or 21 bits. */
  lemma FewestBytes(c: Char)
    ensures 1 <= CharBytes(c) <= 4
    ensures var room := [0x80, 0x800, 0x1_0000, 0x20_0000];
      c < room[CharBytes(c) - 1] && (CharBytes(c) > 1 ==> room[CharBytes(c) - 2] <= c)
  {
  }

  /** A text is counted as a quarter of its bytes, rounded up; a message costs what its texts count, and
      never nothing. */
  lemma CostOf(m: Message)
    requires m.User?
    ensures Cost(m) >= 1
    ensures m.content.Plain? ==>
      4 * Cost(m) >= Bytes(m.content.text) && (Cost(m) > 1 ==> 4 * (Cost(m) - 1) < Bytes(m.content.text))
    ensures m.content.Parts? && PartTokens(m.content.parts) > 0 ==> Cost(m) == TextTokens(Texts(m.content.parts))
    ensures m.content.Parts? && PartTokens(m.content.parts) == 0 ==>
      Cost(m) == 1 && TextTokens(Texts(m.content.parts)) == 0
  {
    if m.content.Parts? { PartsCount(m.content.parts); }
  }

  lemma {:induction false} PartsCount(parts: seq<Part>)
    ensures PartTokens(parts) == TextTokens(Texts(parts))
    decreases |parts|
  {
    if parts != [] {
      var n := |parts| - 1;
      PartsCount(parts[..n]);
      TextsSplit(parts[..n], parts[n..]);
      assert parts == parts[..n] + parts[n..] && parts[n..] == [parts[n]] && parts[n..][1..] == [];
      assert Texts(parts[n..][1..]) == [];
      CountsSplit(Texts(parts[..n]), Texts(parts[n..]));
      if parts[n].TextPart? { assert Texts(parts[n..]) == [parts[n].text] && [parts[n].text][1..] == []; }
    }
  }

  lemma {:induction false} TextsSplit(a: seq<Part>, b: seq<Part>)
    ensures Texts(a + b) == Texts(a) + Texts(b)
    decreases |a|
  {
    if a == [] {
      assert a + b == b;
    } else {
      TextsSplit(a[1..], b);
      assert (a + b)[1..] == a[1..] + b;
    }
  }

  lemma {:induction false} CountsSplit(a: seq<Text>, b: seq<Text>)
    ensures TextTokens(a + b) == TextTokens(a) + TextTokens(b)
    decreases |a|
  {
    if a == [] {
      assert a + b == b;
    } else {
      CountsSplit(a[1..], b);
      assert (a + b)[1..] == a[1..] + b;
    }
  }

  lemma {:induction false} UptoMonotone(t: Text, i: nat, j: nat)
    requires i <= j <= |t|
    ensures Upto(t, i) <= Upto(t, j) && (i < j ==> Upto(t, i) < Upto(t, j))
  {
    if i < j { UptoMonotone(t, i, j - 1); }
  }

  /** Bytes of the characters from `start` on. */
  function From(t: Text, start: nat): nat
    requires start <= |t|
  {
    UptoMonotone(t, start, |t|);
    Bytes(t) - Upto(t, start)
  }

  // ------------------------------------------------------------------ Shortening text

  /** The longest front, and the start of the longest back, within a number of bytes. */
  predicate IsFront(t: Text, max: nat, n: nat) {
    n <= |t| && Upto(t, n) <= max && (n < |t| ==> Upto(t, n + 1) > max)
  }

  predicate IsBack(t: Text, max: nat, start: nat) {
    start <= |t| && From(t, start) <= max && (start > 0 ==> From(t, start - 1) > max)
  }

  function Front(t: Text, max: nat, n: nat): (front: nat)
    requires n <= |t|
    ensures front <= n
  {
    if Upto(t, n) <= max then n else Front(t, max, n - 1)
  }

  function Back(t: Text, max: nat, start: nat): (back: nat)
    requires start <= |t|
    ensures back <= start
  {
    if start == 0 || From(t, start - 1) > max then start else Back(t, max, start - 1)
  }

  lemma {:induction false} FrontIsFront(t: Text, max: nat, n: nat)
    requires n <= |t| && (n < |t| ==> Upto(t, n + 1) > max)
    ensures IsFront(t, max, Front(t, max, n))
  {
    if Upto(t, n) > max { FrontIsFront(t, max, n - 1); }
  }

  lemma {:induction false} BackIsBack(t: Text, max: nat, start: nat)
    requires start <= |t| && From(t, start) <= max
    ensures IsBack(t, max, Back(t, max, start))
  {
    if start > 0 && From(t, start - 1) <= max { BackIsBack(t, max, start - 1); }
  }

  lemma FrontUnique(t: Text, max: nat, m: nat, n: nat)
    requires IsFront(t, max, m) && IsFront(t, max, n)
    ensures m == n
  {
    if m < n { UptoMonotone(t, m + 1, n); }
    if n < m { UptoMonotone(t, n + 1, m); }
  }

  lemma BackUnique(t: Text, max: nat, m: nat, n: nat)
    requires IsBack(t, max, m) && IsBack(t, max, n)
    ensures m == n
  {
    if m < n { UptoMonotone(t, m, n - 1); }
    if n < m { UptoMonotone(t, n, m - 1); }
  }

  method TakePrefix(text: Text, max: nat) returns (result: Text)
    ensures result == text[..Front(text, max, |text|)]
  {
    result := [];
    var bytes := 0;
    for i := 0 to |text|
      invariant result == text[..i] && bytes == Upto(text, i) <= max
    {
      var size := CharBytes(text[i]);
      if bytes + size > max {
        FrontIsFront(text, max, |text|);
        FrontUnique(text, max, i, Front(text, max, |text|));
        return;
      }
      result := result + [text[i]];
      bytes := bytes + size;
    }
    FrontIsFront(text, max, |text|);
    FrontUnique(text, max, |text|, Front(text, max, |text|));
  }

  method TakeSuffix(text: Text, max: nat) returns (result: Text)
    ensures result == text[Back(text, max, |text|)..]
  {
    result := [];
    var bytes := 0;
    for index := |text| downto 0
      invariant result == text[index..] && bytes == From(text, index) <= max
    {
      var size := CharBytes(text[index]);
      if bytes + size > max {
        BackIsBack(text, max, |text|);
        BackUnique(text, max, index + 1, Back(text, max, |text|));
        return;
      }
      result := [text[index]] + result;
      bytes := bytes + size;
    }
    BackIsBack(text, max, |text|);
    BackUnique(text, max, 0, Back(text, max, |text|));
  }

  function Digits(n: nat): Text {
    if n < 10 then [0x30 + n] else Digits(n / 10) + [0x30 + n % 10]
  }

  const ELLIPSIS: Char := 0x2026

  /** The words between the kept front and back. */
  function Marker(removed: nat): Text {
    [ELLIPSIS] + Digits(removed)
      + [0x20, 0x74, 0x6F, 0x6B, 0x65, 0x6E, 0x73, 0x20, 0x74, 0x72, 0x75, 0x6E, 0x63, 0x61, 0x74, 0x65, 0x64]
      + [ELLIPSIS]
  }

  function Codes(s: string): Text {
    seq(|s|, i requires 0 <= i < |s| => if s[i] as int < 0x11_0000 then s[i] as int else 0)
  }

  /** The number that decimal digits stand for. */
  function Value(digits: Text): int {
    if digits == [] then 0 else Value(digits[..|digits| - 1]) * 10 + (digits[|digits| - 1] as int - 0x30)
  }

  lemma {:induction false} DigitsRead(n: nat)
    ensures Value(Digits(n)) == n && forall c | c in Digits(n) :: 0x30 <= c <= 0x39
  {
    if n >= 10 {
      DigitsRead(n / 10);
      assert Digits(n)[..|Digits(n)| - 1] == Digits(n / 10);
    } else {
      assert Digits(n)[..0] == [] && Value([]) == 0;
    }
  }

  /** The marker says in words how many tokens are missing: the bytes left out, in quarters rounded up. */
  lemma MarkerSays(bytes: nat, max: nat)
    ensures var removed := Removed(bytes, max);
      && Marker(removed) == [ELLIPSIS] + Digits(removed) + Codes(" tokens truncated") + [ELLIPSIS]
      && Value(Digits(removed)) == removed
      && (bytes <= max ==> removed == 0)
      && (bytes > max ==> bytes - max <= 4 * removed < bytes - max + 4)
  {
    DigitsRead(Removed(bytes, max));
    var words := " tokens truncated";
    assert Codes(words) == [0x20, 0x74, 0x6F, 0x6B, 0x65, 0x6E, 0x73, 0x20,
                            0x74, 0x72, 0x75, 0x6E, 0x63, 0x61, 0x74, 0x65, 0x64];
  }

  function Removed(bytes: nat, max: nat): nat {
    if bytes <= max then 0 else CeilDiv4(bytes - max)
  }

  function Cut(t: Text, front: nat, back: nat, removed: nat): Text
    requires front <= |t| && back <= |t|
  {
    t[..front] + Marker(removed) + t[back..]
  }

  function Shorten(t: Text, maxTokens: nat): Text {
    var max := maxTokens * 4;
    if maxTokens > 0 && Bytes(t) <= max then t
    else Cut(t, Front(t, max / 2, |t|), Back(t, max - max / 2, |t|), Removed(Bytes(t), max))
  }

  /** The front and back that fit, with the marker between them. */
  method CutMiddle(text: Text, leftBudget: nat, rightBudget: nat, removed: nat) returns (r: Text)
    ensures r == Cut(text, Front(text, leftBudget, |text|), Back(text, rightBudget, |text|), removed)
  {
    var left := TakePrefix(text, leftBudget);
    var right := TakeSuffix(text, rightBudget);
    r := left + Marker(removed) + right;
  }

  method TruncateMiddle(text: Text, maxTokens: nat) returns (r: Text)
    ensures r == Shorten(text, maxTokens)
  {
    var max, total := maxTokens * 4, Bytes(text);
    if maxTokens > 0 && total <= max { return text; }
    var leftBudget := max / 2;
    r := CutMiddle(text, leftBudget, max - leftBudget, Removed(total, max));
  }

  /** A front and a back of whole characters that do not meet, within four bytes per token. */
  predicate CutWithin(t: Text, maxTokens: nat, front: nat, back: nat) {
    front <= back <= |t| && (maxTokens > 0 ==> front < back) && Upto(t, front) + From(t, back) <= maxTokens * 4
  }

  lemma FrontAndBack(t: Text, left: nat, right: nat, front: nat, back: nat)
    requires IsFront(t, left, front) && IsBack(t, right, back)
    requires left + right < Bytes(t) || left + right == 0
    ensures front <= back && (left + right > 0 ==> front < back)
  {
    if left + right == 0 {
      UptoMonotone(t, 0, front);
      UptoMonotone(t, back, |t|);
    } else if back <= front {
      UptoMonotone(t, back, front);
    }
  }

  lemma CutFits(t: Text, left: nat, right: nat)
    requires left + right < Bytes(t) || left + right == 0
    ensures var front, back := Front(t, left, |t|), Back(t, right, |t|);
      front <= back <= |t| && (left + right > 0 ==> front < back) && Upto(t, front) + From(t, back) <= left + right
  {
    FrontIsFront(t, left, |t|);
    BackIsBack(t, right, |t|);
    FrontAndBack(t, left, right, Front(t, left, |t|), Back(t, right, |t|));
  }

  lemma WithinBudget(t: Text, maxTokens: nat)
    ensures Tokens(t) <= maxTokens <==> Bytes(t) <= maxTokens * 4
  {
  }

  /** Text within the budget stays; any other text keeps a front and a back within the budget. */
  lemma ShortenedText(t: Text, maxTokens: nat, left: nat, right: nat)
    requires left == maxTokens * 4 / 2 && left + right == maxTokens * 4
    ensures maxTokens > 0 && Tokens(t) <= maxTokens ==> Shorten(t, maxTokens) == t
    ensures !(maxTokens > 0 && Tokens(t) <= maxTokens) ==>
      var front, back := Front(t, left, |t|), Back(t, right, |t|);
      CutWithin(t, maxTokens, front, back)
      && Shorten(t, maxTokens) == Cut(t, front, back, Removed(Bytes(t), maxTokens * 4))
  {
    WithinBudget(t, maxTokens);
    if !(maxTokens > 0 && Bytes(t) <= maxTokens * 4) {
      CutFits(t, left, right);
    }
  }

  // ------------------------------------------------------------------ Shortening a message

  function KeepParts(parts: seq<Part>, remaining: nat): seq<Part> {
    if parts == [] then []
    else if parts[0].MediaPart? then [parts[0]] + KeepParts(parts[1..], remaining)
    else if remaining == 0 then KeepParts(parts[1..], 0)
    else if Tokens(parts[0].text) <= remaining
      then [parts[0]] + KeepParts(parts[1..], remaining - Tokens(parts[0].text))
    else
      var text := Shorten(parts[0].text, remaining);
      (if text == [] then [] else [TextPart(text)]) + KeepParts(parts[1..], 0)
  }

  function Shortened(c: Content, maxTokens: nat): Option<Content> {
    match c
    case Plain(text) => Some(Plain(Shorten(text, maxTokens)))
    case Parts(parts) =>
      var kept := KeepParts(parts, maxTokens);
      if kept == [] then None else Some(Parts(kept))
  }

  lemma Reassociate(content: seq<Part>, kept: seq<Part>, rest: seq<Part>)
    ensures content + (kept + rest) == (content + kept) + rest
  {
  }

  method TruncateParts(parts: seq<Part>, maxTokens: nat) returns (content: seq<Part>)
    ensures content == KeepParts(parts, maxTokens)
  {
    var remaining: nat := maxTokens;
    content := [];
    for i := 0 to |parts|
      invariant content + KeepParts(parts[i..], remaining) == KeepParts(parts, maxTokens)
    {
      var part := parts[i];
      assert parts[i..][1..] == parts[i + 1..];
      var kept := [part];
      if part.TextPart? {
        if remaining == 0 {
          kept := [];
        } else if Tokens(part.text) <= remaining {
          remaining := remaining - Tokens(part.text);
        } else {
          var text := TruncateMiddle(part.text, remaining);
          remaining := 0;
          kept := if |text| > 0 then [TextPart(text)] else [];
        }
      }
      Reassociate(content, kept, KeepParts(parts[i + 1..], remaining));
      content := content + kept;
    }
    assert content + [] == content;
  }

  method TruncateUserMessage(m: Message, maxTokens: nat) returns (r: Option<Message>)
    requires m.User?
    ensures r == match Shortened(m.content, maxTokens)
                 case None => None
                 case Some(content) => Some(m.(content := content))
  {
    if m.content.Plain? {
      var text := TruncateMiddle(m.content.text, maxTokens);
      return Some(m.(content := Plain(text)));
    }
    var content := TruncateParts(m.content.parts, maxTokens);
    r := if content == [] then None else Some(m.(content := Parts(content)));
  }

  function Media(parts: seq<Part>): seq<Part> {
    if parts == [] then []
    else if parts[0].MediaPart? then [parts[0]] + Media(parts[1..])
    else Media(parts[1..])
  }

  function Texts(parts: seq<Part>): seq<Text> {
    if parts == [] then []
    else if parts[0].TextPart? then [parts[0].text] + Texts(parts[1..])
    else Texts(parts[1..])
  }

  function TextTokens(texts: seq<Text>): nat {
    if texts == [] then 0 else Tokens(texts[0]) + TextTokens(texts[1..])
  }

  lemma MarkedIsNonempty(t: Text, maxTokens: nat)
    requires Tokens(t) > maxTokens
    ensures Shorten(t, maxTokens) != []
  {
  }

  /** Of texts, the first `whole` are kept, and the next is shortened to what is left of the budget. */
  predicate KeptTexts(all: seq<Text>, kept: seq<Text>, budget: nat, whole: nat) {
    && whole <= |all| && TextTokens(all[..whole]) <= budget
    && var left := budget - TextTokens(all[..whole]);
       if left <= 0 || whole == |all| then kept == all[..whole]
       else Tokens(all[whole]) > left && kept == all[..whole] + [Shorten(all[whole], left)]
  }

  lemma KeepOneMore(t: Text, all: seq<Text>, kept: seq<Text>, budget: nat, whole: nat)
    requires Tokens(t) <= budget && KeptTexts(all, kept, budget - Tokens(t), whole)
    ensures KeptTexts([t] + all, [t] + kept, budget, whole + 1)
  {
    assert ([t] + all)[..whole + 1] == [t] + all[..whole];
    assert ([t] + all[..whole])[1..] == all[..whole];
  }

  /** Every medium stays; of the texts a front stays within the budget, then one shortened text. */
  lemma {:induction false} KeptPartsShape(parts: seq<Part>, budget: nat) returns (whole: nat)
    ensures Media(KeepParts(parts, budget)) == Media(parts)
    ensures KeptTexts(Texts(parts), Texts(KeepParts(parts, budget)), budget, whole)
    decreases |parts|
  {
    whole := 0;
    if parts != [] {
      var rest := parts[1..];
      if parts[0].MediaPart? {
        whole := KeptPartsShape(rest, budget);
        assert KeepParts(parts, budget)[1..] == KeepParts(rest, budget);
      } else if budget == 0 {
        MediaKept(parts);
        NothingKept(parts);
      } else if Tokens(parts[0].text) <= budget {
        var more := KeptPartsShape(rest, budget - Tokens(parts[0].text));
        FirstKept(parts, budget, more);
        whole := more + 1;
      } else {
        ShortenedFirst(parts, budget);
      }
    }
  }

  lemma FirstKept(parts: seq<Part>, budget: nat, more: nat)
    requires parts != [] && parts[0].TextPart? && budget > 0 && Tokens(parts[0].text) <= budget
    requires var less := budget - Tokens(parts[0].text);
      && Media(KeepParts(parts[1..], less)) == Media(parts[1..])
      && KeptTexts(Texts(parts[1..]), Texts(KeepParts(parts[1..], less)), less, more)
    ensures Media(KeepParts(parts, budget)) == Media(parts)
    ensures KeptTexts(Texts(parts), Texts(KeepParts(parts, budget)), budget, more + 1)
  {
    var rest := KeepParts(parts[1..], budget - Tokens(parts[0].text));
    TextFirst(parts[0], rest);
    assert KeepParts(parts, budget) == [parts[0]] + rest;
    KeepOneMore(parts[0].text, Texts(parts[1..]), Texts(rest), budget, more);
  }

  lemma TextFirst(p: Part, rest: seq<Part>)
    requires p.TextPart?
    ensures Texts([p] + rest) == [p.text] + Texts(rest) && Media([p] + rest) == Media(rest)
  {
    assert ([p] + rest)[1..] == rest;
  }

  lemma ShortenedFirst(parts: seq<Part>, budget: nat)
    requires parts != [] && parts[0].TextPart? && budget > 0 && Tokens(parts[0].text) > budget
    ensures Media(KeepParts(parts, budget)) == Media(parts)
    ensures KeptTexts(Texts(parts), Texts(KeepParts(parts, budget)), budget, 0)
    decreases |parts|, 0
  {
    var rest, kept := parts[1..], KeepParts(parts, budget);
    MediaKept(rest);
    NothingKept(rest);
    MarkedIsNonempty(parts[0].text, budget);
    assert kept[1..] == KeepParts(rest, 0);
    assert Texts(parts)[..0] == [];
  }

  lemma {:induction false} MediaKept(parts: seq<Part>)
    ensures Media(KeepParts(parts, 0)) == Media(parts)
  {
    if parts != [] {
      MediaKept(parts[1..]);
      if parts[0].MediaPart? { assert KeepParts(parts, 0)[1..] == KeepParts(parts[1..], 0); }
    }
  }

  lemma {:induction false} NothingKept(parts: seq<Part>)
    ensures Texts(KeepParts(parts, 0)) == []
  {
    if parts != [] {
      NothingKept(parts[1..]);
      if parts[0].MediaPart? { assert KeepParts(parts, 0)[1..] == KeepParts(parts[1..], 0); }
    }
  }

  /** Parts are kept in their order: each kept part is one of the parts, or one text of them shortened. */
  predicate InOrder(parts: seq<Part>, kept: seq<Part>, at: seq<nat>) {
    && |at| == |kept| && (forall i, j | 0 <= i < j < |at| :: at[i] < at[j])
    && (forall i | 0 <= i < |at| :: at[i] < |parts| &&
          (kept[i] == parts[at[i]] || (kept[i].TextPart? && parts[at[i]].TextPart?)))
  }

  lemma SkipFirst(parts: seq<Part>, kept: seq<Part>, at: seq<nat>)
    requires parts != [] && InOrder(parts[1..], kept, at)
    ensures InOrder(parts, kept, Shifted(at))
  {
    forall i | 0 <= i < |at| ensures parts[Shifted(at)[i]] == parts[1..][at[i]] {
    }
  }

  lemma TakeFirst(parts: seq<Part>, first: Part, kept: seq<Part>, at: seq<nat>)
    requires parts != [] && InOrder(parts[1..], kept, at)
    requires first == parts[0] || (first.TextPart? && parts[0].TextPart?)
    ensures InOrder(parts, [first] + kept, [0] + Shifted(at))
  {
    SkipFirst(parts, kept, at);
    var longer := [0] + Shifted(at);
    forall i | 0 < i < |longer| ensures longer[i] == Shifted(at)[i - 1] && ([first] + kept)[i] == kept[i - 1] {
    }
  }

  lemma {:induction false} KeptPartsInOrder(parts: seq<Part>, budget: nat) returns (at: seq<nat>)
    ensures InOrder(parts, KeepParts(parts, budget), at)
    decreases |parts|
  {
    at := [];
    if parts != [] {
      var left := if parts[0].MediaPart? then budget
                  else if Tokens(parts[0].text) <= budget then budget - Tokens(parts[0].text) else 0;
      var rest := KeptPartsInOrder(parts[1..], left);
      at := FirstInOrder(parts, budget, left, rest);
    }
  }

  lemma FirstInOrder(parts: seq<Part>, budget: nat, left: nat, rest: seq<nat>) returns (at: seq<nat>)
    requires parts != [] && InOrder(parts[1..], KeepParts(parts[1..], left), rest)
    requires left == if parts[0].MediaPart? then budget
                     else if Tokens(parts[0].text) <= budget then budget - Tokens(parts[0].text) else 0
    ensures InOrder(parts, KeepParts(parts, budget), at)
  {
    var later := KeepParts(parts[1..], left);
    if KeepParts(parts, budget) == later {
      SkipFirst(parts, later, rest);
      at := Shifted(rest);
    } else {
      var first := KeepParts(parts, budget)[0];
      assert KeepParts(parts, budget) == [first] + later;
      TakeFirst(parts, first, later, rest);
      at := [0] + Shifted(rest);
    }
  }

  function Shifted(at: seq<nat>): seq<nat> {
    seq(|at|, i requires 0 <= i < |at| => at[i] + 1)
  }

  // ------------------------------------------------------------------ Selecting messages

  predicate Eligible(m: Message) {
    m.User? && m.kind != FrameworkKind
  }

  function Users(messages: seq<Message>): (users: seq<Message>)
    ensures forall m | m in users :: Eligible(m)
  {
    if messages == [] then []
    else Users(messages[..|messages| - 1])
         + if Eligible(messages[|messages| - 1]) then [messages[|messages| - 1]] else []
  }

  function TotalCost(users: seq<Message>): nat {
    if users == [] then 0 else Cost(users[0]) + TotalCost(users[1..])
  }

  /** What is kept: whole messages from `from` on, none of them once the budget is used up, and before
      them one shortened message if some of the budget was left over. */
  predicate Kept(users: seq<Message>, retained: seq<Message>, budget: nat, from: nat) {
    && from <= |users| && TotalCost(users[from..]) <= budget
    && (from < |users| ==> TotalCost(users[from + 1..]) < budget)
    && var left := budget - TotalCost(users[from..]);
       if left <= 0 || from == 0 then retained == users[from..]
       else
         && users[from - 1].User? && Cost(users[from - 1]) > left && Shortened(users[from - 1].content, left).Some?
         && retained == [users[from - 1].(content := Shortened(users[from - 1].content, left).value)] + users[from..]
  }

  /** A message too long for what is left never vanishes: some of it is always kept. */
  lemma ShortenedNeverVanishes(m: Message, left: nat)
    requires m.User? && Cost(m) > left > 0
    ensures Shortened(m.content, left).Some?
  {
    if m.content.Parts? {
      var parts := m.content.parts;
      var whole := KeptPartsShape(parts, left);
      SomeText(parts);
      if whole == 0 {
        assert Texts(KeepParts(parts, left)) == [] + [Shorten(Texts(parts)[0], left)];
      } else {
        assert Texts(KeepParts(parts, left))[0] == Texts(parts)[0];
      }
    }
  }

  lemma {:induction false} SomeText(parts: seq<Part>)
    requires PartTokens(parts) > 0
    ensures Texts(parts) != []
  {
    var n := |parts| - 1;
    if parts[n].TextPart? {
      HasText(parts, n);
    } else {
      SomeText(parts[..n]);
      TextsPrefix(parts, n);
    }
  }

  lemma {:induction false} HasText(parts: seq<Part>, k: nat)
    requires k < |parts| && parts[k].TextPart?
    ensures Texts(parts) != []
  {
    if k > 0 { HasText(parts[1..], k - 1); }
  }

  lemma {:induction false} TextsPrefix(parts: seq<Part>, n: nat)
    requires n <= |parts| && Texts(parts[..n]) != []
    ensures Texts(parts) != []
  {
    if n > 0 && !parts[0].TextPart? {
      assert parts[..n][1..] == parts[1..][..n - 1];
      TextsPrefix(parts[1..], n - 1);
    }
  }

  lemma {:induction false} LaterCostsLess(users: seq<Message>, i: nat, j: nat)
    requires i <= j <= |users|
    ensures TotalCost(users[j..]) <= TotalCost(users[i..])
    decreases j - i
  {
    if i < j {
      LaterCostsLess(users, i + 1, j);
      assert users[i..][1..] == users[i + 1..];
    }
  }

  lemma OneMoreCosts(users: seq<Message>, j: nat)
    requires 0 < j <= |users|
    ensures TotalCost(users[j - 1..]) == Cost(users[j - 1]) + TotalCost(users[j..])
  {
    assert users[j - 1..][1..] == users[j..];
  }

  /** One message further back the budget does not reach. */
  lemma BudgetEnds(users: seq<Message>, retained: seq<Message>, budget: nat, from: nat)
    requires Kept(users, retained, budget, from) && from > 0
    ensures TotalCost(users[from..]) == budget || TotalCost(users[from - 1..]) > budget
  {
    OneMoreCosts(users, from);
  }

  lemma KeptNoEarlier(users: seq<Message>, a: seq<Message>, b: seq<Message>, budget: nat, i: nat, j: nat)
    requires Kept(users, a, budget, i) && Kept(users, b, budget, j)
    ensures j <= i
  {
    if i < j {
      BudgetEnds(users, b, budget, j);
      LaterCostsLess(users, i + 1, j);
      LaterCostsLess(users, i, j - 1);
    }
  }

  /** The budget leaves no choice: two lists kept of the same messages are equal. */
  lemma KeptIsUnique(users: seq<Message>, a: seq<Message>, b: seq<Message>, budget: nat, i: nat, j: nat)
    requires Kept(users, a, budget, i) && Kept(users, b, budget, j)
    ensures i == j && a == b
  {
    KeptNoEarlier(users, a, b, budget, i, j);
    KeptNoEarlier(users, b, a, budget, j, i);
  }

  /** The newest messages that the budget pays for are kept whole and at the end, and no earlier ones could be paid
      for as well; a shortened one stands before them exactly when there is an earlier one and some budget left. */
  lemma NewestThatFit(users: seq<Message>, retained: seq<Message>, budget: nat, from: nat)
    requires Kept(users, retained, budget, from) && forall m | m in users :: m.User?
    ensures TotalCost(users[from..]) <= budget
    ensures forall k | 0 <= k <= |users| :: TotalCost(users[k..]) <= budget <==> from <= k
    ensures if from > 0 && TotalCost(users[from..]) < budget
      then |retained| == 1 + |users| - from && retained[1..] == users[from..]
      else retained == users[from..]
  {
    forall k | 0 <= k <= |users| ensures TotalCost(users[k..]) <= budget <==> from <= k {
      if from <= k {
        LaterCostsLess(users, from, k);
      } else {
        BudgetEnds(users, retained, budget, from);
        LaterCostsLess(users, k, from - 1);
        OneMoreCosts(users, from);
        assert users[from - 1] in users;
      }
    }
  }

  /** Costs add up. */
  lemma {:induction false} CostsAddUp(a: seq<Message>, b: seq<Message>)
    ensures TotalCost(a + b) == TotalCost(a) + TotalCost(b)
    ensures |a| == 1 ==> TotalCost(a) == Cost(a[0])
  {
    if a == [] {
      assert a + b == b;
    } else {
      CostsAddUp(a[1..], b);
      assert (a + b)[1..] == a[1..] + b;
    }
  }

  predicate WrittenByPeople(kind: Kind) {
    kind.Unmarked? || kind.UserKind? || kind.LegacyUnknown?
  }

  /** The positions of what people wrote: every user message that is not marked as the framework's, in the
      order of the conversation. */
  predicate Positions(messages: seq<Message>, at: seq<nat>) {
    && (forall i, j | 0 <= i < j < |at| :: at[i] < at[j])
    && (forall i | 0 <= i < |at| :: at[i] < |messages|)
    && (forall k | 0 <= k < |messages| :: k in at <==>
          messages[k].User? && WrittenByPeople(messages[k].kind))
  }

  function At(messages: seq<Message>, at: seq<nat>): seq<Message>
    requires forall i | 0 <= i < |at| :: at[i] < |messages|
  {
    seq(|at|, i requires 0 <= i < |at| => messages[at[i]])
  }

  /** The newest messages are kept, in order, as many as the budget allows, and before them what still fits
      of the next older one. */
  ghost predicate Selected(messages: seq<Message>, retained: seq<Message>, budget: nat, at: seq<nat>, from: nat) {
    Positions(messages, at) && Kept(At(messages, at), retained, budget, from)
  }

  lemma OneMorePosition(messages: seq<Message>, before: seq<nat>)
    requires messages != [] && Positions(messages[..|messages| - 1], before)
    ensures var n := |messages| - 1; Positions(messages, before + if Eligible(messages[n]) then [n] else [])
  {
    var n := |messages| - 1;
    var at := before + if Eligible(messages[n]) then [n] else [];
    forall k | 0 <= k < n ensures k in at <==> k in before {
    }
    forall k | 0 <= k < n ensures messages[k] == messages[..n][k] {
    }
    assert n !in before;
  }

  lemma {:induction false} UsersAt(messages: seq<Message>) returns (at: seq<nat>)
    ensures Positions(messages, at) && Users(messages) == At(messages, at)
    decreases |messages|
  {
    at := [];
    if messages != [] {
      var n := |messages| - 1;
      var before := UsersAt(messages[..n]);
      OneMorePosition(messages, before);
      at := before + if Eligible(messages[n]) then [n] else [];
      SamePlaces(messages, before);
      assert At(messages, at) == At(messages, before) + if Eligible(messages[n]) then [messages[n]] else [];
    }
  }

  lemma SamePlaces(messages: seq<Message>, at: seq<nat>)
    requires messages != [] && forall i | 0 <= i < |at| :: at[i] < |messages| - 1
    ensures At(messages, at) == At(messages[..|messages| - 1], at)
  {
  }

  ghost predicate IsSelection(messages: seq<Message>, retained: seq<Message>, budget: nat) {
    exists at, from :: Selected(messages, retained, budget, at, from)
  }

  lemma KeptIsSelected(messages: seq<Message>, retained: seq<Message>, budget: nat, from: nat)
    requires Kept(Users(messages), retained, budget, from)
    ensures IsSelection(messages, retained, budget)
  {
    var at := UsersAt(messages);
    assert Selected(messages, retained, budget, at, from);
  }

  /** Takes the newest messages while the budget lasts. */
  method SelectNewest(users: seq<Message>, maxTokens: nat) returns (retained: seq<Message>, ghost from: nat)
    requires forall m | m in users :: m.User?
    ensures Kept(users, retained, maxTokens, from)
  {
    retained := [];
    var index := |users|;
    var remaining: nat := maxTokens;
    assert users[|users|..] == [];
    while index > 0 && remaining > 0
      invariant 0 <= index <= |users| && retained == users[index..]
      invariant TotalCost(users[index..]) + remaining == maxTokens
      invariant index < |users| ==> TotalCost(users[index + 1..]) < maxTokens
      decreases index
    {
      var message := users[index - 1];
      assert message in users;
      var tokens := Cost(message);
      assert users[index - 1..] == [message] + users[index..];
      if tokens <= remaining {
        retained := [message] + retained;
        assert retained == users[index - 1..];
        remaining := remaining - tokens;
        index := index - 1;
      } else {
        ShortenedNeverVanishes(message, remaining);
        var truncated := TruncateUserMessage(message, remaining);
        retained := (if truncated.Some? then [truncated.value] else []) + retained;
        from := index;
        return;
      }
    }
    from := index;
  }

  method SelectRetained(messages: seq<Message>, maxTokens: nat) returns (retained: seq<Message>)
    ensures IsSelection(messages, retained, maxTokens)
  {
    ghost var from;
    retained, from := SelectNewest(Users(messages), maxTokens);
    KeptIsSelected(messages, retained, maxTokens, from);
  }
}

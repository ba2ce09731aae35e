/**
 What the canonical text says: it is the JSON text of the value as sections 2 to 7 of RFC 8259 write it, without
 white space, with the keys of every object in ascending order of their code units.
 */
module JsonGrammar {
  import opened Common
  import opened JsonText
  import opened JsonStrings
  import opened CanonicalJson

  /** Parts separated by commas. */
  function Commas(parts: seq<Text>): Text {
    if parts == [] then []
    else if |parts| == 1 then parts[0]
    else Commas(parts[..|parts| - 1]) + Units(",") + parts[|parts| - 1]
  }

  /** A quoted string, with its escapes, that stands for `s`. */
  predicate IsString(t: Text, s: Text) {
    t != [] && t[0] == '\"' as int && Unbody(t[1..]) == Some((s, []))
  }

  predicate Precedes(a: Text, b: Text, k: nat) {
    k <= |a| && k < |b| && a[..k] == b[..k] && (k < |a| ==> a[k] < b[k])
  }

  /** `a` comes before `b`: at the first difference it has the smaller unit, or it ends there. */
  ghost predicate Ascends(a: Text, b: Text) {
    exists k: nat :: Precedes(a, b, k)
  }

  /** The members that are written, in the order they are written, and the texts of their keys and values. */
  datatype Written = Written(at: seq<nat>, keys: seq<Text>, values: seq<Text>)

  /** Every defined member is written once, in ascending order of keys. */
  ghost predicate WrittenOnce(members: seq<Property>, w: Written) {
    && |w.keys| == |w.values| == |w.at|
    && (forall i | 0 <= i < |w.at| :: w.at[i] < |members| && Defined(members[w.at[i]])
                                      && IsString(w.keys[i], members[w.at[i]].key))
    && (forall k: nat | k < |members| && Defined(members[k]) :: k in w.at)
    && (forall i, j | 0 <= i < j < |w.at| && w.at[i] < |members| && w.at[j] < |members| ::
          Ascends(members[w.at[i]].key, members[w.at[j]].key))
  }

  function Entries(w: Written): seq<Text>
    requires |w.keys| == |w.values|
  {
    seq(|w.keys|, i requires 0 <= i < |w.keys| => w.keys[i] + Units(":") + w.values[i])
  }

  /** The text is the JSON text of the value. */
  ghost predicate Denotes(t: Text, j: Json)
    decreases j
  {
    match j
    case Null => t == Units("null")
    case Bool(b) => t == Units(if b then "true" else "false")
    case Num(Zero(_)) => t == Units("0")
    case Num(Finite(text)) => t == text
    case Num(NonFinite) => false
    case Str(s) => IsString(t, s)
    case Arr(items) =>
      exists parts: seq<Text> ::
        && |parts| == |items| && t == Units("[") + Commas(parts) + Units("]")
        && forall k | 0 <= k < |items| :: Denotes(parts[k], items[k])
    case Obj(members) =>
      exists w: Written ::
        && WrittenOnce(members, w) && t == Units("{") + Commas(Entries(w)) + Units("}")
        && forall k, i | 0 <= k < |members| && 0 <= i < |w.at| && w.at[i] == k :: Denotes(w.values[i], members[k].value)
    case Undefined => false
    case Unsupported => false
  }

  lemma Letters()
    ensures Units("null") == NullText() && Units("true") == TrueText() && Units("false") == FalseText()
    ensures Units("0") == [0x30] && Units(",") == [COMMA] && Units(":") == [COLON]
    ensures Units("[") == [OPEN_BRACKET] && Units("]") == [CLOSE_BRACKET]
    ensures Units("{") == [OPEN_BRACE] && Units("}") == [CLOSE_BRACE]
  {
  }

  lemma {:induction false} JoinIsCommas(parts: seq<Text>)
    ensures Join(parts) == Commas(parts)
    decreases |parts|
  {
    Letters();
    if |parts| > 1 {
      var n := |parts| - 1;
      JoinIsCommas(parts[1..]);
      JoinLast(parts);
      JoinIsCommas(parts[..n]);
    }
  }

  lemma {:induction false} JoinLast(parts: seq<Text>)
    requires |parts| > 1
    ensures Join(parts) == Join(parts[..|parts| - 1]) + [COMMA] + parts[|parts| - 1]
    decreases |parts|
  {
    var n := |parts| - 1;
    if n == 1 {
      assert parts[1..] == [parts[1]] && parts[..1] == [parts[0]];
    } else {
      JoinLast(parts[1..]);
      assert parts[1..][..n - 1] == parts[..n][1..];
    }
  }

  lemma {:induction false} QuoteIsString(s: Text)
    ensures IsString(Quote(s), s)
  {
    UnbodyBody(s, []);
    Opened(s, []);
    assert Quote(s) + [] == Quote(s);
  }

  lemma {:induction false} BeforeAscends(a: Text, b: Text)
    requires Before(a, b)
    ensures Ascends(a, b)
    decreases |a|
  {
    if a == [] || a[0] < b[0] {
      assert Precedes(a, b, 0);
    } else {
      BeforeAscends(a[1..], b[1..]);
      var k: nat :| Precedes(a[1..], b[1..], k);
      assert a[..k + 1] == [a[0]] + a[1..][..k] && b[..k + 1] == [b[0]] + b[1..][..k];
      assert Precedes(a, b, k + 1);
    }
  }

  // ------------------------------------------------------------------ Arrays and objects

  lemma {:induction false} ArrayDenotes(items: seq<Json>, texts: seq<Text>)
    requires |texts| == |items| && forall k | 0 <= k < |items| :: Denotes(texts[k], items[k])
    ensures Denotes([OPEN_BRACKET] + (Join(texts) + [CLOSE_BRACKET]), Arr(items))
  {
    Letters();
    JoinIsCommas(texts);
    assert [OPEN_BRACKET] + (Join(texts) + [CLOSE_BRACKET]) == Units("[") + Commas(texts) + Units("]");
  }

  /** Which member each of the sorted entries comes from. */
  lemma {:induction false} Sources(members: seq<Property>, sorted: seq<Member>) returns (at: seq<nat>)
    requires forall m | m in sorted :: PrintedFrom(members, m)
    ensures |at| == |sorted| && forall i | 0 <= i < |at| :: PrintedAt(members, sorted[i], at[i])
  {
    at := [];
    if sorted != [] {
      var rest := Sources(members, sorted[1..]);
      assert PrintedFrom(members, sorted[0]);
      var k: nat :| k < |members| && PrintedAt(members, sorted[0], k);
      at := [k] + rest;
    }
  }

  function WrittenAs(sorted: seq<Member>, at: seq<nat>): (w: Written)
    requires |at| == |sorted|
    ensures |w.keys| == |w.values| == |w.at| == |sorted|
  {
    Written(at, seq(|sorted|, i requires 0 <= i < |sorted| => Quote(sorted[i].key)),
            seq(|sorted|, i requires 0 <= i < |sorted| => sorted[i].text))
  }

  lemma {:induction false} SameEntries(sorted: seq<Member>, at: seq<nat>)
    requires |at| == |sorted|
    ensures Entries(WrittenAs(sorted, at)) == EntryTexts(sorted)
  {
    Letters();
    var w := WrittenAs(sorted, at);
    forall i | 0 <= i < |at| ensures Entries(w)[i] == EntryTexts(sorted)[i] {
      assert w.keys[i] + [COLON] + w.values[i] == Quote(sorted[i].key) + ([COLON] + sorted[i].text);
    }
  }

  /** The entries come from the members at these places, and every defined member has one. */
  predicate ComeFrom(members: seq<Property>, sorted: seq<Member>, at: seq<nat>) {
    && |at| == |sorted| && (forall i | 0 <= i < |at| :: PrintedAt(members, sorted[i], at[i]))
    && (forall k: nat | k < |members| && Defined(members[k]) :: k in at)
  }

  lemma {:induction false} SortedWrites(members: seq<Property>, sorted: seq<Member>, at: seq<nat>)
    requires ComeFrom(members, sorted, at) && Sorted(sorted)
    ensures WrittenOnce(members, WrittenAs(sorted, at))
  {
    forall i | 0 <= i < |at| ensures IsString(Quote(sorted[i].key), members[at[i]].key) {
      QuoteIsString(sorted[i].key);
    }
    forall i, j | 0 <= i < j < |at| ensures Ascends(members[at[i]].key, members[at[j]].key) {
      BeforeAscends(sorted[i].key, sorted[j].key);
    }
  }

  /** Keys differ, so an entry under a member's key comes from that member. */
  lemma {:induction false} EveryMember(members: seq<Property>, sorted: seq<Member>, at: seq<nat>, k: nat)
    requires WellFormed(Obj(members)) && k < |members| && Print(members[k].value).Some?
    requires |at| == |sorted| && (forall i | 0 <= i < |at| :: PrintedAt(members, sorted[i], at[i]))
    requires Member(members[k].key, Print(members[k].value).value) in sorted
    ensures k in at
  {
    var i :| 0 <= i < |sorted| && sorted[i] == Member(members[k].key, Print(members[k].value).value);
    assert PrintedAt(members, sorted[i], at[i]) && members[at[i]].key == members[k].key;
  }

  lemma {:induction false} PrintedComeFrom(members: seq<Property>, printed: seq<Member>) returns (at: seq<nat>)
    requires PrintMembers(members) == Some(printed) && WellFormed(Obj(members))
    ensures ComeFrom(members, SortByKey(printed), at)
  {
    var sorted := SortByKey(printed);
    MemberTexts(members);
    SortElements(printed);
    at := Sources(members, sorted);
    forall k: nat | k < |members| && Defined(members[k]) ensures k in at {
      EveryMember(members, sorted, at, k);
    }
  }

  lemma {:induction false} ObjectText(members: seq<Property>, sorted: seq<Member>, at: seq<nat>)
    requires ComeFrom(members, sorted, at) && Sorted(sorted)
    requires forall k, i | 0 <= k < |members| && 0 <= i < |at| && at[i] == k ::
      Denotes(sorted[i].text, members[k].value)
    ensures Denotes([OPEN_BRACE] + (Join(EntryTexts(sorted)) + [CLOSE_BRACE]), Obj(members))
  {
    var w := WrittenAs(sorted, at);
    SortedWrites(members, sorted, at);
    SameEntries(sorted, at);
    Letters();
    JoinIsCommas(EntryTexts(sorted));
    assert [OPEN_BRACE] + (Join(EntryTexts(sorted)) + [CLOSE_BRACE]) == Units("{") + Commas(Entries(w)) + Units("}");
  }

  lemma {:induction false} ObjectDenotes(members: seq<Property>, printed: seq<Member>)
    requires PrintMembers(members) == Some(printed) && WellFormed(Obj(members))
    requires forall k: nat | k < |members| && Defined(members[k]) && Print(members[k].value).Some? ::
      Denotes(Print(members[k].value).value, members[k].value)
    ensures Denotes([OPEN_BRACE] + (Join(EntryTexts(SortByKey(printed))) + [CLOSE_BRACE]), Obj(members))
  {
    PrintedKeysDiffer(members);
    SortSorts(printed);
    var at := PrintedComeFrom(members, printed);
    var sorted := SortByKey(printed);
    forall k, i | 0 <= k < |members| && 0 <= i < |at| && at[i] == k ensures Denotes(sorted[i].text, members[k].value) {
      assert PrintedAt(members, sorted[i], at[i]);
    }
    ObjectText(members, sorted, at);
  }

  /** Whatever is printed is the JSON text of the value. */
  lemma {:induction false} PrintsJson(j: Json)
    requires WellFormed(j) && Print(j).Some?
    ensures Denotes(Print(j).value, j)
    decreases j
  {
    Letters();
    match j
    case Str(s) => QuoteIsString(s);
    case Arr(items) =>
      ItemTexts(items);
      forall k | 0 <= k < |items| ensures Denotes(PrintItems(items).value[k], items[k]) { PrintsJson(items[k]); }
      ArrayDenotes(items, PrintItems(items).value);
    case Obj(members) =>
      MemberTexts(members);
      forall k: nat | k < |members| && Defined(members[k])
        ensures Print(members[k].value).Some? && Denotes(Print(members[k].value).value, members[k].value)
      {
        PrintsJson(members[k].value);
      }
      ObjectDenotes(members, PrintMembers(members).value);
    case _ =>
  }

  /** What is printed: everything but values that JSON cannot write. */
  predicate Writable(j: Json) {
    match j
    case Undefined => false
    case Unsupported => false
    case Num(n) => !n.NonFinite?
    case Arr(items) => forall k | 0 <= k < |items| :: Writable(items[k])
    case Obj(members) => forall k | 0 <= k < |members| && Defined(members[k]) :: Writable(members[k].value)
    case _ => true
  }

  lemma {:induction false} PrintsExactly(j: Json)
    ensures Print(j).Some? <==> Writable(j)
    decreases j, 1
  {
    match j
    case Arr(items) => ItemsPrintExactly(items);
    case Obj(members) => MembersPrintExactly(members);
    case _ =>
  }

  lemma {:induction false} ItemsPrintExactly(items: seq<Json>)
    ensures PrintItems(items).Some? <==> forall k | 0 <= k < |items| :: Writable(items[k])
    decreases items, 0
  {
    if items != [] {
      PrintsExactly(items[0]);
      ItemsPrintExactly(items[1..]);
      assert forall k | 0 < k < |items| :: items[k] == items[1..][k - 1];
    }
  }

  lemma {:induction false} MembersPrintExactly(members: seq<Property>)
    ensures PrintMembers(members).Some? <==>
      forall k | 0 <= k < |members| && Defined(members[k]) :: Writable(members[k].value)
    decreases members, 0
  {
    if members != [] {
      PrintsExactly(members[0].value);
      MembersPrintExactly(members[1..]);
      assert forall k | 0 < k < |members| :: members[k] == members[1..][k - 1];
    }
  }
}

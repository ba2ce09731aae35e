/**
 Paths of the workspace as texts, and the snapshot validation in terms of what is sent: path texts, sizes and the
 length of the JSON array of the entries.
 */
module WorkspacePaths {
  import opened Workspace

  // ------------------------------------------------------------------ Texts and their parts

  /** One more character: a slash begins a new part, any other ends the last one. */
  function Extend(parts: seq<string>, c: char): seq<string>
    requires parts != []
  {
    if c == '/' then parts + [""] else parts[..|parts| - 1] + [parts[|parts| - 1] + [c]]
  }

  /** The parts of a text between its slashes. */
  function Split(t: string): (parts: seq<string>)
    ensures |parts| >= 1
  {
    if t == "" then [""] else Extend(Split(t[..|t| - 1]), t[|t| - 1])
  }

  /** The parts, each behind a slash. */
  function Text(parts: seq<string>): string {
    if parts == [] then "" else Text(parts[..|parts| - 1]) + "/" + parts[|parts| - 1]
  }

  /** The path of an absolute text. */
  function AsPath(t: string): Path {
    Split(t)[1..]
  }

  predicate SlashFree(parts: seq<string>) {
    forall k | 0 <= k < |parts| :: '/' !in parts[k]
  }

  lemma ExtendLast(before: seq<string>, parts: seq<string>, c: char)
    requires parts != []
    ensures Extend(before + parts, c) == before + Extend(parts, c)
  {
    assert (before + parts)[..|before + parts| - 1] == before + parts[..|parts| - 1];
  }

  lemma SplitStep(t: string, c: char)
    ensures Split(t + [c]) == Extend(Split(t), c)
  {
    assert (t + [c])[..|t|] == t;
  }

  lemma {:induction false} SplitSlash(a: string, b: string)
    ensures Split(a + "/" + b) == Split(a) + Split(b)
  {
    if b == "" {
      assert a + "/" + b == a + ['/'];
      SplitStep(a, '/');
    } else {
      var n := |b| - 1;
      SplitSlash(a, b[..n]);
      assert a + "/" + b == (a + "/" + b[..n]) + [b[n]];
      SplitStep(a + "/" + b[..n], b[n]);
      ExtendLast(Split(a), Split(b[..n]), b[n]);
    }
  }

  lemma {:induction false} SplitOne(t: string)
    requires '/' !in t
    ensures Split(t) == [t]
  {
    if t != "" {
      SplitOne(t[..|t| - 1]);
      assert t == t[..|t| - 1] + [t[|t| - 1]];
    }
  }

  lemma {:induction false} SplitText(parts: seq<string>)
    requires SlashFree(parts)
    ensures Split(Text(parts)) == [""] + parts
  {
    if parts != [] {
      var n := |parts| - 1;
      SplitText(parts[..n]);
      SplitSlash(Text(parts[..n]), parts[n]);
      SplitOne(parts[n]);
      assert parts == parts[..n] + [parts[n]];
    }
  }

  lemma TextLast(parts: seq<string>, last: string)
    ensures Text(parts + [last]) == Text(parts) + "/" + last
  {
    assert (parts + [last])[..|parts|] == parts;
  }

  /** The text again. */
  function Whole(parts: seq<string>): string
    requires parts != []
  {
    parts[0] + Text(parts[1..])
  }

  lemma ExtendText(parts: seq<string>, c: char)
    requires parts != []
    ensures Whole(Extend(parts, c)) == Whole(parts) + [c]
  {
    if c == '/' {
      assert (parts + [""])[1..] == parts[1..] + [""];
      TextLast(parts[1..], "");
    } else if |parts| > 1 {
      var n := |parts| - 1;
      var longer := parts[n] + [c];
      assert Extend(parts, c)[1..] == parts[1..n] + [longer] && parts[1..] == parts[1..n] + [parts[n]];
      TextLast(parts[1..n], parts[n]);
      TextLast(parts[1..n], longer);
      assert Text(parts[1..n]) + "/" + longer == Text(parts[1..n]) + "/" + parts[n] + [c];
    } else {
      assert Extend(parts, c)[1..] == parts[1..] == [];
    }
  }

  lemma ExtendSlashFree(parts: seq<string>, c: char)
    requires parts != [] && SlashFree(parts)
    ensures SlashFree(Extend(parts, c))
  {
    forall k | 0 <= k < |Extend(parts, c)| ensures '/' !in Extend(parts, c)[k] {
      if k < |parts| { assert '/' !in parts[k]; }
    }
  }

  lemma {:induction false} TextOfSplit(t: string)
    ensures Whole(Split(t)) == t && SlashFree(Split(t)) && ("/" <= t ==> Split(t)[0] == "")
  {
    if t != "" {
      var n := |t| - 1;
      TextOfSplit(t[..n]);
      ExtendText(Split(t[..n]), t[n]);
      ExtendSlashFree(Split(t[..n]), t[n]);
      assert t == t[..n] + [t[n]];
      if "/" <= t && n > 0 {
        assert "/" <= t[..n] && Whole([""]) == "";
      }
    }
  }

  lemma TextOfPath(t: string)
    requires "/" <= t
    ensures Text(AsPath(t)) == t && SlashFree(AsPath(t)) && Split(t) == [""] + AsPath(t)
  {
    TextOfSplit(t);
    forall k | 0 <= k < |AsPath(t)| ensures '/' !in AsPath(t)[k] {
      assert AsPath(t)[k] == Split(t)[k + 1];
    }
  }

  lemma {:induction false} LengthOfText(parts: seq<string>)
    ensures Length(parts) == |Text(parts)|
  {
    if parts != [] { LengthOfText(parts[..|parts| - 1]); }
  }

  // ------------------------------------------------------------------ Resolving

  /** The parts that are left when those before each dot-dot are taken away. */
  function Walked(parts: seq<string>): seq<string> {
    if parts == [] then []
    else
      var before, part := Walked(parts[..|parts| - 1]), parts[|parts| - 1];
      if part == ".." then (if before == [] then [] else before[..|before| - 1])
      else if part == "" || part == "." then before
      else before + [part]
  }

  function Resolved(t: string): string {
    var walked := Walked(Split(if "/" <= t then t else "/workspace/" + t));
    if walked == [] then "/" else Text(walked)
  }

  method ResolvePath(path: string) returns (r: string)
    ensures r == Resolved(path)
  {
    var all := Split(if "/" <= path then path else "/workspace/" + path);
    var parts: seq<string> := [];
    for k := 0 to |all|
      invariant parts == Walked(all[..k])
    {
      assert all[..k + 1][..k] == all[..k];
      if all[k] == ".." {
        if parts != [] { parts := parts[..|parts| - 1]; }
      } else if all[k] != "" && all[k] != "." {
        parts := parts + [all[k]];
      }
    }
    assert all[..|all|] == all;
    r := if parts == [] then "/" else Text(parts);
  }

  predicate Steps(parts: seq<string>) {
    SlashFree(parts) && forall k | 0 <= k < |parts| :: parts[k] != "" && parts[k] != "." && parts[k] != ".."
  }

  lemma {:induction false} WalkedSteps(parts: seq<string>)
    requires SlashFree(parts)
    ensures Steps(Walked(parts))
  {
    if parts != [] { WalkedSteps(parts[..|parts| - 1]); }
  }

  lemma {:induction false} StepsStay(parts: seq<string>)
    requires Steps(parts)
    ensures Walked([""] + parts) == parts
  {
    if parts != [] {
      var n := |parts| - 1;
      StepsStay(parts[..n]);
      assert ([""] + parts)[..|parts|] == [""] + parts[..n] && parts == parts[..n] + [parts[n]];
    } else {
      assert [""] + parts == [""] && [""][..0] == [];
    }
  }

  lemma StartsWithSlash(parts: seq<string>)
    requires parts != []
    ensures "/" <= Text(parts)
  {
    if |parts| > 1 { StartsWithSlash(parts[..|parts| - 1]); }
  }

  /** Resolving gives the text of parts none of which is empty, a dot or a dot-dot, and such a text stays. */
  lemma ResolvedIsPlain(t: string)
    ensures exists parts :: Steps(parts) && Resolved(t) == if parts == [] then "/" else Text(parts)
    ensures Resolved(Resolved(t)) == Resolved(t)
  {
    var full := if "/" <= t then t else "/workspace/" + t;
    var parts := Walked(Split(full));
    TextOfSplit(full);
    WalkedSteps(Split(full));
    PlainStays(parts);
  }

  lemma PlainStays(parts: seq<string>)
    requires Steps(parts)
    ensures var t := if parts == [] then "/" else Text(parts); Resolved(t) == t
  {
    if parts == [] {
      assert Resolved("/") == "/" by { RootStays(); }
    } else {
      StartsWithSlash(parts);
      SplitText(parts);
      StepsStay(parts);
    }
  }

  lemma RootStays()
    ensures Resolved("/") == "/"
  {
    SplitSlash("", "");
    assert "" + "/" + "" == "/";
    assert Split("") + Split("") == ["", ""] && ["", ""][..1] == [""] && [""][..0] == [];
    assert Walked([""]) == [];
  }

  // ------------------------------------------------------------------ Which paths are durable

  /** The text is its own resolution and lies under the workspace. */
  predicate Durable(t: string) {
    Resolved(t) == t && (t == "/workspace" || "/workspace/" <= t)
  }

  lemma {:induction false} TextContains(parts: seq<string>, c: char)
    requires c != '/'
    ensures c in Text(parts) <==> exists k :: 0 <= k < |parts| && c in parts[k]
  {
    if parts != [] {
      var n := |parts| - 1;
      TextContains(parts[..n], c);
      if k :| 0 <= k < |parts| && c in parts[k] {
        assert k < n ==> c in parts[..n][k];
      }
    }
  }

  lemma UnderRoot(root: string, t: string)
    requires '/' !in root && (t == "/" + root || "/" + root + "/" <= t)
    ensures AsPath(t) != [] && AsPath(t)[0] == root
  {
    SplitSlash("", root);
    SplitOne(root);
    assert "" + "/" + root == "/" + root;
    assert Split("/" + root) == [""] + [root];
    if t != "/" + root {
      var rest := t[|root| + 2..];
      assert t == "/" + root + "/" + rest;
      SplitSlash("/" + root, rest);
    }
  }

  lemma {:induction false} FirstOfText(parts: seq<string>)
    requires parts != []
    ensures Text(parts) == "/" + parts[0] || "/" + parts[0] + "/" <= Text(parts)
  {
    if |parts| == 1 {
      assert parts[..0] == [];
    } else {
      FirstOfText(parts[..|parts| - 1]);
    }
  }

  lemma ValidIsDurable(t: string, meter: Meter)
    requires "/" <= t && ValidPath(AsPath(t), meter)
    ensures Durable(t) && '\0' !in t
  {
    var path := AsPath(t);
    TextOfPath(t);
    TextContains(path, '\0');
    PlainStays(path);
    FirstOfText(path);
  }

  lemma DurableIsSteps(t: string)
    requires Durable(t)
    ensures Steps(AsPath(t)) && AsPath(t) != [] && AsPath(t)[0] == "workspace"
  {
    assert '/' !in "workspace" && "/" + "workspace" == "/workspace" && "/workspace" + "/" == "/workspace/";
    UnderRoot("workspace", t);
    StaysIsSteps(t);
  }

  lemma StaysIsSteps(t: string)
    requires Resolved(t) == t && "/" <= t && |t| > 1
    ensures Steps(AsPath(t))
  {
    TextOfSplit(t);
    var walked := Walked(Split(t));
    WalkedSteps(Split(t));
    SplitText(walked);
  }

  /** The paths that the model takes are exactly the texts that resolve to themselves, under the workspace, without
      a NUL and of at most 1024 bytes. */
  lemma ValidPathIff(t: string, meter: Meter)
    requires "/" <= t
    ensures ValidPath(AsPath(t), meter) <==> Durable(t) && '\0' !in t && meter.pathBytes(AsPath(t)) <= 1024
  {
    if ValidPath(AsPath(t), meter) { ValidIsDurable(t, meter); }
    if Durable(t) && '\0' !in t {
      DurableIsSteps(t);
      TextOfPath(t);
      TextContains(AsPath(t), '\0');
    }
  }

  /** Different texts have different paths, and a path is as long as its text. */
  lemma PathsAreTexts(t: string, u: string)
    requires "/" <= t && "/" <= u
    ensures AsPath(t) == AsPath(u) <==> t == u
    ensures Length(AsPath(t)) == |t|
  {
    TextOfPath(t);
    TextOfPath(u);
    LengthOfText(AsPath(t));
  }

  // ------------------------------------------------------------------ What the validation accepts

  function SizeOf(entries: seq<Entry>): nat {
    if entries == [] then 0 else SizeOf(entries[..|entries| - 1]) + |entries[|entries| - 1].data|
  }

  /** The entries with commas between them. */
  function Listed(entries: seq<Entry>, text: Entry -> seq<Byte>): seq<Byte> {
    if entries == [] then []
    else if |entries| == 1 then text(entries[0])
    else Listed(entries[..|entries| - 1], text) + [',' as int] + text(entries[|entries| - 1])
  }

  function JsonArray(entries: seq<Entry>, text: Entry -> seq<Byte>): seq<Byte> {
    ['[' as int] + Listed(entries, text) + [']' as int]
  }

  lemma {:induction false} TotalsOfList(entries: seq<Entry>, text: Entry -> seq<Byte>, meter: Meter)
    requires Distinct(entries) && forall e :: meter.entryBytes(e) == |text(e)|
    ensures Total(AsMap(entries), DataSize) == SizeOf(entries)
    ensures Total(AsMap(entries), meter.entryBytes) + |entries|
         == |Listed(entries, text)| + if entries == [] then 0 else 1
  {
    if entries != [] {
      var n := |entries| - 1;
      var before, last := entries[..n], entries[n];
      TotalsOfList(before, text, meter);
      LastIsNew(entries);
      TotalInsert(AsMap(before), last, DataSize);
      TotalInsert(AsMap(before), last, meter.entryBytes);
    }
  }

  lemma LastIsNew(entries: seq<Entry>)
    requires entries != [] && Distinct(entries)
    ensures entries[|entries| - 1].path !in AsMap(entries[..|entries| - 1])
  {
    var before := entries[..|entries| - 1];
    AsMapAt(before);
  }

  lemma WireOfList(entries: seq<Entry>, text: Entry -> seq<Byte>, meter: Meter)
    requires Distinct(entries) && forall e :: meter.entryBytes(e) == |text(e)|
    ensures Wire(AsMap(entries), meter) == |JsonArray(entries, text)|
  {
    TotalsOfList(entries, text, meter);
    AsMapAt(entries);
  }

  /** What is asked of one entry under the text of its path. */
  predicate Sound(e: Entry, t: string, meter: Meter) {
    && Durable(t) && '\0' !in t && meter.pathBytes(e.path) <= 1024
    && |e.data| <= 1_048_576 && (e.directory ==> e.data == [])
  }

  predicate HasRoot(entries: seq<Entry>, texts: seq<string>)
    requires |texts| == |entries|
  {
    exists k :: 0 <= k < |texts| && texts[k] == "/workspace" && entries[k].directory
  }

  predicate Named(entries: seq<Entry>, texts: seq<string>) {
    |texts| == |entries| && forall k | 0 <= k < |texts| :: "/" <= texts[k] && entries[k].path == AsPath(texts[k])
  }

  /** A list of entries under path texts is accepted exactly when no text comes twice, every text is durable and
      without a NUL, no file is over 1 MiB and no directory has bytes, all bytes together are at most 4 MiB, the
      JSON array of the entries is at most 6 MiB less 1 KiB, and the root is a directory. */
  lemma AcceptedIff(entries: seq<Entry>, texts: seq<string>, text: Entry -> seq<Byte>, meter: Meter)
    requires Named(entries, texts) && forall e :: meter.entryBytes(e) == |text(e)|
    ensures Distinct(entries) && Valid(AsMap(entries), meter) <==>
      && (forall i, j | 0 <= i < j < |texts| :: texts[i] != texts[j])
      && (forall k | 0 <= k < |texts| :: Sound(entries[k], texts[k], meter))
      && SizeOf(entries) <= 4_194_304 && |JsonArray(entries, text)| <= 6_290_432
      && HasRoot(entries, texts)
  {
    SameDistinct(entries, texts);
    if Distinct(entries) {
      TotalsOfList(entries, text, meter);
      WireOfList(entries, text, meter);
      RootedIff(entries, texts);
      EntriesDecide(entries, meter);
      SoundIff(entries, texts, meter);
    }
  }

  lemma SoundIff(entries: seq<Entry>, texts: seq<string>, meter: Meter)
    requires Named(entries, texts)
    ensures (forall k | 0 <= k < |entries| :: EntryOk(entries[k], meter))
      <==> forall k | 0 <= k < |texts| :: Sound(entries[k], texts[k], meter)
  {
    forall k | 0 <= k < |texts| ensures EntryOk(entries[k], meter) <==> Sound(entries[k], texts[k], meter) {
      ValidPathIff(texts[k], meter);
    }
  }

  lemma RootedIff(entries: seq<Entry>, texts: seq<string>)
    requires Distinct(entries) && Named(entries, texts)
    ensures Rooted(AsMap(entries)) <==> HasRoot(entries, texts)
  {
    assert "/" + "workspace" == "/workspace" && '/' !in "workspace";
    RootIsText(entries, texts, "workspace");
  }

  lemma SameDistinct(entries: seq<Entry>, texts: seq<string>)
    requires Named(entries, texts)
    ensures Distinct(entries) <==> forall i, j | 0 <= i < j < |texts| :: texts[i] != texts[j]
  {
    forall i, j | 0 <= i < j < |texts| ensures entries[i].path == entries[j].path <==> texts[i] == texts[j] {
      PathsAreTexts(texts[i], texts[j]);
    }
  }

  lemma EntriesDecide(entries: seq<Entry>, meter: Meter)
    requires Distinct(entries)
    ensures Valid(AsMap(entries), meter) <==>
      && (forall k | 0 <= k < |entries| :: EntryOk(entries[k], meter))
      && Total(AsMap(entries), DataSize) <= SNAPSHOT_BYTES && Wire(AsMap(entries), meter) <= REQUEST_BYTES - 1024
      && Rooted(AsMap(entries))
  {
    AsMapAt(entries);
    if Valid(AsMap(entries), meter) {
      forall k | 0 <= k < |entries| ensures EntryOk(entries[k], meter) {
        assert entries[k] in entries;
      }
    }
  }

  lemma RootIsText(entries: seq<Entry>, texts: seq<string>, root: string)
    requires Distinct(entries) && Named(entries, texts) && '/' !in root
    ensures [root] in AsMap(entries) && AsMap(entries)[[root]].directory
      <==> exists k :: 0 <= k < |texts| && texts[k] == "/" + root && entries[k].directory
  {
    AsMapAt(entries);
    TextLast([], root);
    SplitText([root]);
    assert [] + [root] == [root] && "" + "/" + root == "/" + root;
    assert Split("/" + root) == [""] + [root];
    if [root] in AsMap(entries) {
      var e := AsMap(entries)[[root]];
      var k :| 0 <= k < |entries| && entries[k] == e;
      PathsAreTexts(texts[k], "/" + root);
    }
    if k :| 0 <= k < |texts| && texts[k] == "/" + root && entries[k].directory {
      assert entries[k] in entries;
    }
  }
}

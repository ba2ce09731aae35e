/** Snapshots of a workspace and the check every snapshot passes before it is stored. */
module Workspace {
  const FILE_BYTES: nat := 1024 * 1024
  const SNAPSHOT_BYTES: nat := 4 * 1024 * 1024
  const REQUEST_BYTES: nat := 6 * 1024 * 1024

  type Byte = n: nat | n < 256
  type Mode = n: nat | n < 4096

  /** `["workspace", "a"]` is the text `/workspace/a`: a path is its text split at each slash. */
  type Path = seq<string>

  datatype Entry = Entry(path: Path, directory: bool, data: seq<Byte>, mode: Mode, mtime: real)

  type Snapshot = map<Path, Entry>

  /** A time as it is stored. */
  datatype Stamp = Stamp(seconds: int, nanos: int)

  /** What is measured elsewhere: UTF-8 sizes of a path and of one entry in the wire format, and how a
      modification time is split for the store and put together again. */
  datatype Meter = Meter(pathBytes: Path -> nat, entryBytes: Entry -> nat, split: real -> Stamp, join: Stamp -> real)

  function DataSize(e: Entry): nat {
    |e.data|
  }

  /** Length of the text of a path. */
  function Length(path: Path): nat {
    if path == [] then 0 else Length(path[..|path| - 1]) + 1 + |path[|path| - 1]|
  }

  function Parent(path: Path): Path
    requires path != []
  {
    path[..|path| - 1]
  }

  predicate Plain(name: string) {
    name != "" && name != "." && name != ".." && '/' !in name && '\0' !in name
  }

  predicate ValidPath(path: Path, meter: Meter) {
    meter.pathBytes(path) <= 1024 && path != [] && path[0] == "workspace"
      && forall k | 0 <= k < |path| :: Plain(path[k])
  }

  // ------------------------------------------------------------------ Totals

  ghost function Total(snapshot: Snapshot, weight: Entry -> nat): nat {
    if snapshot == map[] then 0
    else var p :| p in snapshot; weight(snapshot[p]) + Total(snapshot - {p}, weight)
  }

  lemma {:induction false} TotalSplit(snapshot: Snapshot, p: Path, weight: Entry -> nat)
    requires p in snapshot
    ensures Total(snapshot, weight) == weight(snapshot[p]) + Total(snapshot - {p}, weight)
  {
    var q :| q in snapshot && Total(snapshot, weight) == weight(snapshot[q]) + Total(snapshot - {q}, weight);
    if p != q {
      TotalSplit(snapshot - {q}, p, weight);
      TotalSplit(snapshot - {p}, q, weight);
      assert snapshot - {q} - {p} == snapshot - {p} - {q};
    }
  }

  lemma TotalInsert(snapshot: Snapshot, e: Entry, weight: Entry -> nat)
    requires e.path !in snapshot
    ensures Total(snapshot[e.path := e], weight) == Total(snapshot, weight) + weight(e)
  {
    TotalSplit(snapshot[e.path := e], e.path, weight);
    assert snapshot[e.path := e] - {e.path} == snapshot;
  }

  // ------------------------------------------------------------------ Validation

  /** Bytes of the JSON array of the entries. */
  ghost function Wire(snapshot: Snapshot, meter: Meter): nat {
    2 + Total(snapshot, meter.entryBytes) + if snapshot == map[] then 0 else |snapshot| - 1
  }

  predicate EntryOk(e: Entry, meter: Meter) {
    ValidPath(e.path, meter) && |e.data| <= FILE_BYTES && (e.directory ==> e.data == [])
  }

  predicate Rooted(snapshot: Snapshot) {
    ["workspace"] in snapshot && snapshot[["workspace"]].directory
  }

  ghost predicate Valid(snapshot: Snapshot, meter: Meter) {
    && (forall p | p in snapshot :: snapshot[p].path == p && EntryOk(snapshot[p], meter))
    && Total(snapshot, DataSize) <= SNAPSHOT_BYTES
    && Wire(snapshot, meter) <= REQUEST_BYTES - 1024
    && Rooted(snapshot)
  }

  predicate Distinct(entries: seq<Entry>) {
    forall i, j | 0 <= i < j < |entries| :: entries[i].path != entries[j].path
  }

  /** The path map of a list; as in `new Map`, the last entry of a path wins. */
  function AsMap(entries: seq<Entry>): Snapshot {
    if entries == [] then map[]
    else AsMap(entries[..|entries| - 1])[entries[|entries| - 1].path := entries[|entries| - 1]]
  }

  lemma {:induction false} AsMapAt(entries: seq<Entry>)
    ensures forall p | p in AsMap(entries) :: AsMap(entries)[p] in entries && AsMap(entries)[p].path == p
    ensures forall e | e in entries :: e.path in AsMap(entries)
    ensures Distinct(entries) ==>
        |AsMap(entries)| == |entries| && forall e | e in entries :: AsMap(entries)[e.path] == e
  {
    if entries != [] {
      var n := |entries| - 1;
      AsMapAt(entries[..n]);
      assert entries == entries[..n] + [entries[n]];
      forall e | e in entries ensures e.path in AsMap(entries) {}
      if Distinct(entries) {
        assert entries[n].path !in AsMap(entries[..n]);
      }
    }
  }

  lemma AsMapStep(entries: seq<Entry>, i: nat)
    requires i < |entries|
    ensures AsMap(entries[..i + 1]) == AsMap(entries[..i])[entries[i].path := entries[i]]
    ensures Distinct(entries[..i]) && entries[i].path !in AsMap(entries[..i]) ==> Distinct(entries[..i + 1])
    ensures entries[i].path in AsMap(entries[..i]) ==> !Distinct(entries)
  {
    var before, after, e := entries[..i], entries[..i + 1], entries[i];
    assert after[..i] == before;
    AsMapAt(before);
    if e.path in AsMap(before) {
      var k :| 0 <= k < i && before[k] == AsMap(before)[e.path];
      assert entries[k].path == entries[i].path;
    } else if Distinct(before) {
      forall a, b | 0 <= a < b < i + 1 ensures after[a].path != after[b].path {
        assert before[a] in before;
      }
    }
  }

  lemma BadEntry(entries: seq<Entry>, i: nat, meter: Meter)
    requires i < |entries| && !EntryOk(entries[i], meter)
    ensures !(Distinct(entries) && Valid(AsMap(entries), meter))
  {
    AsMapAt(entries);
    assert entries[i] in entries;
  }

  predicate RootSeen(entries: seq<Entry>) {
    exists e :: e in entries && e.path == ["workspace"] && e.directory
  }

  lemma GoodEntries(entries: seq<Entry>, meter: Meter)
    requires Distinct(entries) && forall e | e in entries :: EntryOk(e, meter)
    ensures forall p | p in AsMap(entries) :: AsMap(entries)[p].path == p && EntryOk(AsMap(entries)[p], meter)
    ensures RootSeen(entries) <==> Rooted(AsMap(entries))
    ensures |AsMap(entries)| == |entries|
  {
    AsMapAt(entries);
  }

  method Validate(entries: seq<Entry>, meter: Meter) returns (ok: bool)
    ensures ok <==> Distinct(entries) && Valid(AsMap(entries), meter)
  {
    var total, wire, seen, rooted := 0, 2, {}, false;
    for i := 0 to |entries|
      invariant Distinct(entries[..i]) && seen == AsMap(entries[..i]).Keys
      invariant total == Total(AsMap(entries[..i]), DataSize)
      invariant wire == 2 + Total(AsMap(entries[..i]), meter.entryBytes)
      invariant forall e | e in entries[..i] :: EntryOk(e, meter)
      invariant rooted <==> RootSeen(entries[..i])
    {
      var e := entries[i];
      AsMapStep(entries, i);
      assert entries[..i + 1] == entries[..i] + [e];
      if !ValidPath(e.path, meter) || |e.data| > FILE_BYTES || (e.directory && e.data != []) {
        BadEntry(entries, i, meter);
        return false;
      }
      if e.path in seen { return false; }
      TotalInsert(AsMap(entries[..i]), e, DataSize);
      TotalInsert(AsMap(entries[..i]), e, meter.entryBytes);
      seen, total, wire := seen + {e.path}, total + |e.data|, wire + meter.entryBytes(e);
      rooted := rooted || (e.path == ["workspace"] && e.directory);
    }
    assert entries[..|entries|] == entries;
    GoodEntries(entries, meter);
    if entries != [] { wire := wire + |entries| - 1; }
    ok := total <= SNAPSHOT_BYTES && wire <= REQUEST_BYTES - 1024 && rooted;
  }
}

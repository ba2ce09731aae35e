/** The stored file tree of a cell as a map of paths: what loading reads and what saving leaves. */
module AgentFsTree {
  import opened Workspace

  const DIRECTORY_BITS: nat := 0x4000
  const FILE_BITS: nat := 0x8000

  datatype Inode = Inode(mode: nat, data: seq<Byte>, time: Stamp)

  type Tree = map<Path, Inode>

  predicate IsDirectory(inode: Inode) {
    inode.mode / 4096 == 4
  }

  predicate IsFile(inode: Inode) {
    inode.mode / 4096 == 8
  }

  predicate HasParent(tree: Tree, path: Path)
    requires path != []
  {
    |path| > 1 ==> Parent(path) in tree && IsDirectory(tree[Parent(path)])
  }

  /** Every path but the root's own entries hangs from a directory. */
  predicate Shaped(tree: Tree) {
    forall p | p in tree :: p != [] && HasParent(tree, p)
  }

  function Children(tree: Tree, path: Path): set<Path> {
    set q | q in tree && |q| == |path| + 1 && Parent(q) == path
  }

  function Below(tree: Tree, path: Path): set<Path> {
    set q | q in tree && path <= q
  }

  // ------------------------------------------------------------------ Metadata

  function KindBits(directory: bool): nat {
    if directory then DIRECTORY_BITS else FILE_BITS
  }

  function Stored(e: Entry, meter: Meter): Inode {
    Inode(KindBits(e.directory) + e.mode, e.data, meter.split(e.mtime))
  }

  function AsEntry(path: Path, inode: Inode, meter: Meter): Entry {
    Entry(path, IsDirectory(inode), inode.data, inode.mode % 4096, meter.join(inode.time))
  }

  /** An entry is stored and read back unchanged exactly when its time is. */
  lemma EntryRoundTrip(e: Entry, meter: Meter)
    ensures AsEntry(e.path, Stored(e, meter), meter) == e.(mtime := meter.join(meter.split(e.mtime)))
    ensures AsEntry(e.path, Stored(e, meter), meter) == e <==> Survives(e.mtime, meter)
    ensures IsDirectory(Stored(e, meter)) == e.directory && IsFile(Stored(e, meter)) == !e.directory
  {
  }

  // ------------------------------------------------------------------ Snapshots and trees

  function Listing(tree: Tree, meter: Meter): Snapshot {
    map p | p in tree :: AsEntry(p, tree[p], meter)
  }

  /** The tree that writing a snapshot to an empty disk leaves. */
  function FullWrite(snapshot: Snapshot, meter: Meter): Tree {
    map p | p in snapshot :: Stored(snapshot[p], meter)
  }

  /** Every entry but the root lies in a directory of the snapshot. */
  predicate Closed(snapshot: Snapshot) {
    forall p | p in snapshot && |p| > 1 :: Parent(p) in snapshot && snapshot[Parent(p)].directory
  }

  ghost predicate Loadable(tree: Tree, meter: Meter) {
    tree == map[]
    || ((forall p | p in tree ::
           (IsFile(tree[p]) || IsDirectory(tree[p])) && (IsDirectory(tree[p]) ==> tree[p].data == []))
        && Valid(Listing(tree, meter), meter))
  }

  /** The time is read back as it was stored. */
  predicate Survives(mtime: real, meter: Meter) {
    meter.join(meter.split(mtime)) == mtime
  }

  predicate TimesSurvive(snapshot: Snapshot, meter: Meter) {
    forall p | p in snapshot :: Survives(snapshot[p].mtime, meter)
  }

  /** What is stored reads back as itself exactly when its times do. */
  lemma FullWriteListing(snapshot: Snapshot, meter: Meter)
    requires forall p | p in snapshot :: snapshot[p].path == p
    ensures Listing(FullWrite(snapshot, meter), meter) == snapshot <==> TimesSurvive(snapshot, meter)
  {
    forall p | p in snapshot
      ensures Survives(snapshot[p].mtime, meter) <==> Listing(FullWrite(snapshot, meter), meter)[p] == snapshot[p] {
      EntryRoundTrip(snapshot[p], meter);
    }
    if Listing(FullWrite(snapshot, meter), meter) == snapshot {
      forall p | p in snapshot ensures Survives(snapshot[p].mtime, meter) {
        assert Listing(FullWrite(snapshot, meter), meter)[p] == snapshot[p];
      }
    }
  }

  lemma {:induction false} SameSizes(a: Snapshot, b: Snapshot)
    requires a.Keys == b.Keys && forall p | p in a :: a[p].data == b[p].data
    ensures Total(a, DataSize) == Total(b, DataSize)
    decreases |a|
  {
    if a != map[] {
      var p :| p in a;
      TotalSplit(a, p, DataSize);
      TotalSplit(b, p, DataSize);
      SameSizes(a - {p}, b - {p});
    } else {
      assert b == map[];
    }
  }

  lemma FullWriteReadable(snapshot: Snapshot, meter: Meter, p: Path)
    requires p in snapshot && snapshot[p].path == p && (snapshot[p].directory ==> snapshot[p].data == [])
    ensures var i := FullWrite(snapshot, meter)[p]; (IsFile(i) || IsDirectory(i)) && (IsDirectory(i) ==> i.data == [])
    ensures Listing(FullWrite(snapshot, meter), meter)[p]
         == snapshot[p].(mtime := meter.join(meter.split(snapshot[p].mtime)))
  {
    EntryRoundTrip(snapshot[p], meter);
  }

  /** Every path holds a file or an empty directory. */
  predicate Readable(tree: Tree) {
    forall p | p in tree :: (IsFile(tree[p]) || IsDirectory(tree[p])) && (IsDirectory(tree[p]) ==> tree[p].data == [])
  }

  lemma FullWriteReads(snapshot: Snapshot, meter: Meter)
    requires forall p | p in snapshot :: snapshot[p].path == p && (snapshot[p].directory ==> snapshot[p].data == [])
    ensures Readable(FullWrite(snapshot, meter))
    ensures var listing := Listing(FullWrite(snapshot, meter), meter);
      listing.Keys == snapshot.Keys && forall p | p in snapshot :: listing[p] == snapshot[p].(mtime := listing[p].mtime)
  {
    forall p | p in snapshot { FullWriteReadable(snapshot, meter, p); }
  }

  /** A stored valid snapshot can be loaded again exactly when what its times became still fits the wire. */
  lemma FullWriteLoads(snapshot: Snapshot, meter: Meter)
    requires Valid(snapshot, meter)
    ensures Loadable(FullWrite(snapshot, meter), meter)
      <==> Wire(Listing(FullWrite(snapshot, meter), meter), meter) <= REQUEST_BYTES - 1024
  {
    var tree := FullWrite(snapshot, meter);
    FullWriteReads(snapshot, meter);
    ReadBackValid(snapshot, Listing(tree, meter), meter);
    assert ["workspace"] in tree;
    LoadableIff(tree, meter);
  }

  lemma LoadableIff(tree: Tree, meter: Meter)
    requires tree != map[] && Readable(tree)
    ensures Loadable(tree, meter) <==> Valid(Listing(tree, meter), meter)
  {
  }

  /** The tree holds the snapshot: every entry as it is stored, with a time that reads as the entry's. */
  predicate Represents(tree: Tree, snapshot: Snapshot, meter: Meter) {
    tree.Keys == snapshot.Keys && forall p | p in tree ::
      tree[p] == Stored(snapshot[p], meter).(time := tree[p].time) && meter.join(tree[p].time) == snapshot[p].mtime
  }

  lemma RepresentsListing(tree: Tree, snapshot: Snapshot, meter: Meter)
    requires Represents(tree, snapshot, meter) && forall p | p in snapshot :: snapshot[p].path == p
    ensures Listing(tree, meter) == snapshot
    ensures forall p | p in tree ::
        IsDirectory(tree[p]) == snapshot[p].directory && IsFile(tree[p]) != IsDirectory(tree[p])
  {
    forall p | p in tree
      ensures Listing(tree, meter)[p] == snapshot[p]
      ensures IsDirectory(tree[p]) == snapshot[p].directory && IsFile(tree[p]) != IsDirectory(tree[p])
    {
      EntryRoundTrip(snapshot[p], meter);
    }
  }

  /** What can be loaded is exactly what holds some valid snapshot that is closed under parents, and nothing else:
      no links, devices or directories with bytes. */
  lemma LoadableIsStored(tree: Tree, meter: Meter)
    requires Shaped(tree)
    ensures Loadable(tree, meter) <==>
      tree == map[] || exists next :: Valid(next, meter) && Closed(next) && Represents(tree, next, meter)
  {
    if Loadable(tree, meter) && tree != map[] {
      OnlyClosedIsStored(tree, Listing(tree, meter), meter);
      LoadableIsRepresented(tree, meter);
    }
    if next :| Valid(next, meter) && Closed(next) && Represents(tree, next, meter) {
      RepresentedIsLoadable(tree, next, meter);
    }
  }

  lemma LoadableIsRepresented(tree: Tree, meter: Meter)
    requires Readable(tree)
    ensures Represents(tree, Listing(tree, meter), meter)
  {
  }

  lemma RepresentedIsLoadable(tree: Tree, next: Snapshot, meter: Meter)
    requires Valid(next, meter) && Represents(tree, next, meter)
    ensures Loadable(tree, meter)
  {
    RepresentsListing(tree, next, meter);
  }

  lemma ReadBackValid(snapshot: Snapshot, listing: Snapshot, meter: Meter)
    requires Valid(snapshot, meter) && listing.Keys == snapshot.Keys
    requires forall p | p in snapshot :: listing[p] == snapshot[p].(mtime := listing[p].mtime)
    ensures Valid(listing, meter) <==> Wire(listing, meter) <= REQUEST_BYTES - 1024
  {
    SameSizes(listing, snapshot);
  }

  /** No tree stores a snapshot that is not closed under parents, which the validation lets pass. */
  lemma OnlyClosedIsStored(tree: Tree, snapshot: Snapshot, meter: Meter)
    requires Shaped(tree) && Listing(tree, meter) == snapshot
    ensures Closed(snapshot)
  {
    forall p | p in snapshot && |p| > 1 ensures Parent(p) in snapshot && snapshot[Parent(p)].directory {
      assert p in tree && HasParent(tree, p);
    }
  }

  /** A root and, under a directory that is missing, an empty file. */
  function Orphaned(): Snapshot {
    map[["workspace"] := Entry(["workspace"], true, [], 0, 0.0),
        ["workspace", "a", "b"] := Entry(["workspace", "a", "b"], false, [], 0, 0.0)]
  }

  /** The validation does let one pass: whatever the sizes of such short paths and entries. */
  lemma OrphanPassesValidation(meter: Meter)
    requires forall e | e in Orphaned().Values :: meter.pathBytes(e.path) <= 1024 && meter.entryBytes(e) <= 1024
    ensures Valid(Orphaned(), meter) && !Closed(Orphaned())
    ensures forall tree | Shaped(tree) :: Listing(tree, meter) != Orphaned()
  {
    OrphanTotals(meter);
    OrphanIsNotClosed();
    forall tree | Shaped(tree) ensures Listing(tree, meter) != Orphaned() {
      if Listing(tree, meter) == Orphaned() { OnlyClosedIsStored(tree, Orphaned(), meter); }
    }
  }

  lemma OrphanIsNotClosed()
    ensures !Closed(Orphaned())
  {
    var p := ["workspace", "a", "b"];
    assert p in Orphaned() && Parent(p) == ["workspace", "a"];
  }

  lemma OrphanTotals(meter: Meter)
    requires forall e | e in Orphaned().Values :: meter.pathBytes(e.path) <= 1024 && meter.entryBytes(e) <= 1024
    ensures Valid(Orphaned(), meter)
  {
    var root, orphan := Entry(["workspace"], true, [], 0, 0.0), Entry(["workspace", "a", "b"], false, [], 0, 0.0);
    assert root in Orphaned().Values by { assert Orphaned()[root.path] == root; }
    assert orphan in Orphaned().Values by { assert Orphaned()[orphan.path] == orphan; }
    OrphanEntries(root, orphan, meter);
    TotalOfTwo(root, orphan, DataSize);
    TotalOfTwo(root, orphan, meter.entryBytes);
    ValidTwo(root, orphan, meter);
  }

  lemma OrphanEntries(root: Entry, orphan: Entry, meter: Meter)
    requires root == Entry(["workspace"], true, [], 0, 0.0)
        && orphan == Entry(["workspace", "a", "b"], false, [], 0, 0.0)
    requires meter.pathBytes(root.path) <= 1024 && meter.pathBytes(orphan.path) <= 1024
    ensures EntryOk(root, meter) && EntryOk(orphan, meter)
  {
  }

  lemma ValidTwo(a: Entry, b: Entry, meter: Meter)
    requires a.path == ["workspace"] && a.directory && b.path != a.path && EntryOk(a, meter) && EntryOk(b, meter)
    requires var both := map[a.path := a, b.path := b];
      Total(both, DataSize) <= SNAPSHOT_BYTES && Total(both, meter.entryBytes) <= 2048
    ensures Valid(map[a.path := a, b.path := b], meter)
  {
    assert |map[a.path := a, b.path := b]| == 2;
  }

  lemma TotalOfTwo(a: Entry, b: Entry, weight: Entry -> nat)
    requires a.path != b.path
    ensures Total(map[a.path := a, b.path := b], weight) == weight(a) + weight(b)
  {
    var first := map[][a.path := a];
    TotalInsert(map[], a, weight);
    TotalInsert(first, b, weight);
    assert first[b.path := b] == map[a.path := a, b.path := b];
  }

  lemma {:induction false} LengthGrows(path: Path, k: nat)
    requires k < |path|
    ensures Length(path[..k]) < Length(path)
  {
    if k < |path| - 1 {
      LengthGrows(path[..|path| - 1], k);
      assert path[..|path| - 1][..k] == path[..k];
    }
  }

  // ------------------------------------------------------------------ The store

  lemma ListingOutside(tree: Tree, meter: Meter, p: Path)
    requires p in tree && (p == [] || p[0] != "workspace")
    ensures !Loadable(tree, meter)
  {
    assert p in Listing(tree, meter);
  }

  /** A visited set closed under children that holds the root of the workspace holds every path. */
  lemma {:induction false} AllVisited(tree: Tree, visited: set<Path>, p: Path)
    requires Shaped(tree) && p in tree && forall q | q in tree :: q[0] == "workspace"
    requires ["workspace"] in visited && forall q, c | q in visited && c in Children(tree, q) :: c in visited
    ensures p in visited
    decreases |p|
  {
    if |p| == 1 {
      assert p == ["workspace"];
    } else {
      assert HasParent(tree, p);
      AllVisited(tree, visited, Parent(p));
      assert p in Children(tree, Parent(p));
    }
  }

  lemma {:induction false} Longest(paths: set<Path>)
    requires paths != {}
    ensures exists p :: p in paths && forall q | q in paths :: Length(q) <= Length(p)
  {
    var p :| p in paths;
    if paths != {p} {
      Longest(paths - {p});
      var m :| m in paths - {p} && forall q | q in paths - {p} :: Length(q) <= Length(m);
      if Length(m) <= Length(p) {
        assert forall q | q in paths :: Length(q) <= Length(p);
      } else {
        assert forall q | q in paths :: Length(q) <= Length(m);
      }
    }
  }

  lemma {:induction false} Shortest(paths: set<Path>)
    requires paths != {}
    ensures exists p :: p in paths && forall q | q in paths :: Length(p) <= Length(q)
  {
    var p :| p in paths;
    if paths != {p} {
      Shortest(paths - {p});
      var m :| m in paths - {p} && forall q | q in paths - {p} :: Length(m) <= Length(q);
      if Length(p) <= Length(m) {
        assert forall q | q in paths :: Length(p) <= Length(q);
      } else {
        assert forall q | q in paths :: Length(m) <= Length(q);
      }
    }
  }

  function Elements(paths: seq<Path>): set<Path> {
    set p | p in paths
  }

  predicate NoRepeats(paths: seq<Path>) {
    forall i, j | 0 <= i < j < |paths| :: paths[i] != paths[j]
  }

  lemma PushOne(paths: seq<Path>, p: Path)
    requires NoRepeats(paths) && p !in Elements(paths)
    ensures NoRepeats(paths + [p]) && Elements(paths + [p]) == Elements(paths) + {p}
  {
    assert forall i | 0 <= i < |paths| :: paths[i] in Elements(paths);
    assert (paths + [p])[|paths|] == p;
  }

  lemma Unreadable(tree: Tree, p: Path, meter: Meter)
    requires p in tree
    requires !((IsFile(tree[p]) || IsDirectory(tree[p])) && (IsDirectory(tree[p]) ==> tree[p].data == []))
    ensures !Loadable(tree, meter)
  {
  }

  /** The sizes that are looked at before any file is read. */
  ghost predicate WithinLimits(tree: Tree, meter: Meter) {
    (forall p | p in tree :: |tree[p].data| <= FILE_BYTES) && Total(Listing(tree, meter), DataSize) <= SNAPSHOT_BYTES
  }

  lemma TooLarge(tree: Tree, meter: Meter)
    requires !WithinLimits(tree, meter)
    ensures !Loadable(tree, meter)
  {
    if p :| p in tree && |tree[p].data| > FILE_BYTES {
      assert p in Listing(tree, meter) && Listing(tree, meter)[p].data == tree[p].data;
    }
    assert tree == map[] ==> Listing(tree, meter) == map[];
  }

  // ------------------------------------------------------------------ What saving keeps

  /** A stored path that the new snapshot drops or gives another kind. */
  predicate Stale(tree: Tree, next: Snapshot, p: Path)
    requires p in tree
  {
    p !in next || next[p].directory != IsDirectory(tree[p])
  }

  function Kept(tree: Tree, next: Snapshot): Tree {
    map p | p in tree && !Stale(tree, next, p) :: tree[p]
  }

  lemma {:induction false} ClosedPrefix(next: Snapshot, p: Path, q: Path)
    requires Closed(next) && q in next && p != [] && p < q
    ensures p in next && next[p].directory
    decreases |q|
  {
    if |q| == |p| + 1 {
      assert Parent(q) == p;
    } else {
      ClosedPrefix(next, p, Parent(q));
    }
  }

  lemma {:induction false} ShapedPrefix(tree: Tree, p: Path, q: Path)
    requires Shaped(tree) && q in tree && p != [] && p < q
    ensures p in tree && IsDirectory(tree[p])
    decreases |q|
  {
    assert HasParent(tree, q);
    if |q| == |p| + 1 {
      assert Parent(q) == p;
    } else {
      ShapedPrefix(tree, p, Parent(q));
    }
  }

  /** With a closed snapshot, what lies under a stale path is stale too and longer. */
  lemma StaleBelow(tree: Tree, next: Snapshot, p: Path, q: Path)
    requires Shaped(tree) && Closed(next) && p in tree && q in tree && p < q && Stale(tree, next, p)
    ensures Stale(tree, next, q) && Length(p) < Length(q)
  {
    ShapedPrefix(tree, p, q);
    LengthGrows(q, |p|);
    assert p == q[..|p|];
    if !Stale(tree, next, q) { ClosedPrefix(next, p, q); }
  }

  /** The tree once the paths outside `left` were looked at for removal. */
  function Pruned(tree: Tree, next: Snapshot, left: set<Path>): Tree {
    map p | p in tree && (p in left || !Stale(tree, next, p)) :: tree[p]
  }

  /** With the longest stale path removed last, nothing is left under it. */
  lemma NothingBelow(tree: Tree, next: Snapshot, left: set<Path>, p: Path)
    requires Shaped(tree) && Closed(next) && p in left && p in tree && Stale(tree, next, p)
    requires forall q | q in left :: Length(q) <= Length(p)
    ensures Below(Pruned(tree, next, left), p) == {p}
  {
    forall q | q in Below(Pruned(tree, next, left), p) ensures q == p {
      if q != p { StaleBelow(tree, next, p, q); }
    }
    assert p in Below(Pruned(tree, next, left), p);
  }

  lemma PruneStep(tree: Tree, next: Snapshot, left: set<Path>, p: Path)
    requires p in left && p in tree
    ensures Stale(tree, next, p) ==> Pruned(tree, next, left) - {p} == Pruned(tree, next, left - {p})
    ensures !Stale(tree, next, p) ==> Pruned(tree, next, left) == Pruned(tree, next, left - {p})
  {
  }

  /** The same for the stored entries. */
  function Remaining(previous: Snapshot, next: Snapshot, left: set<Path>): Snapshot {
    map p | p in previous && (p in left || (p in next && next[p].directory == previous[p].directory)) :: previous[p]
  }

  lemma RemainStep(previous: Snapshot, next: Snapshot, left: set<Path>, p: Path)
    requires p in left && p in previous
    ensures Remaining(previous, next, left - {p}) ==
      if p !in next || next[p].directory != previous[p].directory then Remaining(previous, next, left) - {p}
      else Remaining(previous, next, left)
  {
  }

  predicate Within(tree: Tree, all: Tree) {
    forall p | p in tree :: p in all && tree[p] == all[p]
  }

  lemma RemoveStep(tree: Tree, start: Tree, next: Snapshot, left: set<Path>, p: Path)
    requires Shaped(start) && p in left && p in start && Within(tree, Pruned(start, next, left))
    requires forall q | q in left :: Length(q) <= Length(p)
    ensures var after := if Stale(start, next, p) then tree - Below(tree, p) else tree;
      && Within(after, Pruned(start, next, left - {p}))
      && (Closed(next) && tree == Pruned(start, next, left) ==> after == Pruned(start, next, left - {p}))
  {
    PruneStep(start, next, left, p);
    if Stale(start, next, p) && Closed(next) { NothingBelow(start, next, left, p); }
  }

  lemma OneAgrees(before: Tree, after: Tree, next: Snapshot, p: Path)
    requires KindsAgree(before, next) && (after == before || (p in after && after == before[p := after[p]]))
    requires p in next && p in after ==> IsDirectory(after[p]) == next[p].directory
    ensures KindsAgree(after, next)
  {
  }

  /** Kinds agree with the snapshot wherever a path is stored. */
  predicate KindsAgree(tree: Tree, next: Snapshot) {
    forall p | p in tree && p in next :: IsDirectory(tree[p]) == next[p].directory
  }

  predicate Holds(tree: Tree, e: Entry) {
    e.path in tree && IsDirectory(tree[e.path]) == e.directory && tree[e.path].data == e.data
  }

  /** The tree holds the kept part and everything of the snapshot outside `left`. */
  predicate Built(tree: Tree, kept: Tree, next: Snapshot, left: set<Path>) {
    && tree.Keys == kept.Keys + (next.Keys - left)
    && (forall p | p in kept && p in left :: tree[p] == kept[p])
    && (forall p | p in next && p !in left :: Holds(tree, next[p]))
  }

  /** Directories hold no bytes, entries sit under their own path, and no path is empty. */
  predicate Tidy(kept: Tree, next: Snapshot) {
    && kept.Keys <= next.Keys && (forall p | p in kept && IsDirectory(kept[p]) :: kept[p].data == [])
    && (forall p | p in next :: next[p].path == p && p != [] && (next[p].directory ==> next[p].data == []))
  }

  predicate HoldsAll(tree: Tree, next: Snapshot) {
    tree.Keys == next.Keys && forall p | p in next :: Holds(tree, next[p])
  }

  lemma BuiltAll(tree: Tree, kept: Tree, next: Snapshot)
    requires Built(tree, kept, next, {}) && Tidy(kept, next)
    ensures HoldsAll(tree, next)
  {
  }

  lemma BuildParent(tree: Tree, kept: Tree, next: Snapshot, left: set<Path>, p: Path)
    requires Closed(next) && Built(tree, kept, next, left) && Tidy(kept, next) && p in next && p in left
    requires forall q | q in left :: Length(p) <= Length(q)
    ensures HasParent(tree, p)
  {
    if |p| > 1 {
      LengthGrows(p, |p| - 1);
      assert Parent(p) in next && Parent(p) !in left;
      assert Holds(tree, next[Parent(p)]);
    }
  }

  /** The parent is there, and the kept snapshot tells the truth about the path. */
  predicate Ready(tree: Tree, kept: Snapshot, e: Entry) {
    && e.path != [] && HasParent(tree, e.path) && (e.path in tree <==> e.path in kept)
    && (e.path in kept ==> kept[e.path].data == tree[e.path].data)
    && (e.directory ==> e.data == [] && (e.path in tree ==> tree[e.path].data == []))
  }

  predicate Placed(before: Tree, after: Tree, e: Entry) {
    e.path in after && after == before[e.path := after[e.path]] && Holds(after, e)
  }

  lemma BuildReady(tree: Tree, start: Tree, kept: Snapshot, next: Snapshot, left: set<Path>, p: Path, meter: Meter)
    requires Closed(next) && Built(tree, start, next, left) && Tidy(start, next) && p in next && p in left
    requires kept == Listing(start, meter) && KindsAgree(tree, next) && forall q | q in left :: Length(p) <= Length(q)
    ensures Ready(tree, kept, next[p])
  {
    BuildParent(tree, start, next, left, p);
  }

  lemma BuildStep(tree: Tree, after: Tree, kept: Tree, next: Snapshot, left: set<Path>, p: Path)
    requires Built(tree, kept, next, left) && Tidy(kept, next) && p in next && p in left
    requires Placed(tree, after, next[p])
    ensures Built(after, kept, next, left - {p})
  {
  }

  lemma KeptTidy(tree: Tree, next: Snapshot, meter: Meter)
    requires Loadable(tree, meter) && Valid(next, meter)
    ensures Tidy(Kept(tree, next), next)
        && Remaining(Listing(tree, meter), next, {}) == Listing(Kept(tree, next), meter)
    ensures KindsAgree(Kept(tree, next), next)
  {
    KeptListing(tree, next, meter);
    assert forall p | p in tree && IsDirectory(tree[p]) :: tree[p].data == [];
  }

  lemma KeptListing(tree: Tree, next: Snapshot, meter: Meter)
    ensures Remaining(Listing(tree, meter), next, {}) == Listing(Kept(tree, next), meter)
  {
  }

  function Labelled(tree: Tree, next: Snapshot, left: set<Path>, meter: Meter): Tree {
    map p | p in tree :: if p in next && p !in left then Stored(next[p], meter).(data := tree[p].data) else tree[p]
  }

  lemma LabelOne(tree: Tree, next: Snapshot, left: set<Path>, p: Path, meter: Meter)
    requires p in left && p in next && KindsAgree(tree, next)
    ensures p in tree ==> KindsAgree(Labelled(tree, next, left - {p}, meter), next)
    ensures var now := Labelled(tree, next, left - {p}, meter);
      p in tree ==> now == Labelled(tree, next, left, meter)[p := Stored(next[p], meter).(data := tree[p].data)]
  {
    forall q | q in tree && q in next {
      EntryRoundTrip(next[q], meter);
    }
  }

  lemma LabelledIsFull(tree: Tree, next: Snapshot, meter: Meter)
    requires HoldsAll(tree, next) && forall p | p in next :: next[p].path == p
    ensures Labelled(tree, next, {}, meter) == FullWrite(next, meter)
  {
    forall p | p in next ensures Labelled(tree, next, {}, meter)[p] == FullWrite(next, meter)[p] {
      assert Holds(tree, next[p]);
    }
  }

  // ------------------------------------------------------------------ The walk of the stored tree

  /** The paths to visit and the visited ones together hold every child of a visited path. */
  ghost predicate Walk(tree: Tree, todo: set<Path>, visited: set<Path>) {
    && todo <= tree.Keys && visited <= tree.Keys && todo !! visited && ["workspace"] in visited + todo
    && (forall p | p in todo + visited && |p| > 1 :: Parent(p) in visited)
    && (forall q | q in visited :: Children(tree, q) <= visited + todo)
  }

  lemma WalkStep(tree: Tree, todo: set<Path>, visited: set<Path>, path: Path)
    requires Shaped(tree) && Walk(tree, todo, visited) && path in todo
    ensures Walk(tree, todo - {path} + Children(tree, path), visited + {path})
    ensures Children(tree, path) !! todo
    ensures !IsDirectory(tree[path]) ==> Children(tree, path) == {}
  {
    forall c | c in Children(tree, path) ensures c !in todo && c !in visited && IsDirectory(tree[path]) {
      assert HasParent(tree, c) && |c| > 1;
      assert Parent(c) == path && path !in visited;
    }
  }

  lemma PopPush(pending: seq<Path>, names: seq<Path>)
    requires pending != [] && NoRepeats(pending) && NoRepeats(names) && Elements(pending) !! Elements(names)
    ensures var rest := pending[..|pending| - 1];
      && NoRepeats(rest + names)
      && Elements(rest + names) == Elements(pending) - {pending[|pending| - 1]} + Elements(names)
  {
    var n := |pending| - 1;
    var rest, last := pending[..n], pending[n];
    assert pending == rest + [last];
    forall i, j | 0 <= i < j < |rest + names| ensures (rest + names)[i] != (rest + names)[j] {
      if i < n <= j { assert pending[i] in Elements(pending) && names[j - n] in Elements(names); }
    }
    forall p ensures p in Elements(rest + names) <==> p in Elements(pending) - {last} + Elements(names) {
      assert p in rest ==> p in pending && p != last;
    }
  }

  lemma VisitStep(tree: Tree, pending: seq<Path>, entries: seq<Entry>, visited: set<Path>, names: seq<Path>,
                  meter: Meter)
    requires Shaped(tree) && pending != [] && NoRepeats(pending) && NoRepeats(names)
    requires Walk(tree, Elements(pending), visited) && Read(tree, entries, visited, meter)
    requires Elements(names) == Children(tree, pending[|pending| - 1])
    requires var inode := tree[pending[|pending| - 1]]; IsFile(inode) || (IsDirectory(inode) && inode.data == [])
    ensures var path := pending[|pending| - 1];
      var after := pending[..|pending| - 1] + if IsDirectory(tree[path]) then names else [];
      && NoRepeats(after) && Walk(tree, Elements(after), visited + {path})
      && Read(tree, entries + [AsEntry(path, tree[path], meter)], visited + {path}, meter)
      && |tree.Keys - (visited + {path})| < |tree.Keys - visited|
  {
    var path := pending[|pending| - 1];
    WalkStep(tree, Elements(pending), visited, path);
    assert !IsDirectory(tree[path]) ==> names == [] by {
      if names != [] { assert names[0] in Elements(names); }
    }
    PopPush(pending, names);
    ReadStep(tree, entries, visited, path, meter);
    assert tree.Keys - visited == (tree.Keys - (visited + {path})) + {path};
  }

  lemma VisitedAll(tree: Tree, visited: set<Path>)
    requires Shaped(tree) && Walk(tree, {}, visited) && forall p | p in tree :: p[0] == "workspace"
    ensures visited == tree.Keys
  {
    forall p | p in tree ensures p in visited { AllVisited(tree, visited, p); }
  }

  lemma WalkDone(tree: Tree, entries: seq<Entry>, meter: Meter)
    requires Shaped(tree) && forall p | p in tree :: p[0] == "workspace"
    requires exists visited :: Walk(tree, {}, visited) && Read(tree, entries, visited, meter)
    ensures Distinct(entries) && AsMap(entries) == Listing(tree, meter)
    ensures forall p | p in tree ::
        (IsFile(tree[p]) || IsDirectory(tree[p])) && (IsDirectory(tree[p]) ==> tree[p].data == [])
  {
    var visited :| Walk(tree, {}, visited) && Read(tree, entries, visited, meter);
    VisitedAll(tree, visited);
    assert tree.Keys == visited;
  }

  /** The entries read so far are exactly the visited part of the tree, and readable. */
  ghost predicate Read(tree: Tree, entries: seq<Entry>, visited: set<Path>, meter: Meter) {
    && Distinct(entries) && visited <= tree.Keys && visited == AsMap(entries).Keys
    && forall p | p in visited ::
         && AsMap(entries)[p] == AsEntry(p, tree[p], meter)
         && (IsFile(tree[p]) || IsDirectory(tree[p])) && (IsDirectory(tree[p]) ==> tree[p].data == [])
  }

  lemma ReadStep(tree: Tree, entries: seq<Entry>, visited: set<Path>, path: Path, meter: Meter)
    requires Read(tree, entries, visited, meter) && path in tree && path !in visited
    requires IsFile(tree[path]) || (IsDirectory(tree[path]) && tree[path].data == [])
    ensures Read(tree, entries + [AsEntry(path, tree[path], meter)], visited + {path}, meter)
  {
    var longer := entries + [AsEntry(path, tree[path], meter)];
    AsMapStep(longer, |entries|);
    assert longer[..|entries|] == entries && longer[..|longer|] == longer;
  }

  lemma {:induction false} RootStored(tree: Tree, p: Path)
    requires Shaped(tree) && p in tree && forall q | q in tree :: q[0] == "workspace"
    ensures ["workspace"] in tree
    decreases |p|
  {
    if |p| == 1 {
      assert p == ["workspace"];
    } else {
      assert HasParent(tree, p);
      RootStored(tree, Parent(p));
    }
  }
}

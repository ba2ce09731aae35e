/**
 The workspace store. `Save` changes only what differs from the stored snapshot; it is proved to
 leave exactly the tree that writing the snapshot from scratch would leave.
 */
module AgentFs {
  import opened Common
  import opened Workspace
  import opened AgentFsTree
  import opened StoredTimes

  datatype Failure = Limit | Outside | Unsupported | Size | Invalid | Missing

  /** One of the longest paths, whichever the sort puts first. */
  method PickLongest(paths: set<Path>) returns (p: Path)
    requires paths != {}
    ensures p in paths && forall q | q in paths :: Length(q) <= Length(p)
  {
    Longest(paths);
    p :| p in paths && forall q | q in paths :: Length(q) <= Length(p);
  }

  method PickShortest(paths: set<Path>) returns (p: Path)
    requires paths != {}
    ensures p in paths && forall q | q in paths :: Length(p) <= Length(q)
  {
    Shortest(paths);
    p :| p in paths && forall q | q in paths :: Length(p) <= Length(q);
  }

  class AgentFsWorkspace {
    const meter: Meter
    var tree: Tree
    var clock: int

    ghost predicate Valid()
      reads this
    {
      Shaped(tree)
    }

    // ---------------------------------------------------------------- The file system underneath

    method ReadDir(path: Path) returns (names: seq<Path>)
      ensures Elements(names) == Children(tree, path) && NoRepeats(names)
    {
      names := [];
      var left := Children(tree, path);
      while left != {}
        invariant left <= Children(tree, path)
        invariant Elements(names) == Children(tree, path) - left && NoRepeats(names)
        decreases |left|
      {
        var p :| p in left;
        PushOne(names, p);
        names, left := names + [p], left - {p};
      }
    }

    /** Removes a path and everything under it; a missing path is no error. */
    method Rm(path: Path)
      requires Valid() && path != []
      modifies `tree
      ensures Valid() && tree == old(tree) - Below(old(tree), path)
    {
      tree := tree - Below(tree, path);
      forall p | p in tree && |p| > 1 ensures Parent(p) in tree && IsDirectory(tree[Parent(p)]) {
        assert HasParent(old(tree), p);
        assert path <= Parent(p) ==> path <= p;
      }
    }

    method MkDir(path: Path) returns (ok: bool)
      requires Valid() && path != []
      modifies `tree
      ensures Valid() && ok == (path !in old(tree) && HasParent(old(tree), path))
      ensures tree == if ok then old(tree)[path := Inode(DIRECTORY_BITS + 0x1ED, [], Stamp(clock, 0))] else old(tree)
    {
      ok := path !in tree && HasParent(tree, path);
      if ok { tree := tree[path := Inode(DIRECTORY_BITS + 0x1ED, [], Stamp(clock, 0))]; }
    }

    method WriteFile(path: Path, data: seq<Byte>) returns (ok: bool)
      requires Valid() && path != []
      modifies `tree
      ensures Valid() && ok == (HasParent(old(tree), path) && (path in old(tree) ==> !IsDirectory(old(tree)[path])))
      ensures ok ==> path in tree && tree[path].data == data && !IsDirectory(tree[path])
      ensures tree == if ok then old(tree)[path := tree[path]] else old(tree)
    {
      ok := HasParent(tree, path) && (path in tree ==> !IsDirectory(tree[path]));
      if ok {
        var mode := if path in tree then tree[path].mode else FILE_BITS + 0x1A4;
        tree := tree[path := Inode(mode, data, Stamp(clock, 0))];
      }
    }

    /** Updates the metadata of an inode that must exist. */
    method SetMetadata(e: Entry) returns (ok: bool)
      requires Valid() && (e.path in tree ==> IsDirectory(tree[e.path]) == e.directory)
      modifies `tree
      ensures Valid() && ok == (e.path in old(tree))
      ensures tree == if ok then old(tree)[e.path := Stored(e, meter).(data := old(tree)[e.path].data)] else old(tree)
    {
      ok := e.path in tree;
      if ok {
        tree := tree[e.path := Inode(KindBits(e.directory) + e.mode, tree[e.path].data, meter.split(e.mtime))];
      }
    }

    // ---------------------------------------------------------------- Loading

    /** Sums the stored sizes before any file is read. */
    method Bounds() returns (ok: bool)
      requires Valid()
      ensures ok <==> WithinLimits(tree, meter)
    {
      var total, left := 0, tree.Keys;
      ghost var summed: Snapshot := map[];
      while left != {}
        invariant left <= tree.Keys && summed == map p | p in tree && p !in left :: AsEntry(p, tree[p], meter)
        invariant total == Total(summed, DataSize) && forall p | p in tree && p !in left :: |tree[p].data| <= FILE_BYTES
        decreases |left|
      {
        var p :| p in left;
        if |tree[p].data| > FILE_BYTES { return false; }
        ghost var entry := AsEntry(p, tree[p], meter);
        TotalInsert(summed, entry, DataSize);
        total, left, summed := total + |tree[p].data|, left - {p}, summed[p := entry];
        assert summed == map p | p in tree && p !in left :: AsEntry(p, tree[p], meter);
      }
      assert summed == Listing(tree, meter);
      ok := total <= SNAPSHOT_BYTES;
    }

    /** Visits the last pending path: its entry is read and its children become pending. */
    method Visit(pending: seq<Path>, entries: seq<Entry>, ghost visited: set<Path>)
      returns (failure: Option<Failure>, todo: seq<Path>, read: seq<Entry>)
      requires Valid() && pending != [] && NoRepeats(pending)
      requires Walk(tree, Elements(pending), visited) && Read(tree, entries, visited, meter)
      ensures failure.Some? ==> !Loadable(tree, meter)
      ensures failure.None? ==> var now := visited + {pending[|pending| - 1]};
        && NoRepeats(todo) && Walk(tree, Elements(todo), now) && Read(tree, read, now, meter)
        && |tree.Keys - now| < |tree.Keys - visited|
    {
      var path := pending[|pending| - 1];
      var inode := tree[path];
      if (!IsFile(inode) && !IsDirectory(inode)) || (IsDirectory(inode) && inode.data != []) {
        Unreadable(tree, path, meter);
        return Some(if IsDirectory(inode) then Size else Unsupported), [], [];
      }
      var names := ReadDir(path);
      VisitStep(tree, pending, entries, visited, names, meter);
      read := entries + [AsEntry(path, inode, meter)];
      todo := pending[..|pending| - 1] + if IsDirectory(inode) then names else [];
      failure := None;
    }

    /** Reads the entries of a rooted tree with a work list, in no particular order. */
    method ReadTree() returns (r: Result<seq<Entry>, Failure>)
      requires Valid() && ["workspace"] in tree
      ensures r.Ok? ==> exists visited :: Walk(tree, {}, visited) && Read(tree, r.value, visited, meter)
      ensures r.Err? ==> !Loadable(tree, meter)
    {
      var pending: seq<Path>, entries: seq<Entry> := [["workspace"]], [];
      ghost var visited: set<Path> := {};
      while pending != []
        invariant NoRepeats(pending) && Walk(tree, Elements(pending), visited) && Read(tree, entries, visited, meter)
        decreases |tree.Keys - visited|
      {
        ghost var path := pending[|pending| - 1];
        var failure;
        failure, pending, entries := Visit(pending, entries, visited);
        if failure.Some? { return Err(failure.value); }
        visited := visited + {path};
      }
      assert Elements(pending) == {};
      return Ok(entries);
    }

    /** The tree is stored under /workspace and nowhere else. */
    method CheckRoots() returns (ok: bool)
      requires Valid() && tree != map[]
      ensures if ok then ["workspace"] in tree && (forall p | p in tree :: p[0] == "workspace")
          else !Loadable(tree, meter)
    {
      if outside :| outside in tree && outside[0] != "workspace" {
        ListingOutside(tree, meter, outside);
        return false;
      }
      ghost var some :| some in tree;
      RootStored(tree, some);
      return true;
    }

    method Load() returns (r: Result<seq<Entry>, Failure>)
      requires Valid()
      ensures r.Ok? <==> Loadable(tree, meter)
      ensures r.Ok? ==> Distinct(r.value) && AsMap(r.value) == Listing(tree, meter)
    {
      var ok := Bounds();
      if !ok {
        TooLarge(tree, meter);
        return Err(Limit);
      }
      if tree == map[] { return Ok([]); }
      ok := CheckRoots();
      if !ok { return Err(Outside); }
      r := ReadTree();
      if r.Ok? {
        WalkDone(tree, r.value, meter);
        ok := Validate(r.value, meter);
        if !ok { r := Err(Invalid); }
      }
    }

    // ---------------------------------------------------------------- Saving

    /** Removes stale paths, longest first. */
    method RemoveStale(previous: Snapshot, next: Snapshot) returns (kept: Snapshot)
      requires Valid() && previous == Listing(tree, meter)
      modifies `tree
      ensures Valid() && Within(tree, Kept(old(tree), next))
      ensures kept == Remaining(previous, next, {})
      ensures Closed(next) ==> tree == Kept(old(tree), next)
    {
      kept := previous;
      var left := previous.Keys;
      ghost var start := tree;
      assert Pruned(start, next, left) == start && Remaining(previous, next, left) == previous;
      while left != {}
        invariant Valid() && left <= start.Keys && Within(tree, Pruned(start, next, left))
        invariant kept == Remaining(previous, next, left)
        invariant Closed(next) ==> tree == Pruned(start, next, left)
        decreases |left|
      {
        var p := PickLongest(left);
        RemoveStep(tree, start, next, left, p);
        RemainStep(previous, next, left, p);
        if p !in next || next[p].directory != previous[p].directory {
          Rm(p);
          kept := kept - {p};
        }
        left := left - {p};
      }
      assert Pruned(start, next, {}) == Kept(start, next);
    }

    /** Creates or rewrites one path where the kept snapshot does not already have it. */
    method BuildOne(e: Entry, kept: Snapshot) returns (ok: bool)
      requires Valid() && e.path != [] && (e.path in tree ==> IsDirectory(tree[e.path]) == e.directory)
      modifies `tree
      ensures Valid() && (e.path in tree ==> IsDirectory(tree[e.path]) == e.directory)
      ensures tree == old(tree) || (e.path in tree && tree == old(tree)[e.path := tree[e.path]])
      ensures Ready(old(tree), kept, e) ==> ok && Placed(old(tree), tree, e)
    {
      ok := true;
      if e.directory {
        if e.path !in kept { ok := MkDir(e.path); }
      } else if e.path !in kept || kept[e.path].data != e.data {
        ok := WriteFile(e.path, e.data);
      }
    }

    /** Creates directories and writes changed files, shortest path first. */
    method Build(kept: Snapshot, next: Snapshot) returns (ok: bool)
      requires Valid() && KindsAgree(tree, next)
      requires forall p | p in next :: next[p].path == p && p != []
      modifies `tree
      ensures Valid() && KindsAgree(tree, next)
      ensures Closed(next) && Tidy(old(tree), next) && kept == Listing(old(tree), meter) ==>
        ok && HoldsAll(tree, next)
    {
      var left := next.Keys;
      ghost var start := tree;
      ghost var easy := Closed(next) && Tidy(start, next) && kept == Listing(start, meter);
      while left != {}
        invariant Valid() && KindsAgree(tree, next) && left <= next.Keys
        invariant easy ==> Built(tree, start, next, left)
        decreases |left|
      {
        var p := PickShortest(left);
        ghost var before := tree;
        if easy { BuildReady(tree, start, kept, next, left, p, meter); }
        ok := BuildOne(next[p], kept);
        OneAgrees(before, tree, next, p);
        if !ok { return; }
        if easy { BuildStep(before, tree, start, next, left, p); }
        left := left - {p};
      }
      ok := true;
      if easy { BuiltAll(tree, start, next); }
    }

    /** Writes mode and time of every entry. */
    method Label(next: Snapshot) returns (ok: bool)
      requires Valid() && KindsAgree(tree, next)
      requires forall p | p in next :: next[p].path == p
      modifies `tree
      ensures Valid()
      ensures next.Keys <= old(tree).Keys ==> ok && tree == Labelled(old(tree), next, {}, meter)
    {
      var left := next.Keys;
      ghost var start := tree;
      assert Labelled(start, next, left, meter) == start;
      while left != {}
        invariant Valid() && KindsAgree(tree, next) && left <= next.Keys && tree.Keys == start.Keys
        invariant tree == Labelled(start, next, left, meter)
        decreases |left|
      {
        var p :| p in left;
        LabelOne(start, next, left, p, meter);
        ok := SetMetadata(next[p]);
        if !ok { return; }
        left := left - {p};
      }
      ok := true;
    }

    method Save(entries: seq<Entry>) returns (r: Result<(), Failure>)
      requires Valid()
      modifies `tree
      ensures Valid()
      ensures r.Ok? ==> Distinct(entries) && Workspace.Valid(AsMap(entries), meter) && Loadable(old(tree), meter)
      ensures Distinct(entries) && Workspace.Valid(AsMap(entries), meter) && Loadable(old(tree), meter)
          && Closed(AsMap(entries))
        ==> r.Ok? && tree == FullWrite(AsMap(entries), meter)
    {
      var ok := Validate(entries, meter);
      if !ok { return Err(Invalid); }
      var stored := Load();
      if stored.Err? { return Err(stored.error); }
      var next := AsMap(entries);
      AsMapAt(entries);
      var kept := RemoveStale(AsMap(stored.value), next);
      KeptTidy(old(tree), next, meter);
      ok := Build(kept, next);
      if !ok { return Err(Missing); }
      ghost var built := tree;
      ok := Label(next);
      if !ok { return Err(Missing); }
      if Closed(next) { LabelledIsFull(built, next, meter); }
      return Ok(());
    }

    /** The caller's transaction: a failed save leaves the stored tree alone. */
    method Transact(entries: seq<Entry>) returns (ok: bool)
      requires Valid()
      modifies `tree
      ensures Valid() && (!ok ==> tree == old(tree))
      ensures ok ==> Distinct(entries) && Workspace.Valid(AsMap(entries), meter) && Loadable(old(tree), meter)
      ensures Distinct(entries) && Workspace.Valid(AsMap(entries), meter) && Loadable(old(tree), meter)
          && Closed(AsMap(entries))
        ==> ok && tree == FullWrite(AsMap(entries), meter)
    {
      var before := tree;
      var saved := Save(entries);
      ok := saved.Ok?;
      if !ok { tree := before; }
    }

    /** Saving over any stored tree and loading again returns exactly the snapshot if and only if the
        snapshot is valid, closed under parents and has only times that last, and the tree before could be
        loaded. */
    method SaveThenLoad(entries: seq<Entry>) returns (same: bool)
      requires Valid() && RuntimeTimes(meter) && forall e | e in entries :: Number(e.mtime)
      modifies `tree
      ensures Valid()
      ensures same <==>
        && Distinct(entries) && Workspace.Valid(AsMap(entries), meter) && Closed(AsMap(entries))
        && (forall e | e in entries :: Lasting(e.mtime)) && Loadable(old(tree), meter)
    {
      AsMapAt(entries);
      forall e | e in entries ensures Survives(e.mtime, meter) <==> Lasting(e.mtime) {
        SurvivesIffLasting(e.mtime, meter);
      }
      var ok := Transact(entries);
      if !ok { return false; }
      var next := AsMap(entries);
      var loaded := Load();
      same := loaded.Ok? && AsMap(loaded.value) == next;
      if same {
        OnlyClosedIsStored(tree, next, meter);
      }
      if Closed(next) {
        FullWriteListing(next, meter);
        if TimesSurvive(next, meter) { FullWriteLoads(next, meter); }
      }
    }
  }
}

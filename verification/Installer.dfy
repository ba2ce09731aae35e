/** The installer object: a project's files and lockfile, changed by imports and removals. */
module Installer {
  import opened Common
  import opened Installation

  datatype Failure = OwnedByAnother | Conflicts(paths: set<Path>) | NotInstalled

  /** A plugin as inspected and generated: its id and name, its files, its other lockfile settings. */
  datatype Source = Source(id: string, name: string, generated: map<Path, Content>, settings: nat)

  /** Compares one generated file with what is on disk; None is a conflict. */
  method ChangeOf(hash: Content -> Hash, tree: Tree, owned: map<Path, Hash>, path: Path, content: Content)
    returns (kind: Option<Kind>)
    ensures kind == GeneratedChange(hash, tree, owned, path, content)
  {
    var current := CurrentHash(hash, tree, path);
    var desired := hash(content);
    if current == Absent {
      kind := Some(Add);
    } else if path !in owned || current != Hashed(owned[path]) {
      kind := None;
    } else {
      kind := Some(if current == Hashed(desired) then Unchanged else Update);
    }
  }

  method PlanGenerated(hash: Content -> Hash, tree: Tree, owned: map<Path, Hash>, generated: map<Path, Content>)
    returns (changes: map<Path, Kind>, conflicts: set<Path>)
    ensures GeneratedPart(Expected(hash, tree, owned, generated), generated.Keys, changes, conflicts)
  {
    changes, conflicts := map[], {};
    ghost var expected := Expected(hash, tree, owned, generated);
    var left, looked := generated.Keys, {};
    while left != {}
      invariant left == expected.Keys - looked && looked <= expected.Keys
      invariant GeneratedPart(expected, looked, changes, conflicts)
      decreases |left|
    {
      var path :| path in left;
      LookAtOne(expected, looked, changes, conflicts, path);
      var kind := ChangeOf(hash, tree, owned, path, generated[path]);
      assert kind == expected[path];
      if kind.Some? {
        changes := changes[path := kind.value];
      } else {
        conflicts := conflicts + {path};
      }
      left, looked := left - {path}, looked + {path};
    }
  }

  /** Sorts owned paths into those still as recorded and those changed since; missing ones are neither. */
  method Inspect(hash: Content -> Hash, tree: Tree, owned: map<Path, Hash>, paths: set<Path>)
    returns (present: set<Path>, changed: set<Path>)
    requires paths <= owned.Keys
    ensures Sorted(hash, tree, owned, paths, present, changed)
  {
    present, changed := {}, {};
    var left, looked := paths, {};
    while left != {}
      invariant left !! looked && left + looked == paths && Sorted(hash, tree, owned, looked, present, changed)
      decreases |left|
    {
      var path :| path in left;
      SortOne(hash, tree, owned, looked, present, changed, path);
      var actual := CurrentHash(hash, tree, path);
      if actual == Absent {
      } else if actual != Hashed(owned[path]) {
        changed := changed + {path};
      } else {
        present := present + {path};
      }
      left, looked := left - {path}, looked + {path};
    }
  }

  class Project {
    const hash: Content -> Hash
    const policy: Content
    var tree: Tree
    var lock: Lock

    constructor (hash: Content -> Hash, policy: Content, tree: Tree, lock: Lock)
      ensures this.hash == hash && this.policy == policy && this.tree == tree && this.lock == lock
    {
      this.hash, this.policy, this.tree, this.lock := hash, policy, tree, lock;
    }

    ghost predicate Good()
      reads this
    {
      Consistent(hash, tree, lock)
    }

    method Prepare(source: Source) returns (plan: Plan)
      ensures PlanFor(hash, tree, Owned(lock, source.id), source.generated, plan)
    {
      var owned := Owned(lock, source.id);
      var changes, conflicts := PlanGenerated(hash, tree, owned, source.generated);
      var present, changed := Inspect(hash, tree, owned, owned.Keys - source.generated.Keys);
      PlanParts(hash, tree, owned, source.generated, changes, conflicts, present, changed);
      plan := Plan(changes + (map p | p in present :: Delete), conflicts + changed);
    }

    method Write(paths: set<Path>, generated: map<Path, Content>)
      requires paths <= generated.Keys
      modifies `tree
      ensures tree == old(tree) + map p | p in paths :: File(generated[p])
    {
      var left := paths;
      ghost var start := tree;
      while left != {}
        invariant left <= paths && tree == start + map p | p in paths && p !in left :: File(generated[p])
        decreases |left|
      {
        var path :| path in left;
        tree := tree[path := File(generated[path])];
        left := left - {path};
      }
      assert (map p | p in paths && p !in left :: File(generated[p])) == map p | p in paths :: File(generated[p]);
    }

    method Unlink(paths: set<Path>)
      modifies `tree
      ensures tree == old(tree) - paths
    {
      var left := paths;
      ghost var start := tree;
      while left != {}
        invariant left <= paths && tree == start - (paths - left)
        decreases |left|
      {
        var path :| path in left;
        tree := tree - {path};
        left := left - {path};
        assert paths - left == (paths - (left + {path})) + {path};
      }
      assert paths - {} == paths;
    }

    /** Plans, refuses on any conflict, and otherwise creates the policy, writes, deletes and records. */
    method Apply(source: Source) returns (r: Result<Plan, Failure>)
      modifies this
      ensures r.Err? ==> tree == old(tree) && lock == old(lock)
      ensures r.Ok? ==>
        && PlanFor(hash, old(tree), Owned(old(lock), source.id), source.generated, r.value) && r.value.conflicts == {}
        && Applied(old(tree), tree, source.generated, r.value, policy)
        && lock == old(lock)[source.id := Entry(source.name, Hashes(hash, source.generated), source.settings)]
      ensures old(Good()) && r.Ok? && POLICY !in source.generated ==> Good()
      ensures forall p | p in old(tree) ::
        SameAt(old(tree), tree, p) || Intact(hash, old(tree), Owned(old(lock), source.id), p)
      ensures r.Ok? <==>
        && (source.id in old(lock) ==> old(lock)[source.id].name == source.name)
        && (forall p | (p in source.generated || p in Owned(old(lock), source.id)) && p in old(tree) ::
              Intact(hash, old(tree), Owned(old(lock), source.id), p))
    {
      if source.id in lock && lock[source.id].name != source.name { return Err(OwnedByAnother); }
      var plan := Prepare(source);
      forall p
        ensures p in plan.conflicts <==>
          (p in source.generated || p in Owned(lock, source.id)) && p in tree
          && !Intact(hash, tree, Owned(lock, source.id), p)
      {
        ConflictsAreForeign(hash, tree, Owned(lock, source.id), source.generated, plan, p);
      }
      if plan.conflicts != {} { return Err(Conflicts(plan.conflicts)); }
      ghost var before, locked := tree, lock;
      if POLICY !in tree { tree := tree[POLICY := File(policy)]; }
      var writes := set p | p in plan.changes && (plan.changes[p] == Add || plan.changes[p] == Update);
      assert writes <= source.generated.Keys;
      Write(writes, source.generated);
      var deletes := set p | p in plan.changes && plan.changes[p] == Delete;
      Unlink(deletes);
      var entry := Entry(source.name, Hashes(hash, source.generated), source.settings);
      lock := lock[source.id := entry];
      AppliedBy(before, tree, source.generated, plan, policy, writes, deletes);
      forall p | p in before ensures SameAt(before, tree, p) || Intact(hash, before, Owned(locked, source.id), p) {
        ForeignFilesStay(hash, before, tree, Owned(locked, source.id), source.generated, plan, policy, p);
      }
      if Consistent(hash, before, locked) && POLICY !in source.generated {
        ApplyKeepsConsistent(hash, before, tree, locked, source.id, entry, source.generated, plan, policy);
      }
      r := Ok(plan);
    }

    /** After a successful import, planning the same source again finds only unchanged files. */
    method ApplyThenPlan(source: Source) returns (r: Result<Plan, Failure>, again: Plan)
      modifies this
      ensures r.Ok? && POLICY !in source.generated && POLICY !in Owned(old(lock), source.id) ==>
        again.conflicts == {} && again.changes.Keys == source.generated.Keys
        && forall p | p in again.changes :: again.changes[p] == Unchanged
    {
      r := Apply(source);
      again := Prepare(source);
      if r.Ok? && POLICY !in source.generated && POLICY !in Owned(old(lock), source.id) {
        ReplanIsUnchanged(hash, old(tree), tree, Owned(old(lock), source.id), source.generated, r.value, policy, again);
      }
    }

    /** A plugin imported for the first time can be removed again, which undoes the import. */
    method ApplyThenRemove(source: Source) returns (r: Result<Plan, Failure>, removed: Result<set<Path>, Failure>)
      requires source.id !in lock && POLICY !in source.generated
      modifies this
      ensures removed.Ok? <==> r.Ok?
      ensures lock == old(lock)
      ensures tree == if r.Ok? && POLICY !in old(tree) then old(tree)[POLICY := File(policy)] else old(tree)
    {
      ghost var before, locked := tree, lock;
      r := Apply(source);
      ghost var after, entry := tree, Entry(source.name, Hashes(hash, source.generated), source.settings);
      if r.Ok? {
        GeneratedMatch(hash, before, tree, map[], source.generated, r.value, policy);
        Installation.ApplyThenRemove(hash, before, tree, locked, source.id, entry, source.generated, r.value, policy);
      }
      removed := Remove(source.id);
    }

    method Check() returns (ok: bool)
      ensures ok <==>
        && (lock == map[] || POLICY in tree)
        && (forall id, p | id in lock && p in lock[id].files :: Intact(hash, tree, lock[id].files, p))
    {
      if lock != map[] && POLICY !in tree { return false; }
      var plugins := lock.Keys;
      while plugins != {}
        invariant plugins <= lock.Keys
        invariant forall id | id in lock && id !in plugins :: OwnedFilesMatch(hash, tree, lock[id].files)
        decreases |plugins|
      {
        var id :| id in plugins;
        var left := lock[id].files.Keys;
        while left != {}
          invariant left <= lock[id].files.Keys
          invariant forall p | p in lock[id].files && p !in left ::
              CurrentHash(hash, tree, p) == Hashed(lock[id].files[p])
          decreases |left|
        {
          var path :| path in left;
          if CurrentHash(hash, tree, path) != Hashed(lock[id].files[path]) { return false; }
          left := left - {path};
        }
        plugins := plugins - {id};
      }
      ok := true;
    }

    method Remove(id: string) returns (r: Result<set<Path>, Failure>)
      modifies this
      ensures r.Err? ==> tree == old(tree) && lock == old(lock)
      ensures r.Err? ==> id !in old(lock) || !OwnedFilesMatch(hash, tree, old(lock)[id].files)
      ensures r.Ok? ==> id in old(lock) && tree == old(tree) - old(lock)[id].files.Keys && lock == old(lock) - {id}
      ensures r.Ok? ==> r.value == old(tree).Keys * old(lock)[id].files.Keys
      ensures r.Ok? <==> id in old(lock) && forall p | p in old(lock)[id].files && p in old(tree) ::
        Intact(hash, old(tree), old(lock)[id].files, p)
      ensures old(Good()) ==> (r.Ok? <==> id in old(lock)) && Good()
    {
      if id !in lock { return Err(NotInstalled); }
      var files := lock[id].files;
      var present, changed := Inspect(hash, tree, files, files.Keys);
      if changed != {} {
        ghost var p :| p in changed;
        return Err(Conflicts(changed));
      }
      ghost var before, locked := tree, lock;
      Unlink(present);
      lock := lock - {id};
      assert tree == before - files.Keys;
      assert present == before.Keys * files.Keys;
      if Consistent(hash, before, locked) { RemoveKeepsConsistent(hash, before, tree, locked, id); }
      r := Ok(present);
    }
  }
}

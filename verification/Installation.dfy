/** What a plugin installation is: owned files with recorded hashes, plans, and what they keep. */
module Installation {
  import opened Common

  datatype Path = Path(text: string)

  datatype Content = Content(text: string)

  type Hash = nat

  const POLICY: Path := Path("agent/lib/openai-plugin-access.ts")

  datatype Node = File(content: Content) | Special

  type Tree = map<Path, Node>

  /** A plugin's lockfile entry: its name, the hashes of its files, and its other settings. */
  datatype Entry = Entry(name: string, files: map<Path, Hash>, settings: nat)

  type Lock = map<string, Entry>

  datatype Observed = Absent | NotAFile | Hashed(hash: Hash)

  function CurrentHash(hash: Content -> Hash, tree: Tree, path: Path): Observed {
    if path !in tree then Absent
    else if tree[path].Special? then NotAFile
    else Hashed(hash(tree[path].content))
  }

  // ------------------------------------------------------------------ Consistency

  predicate OwnedFilesMatch(hash: Content -> Hash, tree: Tree, files: map<Path, Hash>) {
    forall p | p in files :: CurrentHash(hash, tree, p) == Hashed(files[p])
  }

  predicate FilesMatch(hash: Content -> Hash, tree: Tree, lock: Lock) {
    && (lock != map[] ==> POLICY in tree)
    && (forall id | id in lock :: OwnedFilesMatch(hash, tree, lock[id].files))
  }

  predicate Disjoint(lock: Lock) {
    forall a, b | a in lock && b in lock && a != b :: lock[a].files.Keys !! lock[b].files.Keys
  }

  /** No plugin owns the access policy. */
  predicate PolicyFree(lock: Lock) {
    forall id | id in lock :: POLICY !in lock[id].files
  }

  predicate Consistent(hash: Content -> Hash, tree: Tree, lock: Lock) {
    FilesMatch(hash, tree, lock) && Disjoint(lock) && PolicyFree(lock)
  }

  // ------------------------------------------------------------------ Plans

  datatype Kind = Add | Update | Unchanged | Delete

  datatype Plan = Plan(changes: map<Path, Kind>, conflicts: set<Path>)

  /** What becomes of a generated path; None is a conflict. */
  function GeneratedChange(hash: Content -> Hash, tree: Tree, owned: map<Path, Hash>, path: Path,
                           content: Content): Option<Kind> {
    var current := CurrentHash(hash, tree, path);
    if current == Absent then Some(Add)
    else if path !in owned then None
    else if current != Hashed(owned[path]) then None
    else Some(if owned[path] == hash(content) then Unchanged else Update)
  }

  /** A path owned so far but no longer generated, if it is still there. */
  function DroppedChange(hash: Content -> Hash, tree: Tree, owned: map<Path, Hash>, path: Path): Option<Kind>
    requires path in owned
  {
    if CurrentHash(hash, tree, path) == Hashed(owned[path]) then Some(Delete) else None
  }

  ghost predicate PlanFor(hash: Content -> Hash, tree: Tree, owned: map<Path, Hash>, generated: map<Path, Content>,
                          plan: Plan) {
    && (forall p | p in plan.changes || p in plan.conflicts :: p in generated || p in owned)
    && (forall p | p in generated ::
          match GeneratedChange(hash, tree, owned, p, generated[p])
          case Some(kind) => p in plan.changes && plan.changes[p] == kind && p !in plan.conflicts
          case None => p !in plan.changes && p in plan.conflicts)
    && (forall p | p in owned && p !in generated ::
          if p !in tree then p !in plan.changes && p !in plan.conflicts
          else if DroppedChange(hash, tree, owned, p).Some? then p in plan.changes && plan.changes[p] == Delete
            && p !in plan.conflicts
          else p !in plan.changes && p in plan.conflicts)
  }

  function Expected(hash: Content -> Hash, tree: Tree, owned: map<Path, Hash>, generated: map<Path, Content>):
    map<Path, Option<Kind>> {
    map p | p in generated :: GeneratedChange(hash, tree, owned, p, generated[p])
  }

  /** The part of a plan that deals with the generated paths looked at so far. */
  ghost predicate GeneratedPart(expected: map<Path, Option<Kind>>, looked: set<Path>, changes: map<Path, Kind>,
                                conflicts: set<Path>) {
    && looked <= expected.Keys
    && (forall p | p in changes || p in conflicts :: p in looked)
    && (forall p | p in looked ::
          if p in changes then p !in conflicts && expected[p] == Some(changes[p])
            else p in conflicts && expected[p] == None)
  }

  /** Of the paths looked at, the present ones are as recorded and the changed ones are not. */
  ghost predicate Sorted(hash: Content -> Hash, tree: Tree, owned: map<Path, Hash>, looked: set<Path>,
                         present: set<Path>, changed: set<Path>)
  {
    && looked <= owned.Keys && present + changed <= looked && present !! changed
    && (forall p | p in looked :: p in present + changed <==> p in tree)
    && (forall p | p in present :: CurrentHash(hash, tree, p) == Hashed(owned[p]))
    && (forall p | p in changed :: CurrentHash(hash, tree, p) != Hashed(owned[p]))
  }

  lemma LookAtOne(expected: map<Path, Option<Kind>>, looked: set<Path>, changes: map<Path, Kind>,
                  conflicts: set<Path>, path: Path)
    requires GeneratedPart(expected, looked, changes, conflicts) && path in expected && path !in looked
    ensures expected[path].Some? ==>
        GeneratedPart(expected, looked + {path}, changes[path := expected[path].value], conflicts)
    ensures expected[path].None? ==> GeneratedPart(expected, looked + {path}, changes, conflicts + {path})
  {
  }

  lemma SortOne(hash: Content -> Hash, tree: Tree, owned: map<Path, Hash>, looked: set<Path>, present: set<Path>,
                changed: set<Path>, path: Path)
    requires Sorted(hash, tree, owned, looked, present, changed) && path in owned && path !in looked
    ensures match CurrentHash(hash, tree, path)
            case Absent => Sorted(hash, tree, owned, looked + {path}, present, changed)
            case _ => if CurrentHash(hash, tree, path) == Hashed(owned[path])
                      then Sorted(hash, tree, owned, looked + {path}, present + {path}, changed)
                      else Sorted(hash, tree, owned, looked + {path}, present, changed + {path})
  {
  }

  lemma PlanParts(hash: Content -> Hash, tree: Tree, owned: map<Path, Hash>, generated: map<Path, Content>,
                  changes: map<Path, Kind>, conflicts: set<Path>, present: set<Path>, changed: set<Path>)
    requires GeneratedPart(Expected(hash, tree, owned, generated), generated.Keys, changes, conflicts)
    requires Sorted(hash, tree, owned, owned.Keys - generated.Keys, present, changed)
    ensures PlanFor(hash, tree, owned, generated, Plan(changes + (map p | p in present :: Delete), conflicts + changed))
  {
  }

  // ------------------------------------------------------------------ What a plan says

  /** The file on disk is the one that was installed: its hash is the recorded one. */
  predicate Intact(hash: Content -> Hash, tree: Tree, owned: map<Path, Hash>, p: Path) {
    p in owned && p in tree && tree[p].File? && hash(tree[p].content) == owned[p]
  }

  /** Exactly what is in the way is a conflict: paths of the new or the old version where something is that
      is not the file installed there. */
  lemma ConflictsAreForeign(hash: Content -> Hash, tree: Tree, owned: map<Path, Hash>,
                            generated: map<Path, Content>, plan: Plan, p: Path)
    requires PlanFor(hash, tree, owned, generated, plan)
    ensures p in plan.conflicts
      <==> (p in generated || p in owned) && p in tree && !Intact(hash, tree, owned, p)
  {
  }

  /** A plan without conflicts adds what is not there, updates installed files whose content is new, and
      deletes installed files that are no longer generated. */
  lemma PlanSays(hash: Content -> Hash, tree: Tree, owned: map<Path, Hash>, generated: map<Path, Content>, plan: Plan,
                 p: Path)
    requires PlanFor(hash, tree, owned, generated, plan) && plan.conflicts == {}
    ensures p in plan.changes && plan.changes[p] == Add <==> p in generated && p !in tree
    ensures p in plan.changes && plan.changes[p] == Update <==>
      p in generated && Intact(hash, tree, owned, p) && owned[p] != hash(generated[p])
    ensures p in plan.changes && plan.changes[p] == Unchanged <==>
      p in generated && Intact(hash, tree, owned, p) && owned[p] == hash(generated[p])
    ensures p in plan.changes && plan.changes[p] == Delete <==> p !in generated && Intact(hash, tree, owned, p)
  {
    if p in generated { assert GeneratedChange(hash, tree, owned, p, generated[p]).Some?; }
  }

  function Owned(lock: Lock, id: string): map<Path, Hash> {
    if id in lock then lock[id].files else map[]
  }

  function Hashes(hash: Content -> Hash, generated: map<Path, Content>): map<Path, Hash> {
    map p | p in generated :: hash(generated[p])
  }

  // ------------------------------------------------------------------ What applying leaves

  predicate Writes(plan: Plan, p: Path) {
    p in plan.changes && (plan.changes[p] == Add || plan.changes[p] == Update)
  }

  predicate Deletes(plan: Plan, p: Path) {
    p in plan.changes && plan.changes[p] == Delete
  }

  predicate SameAt(a: Tree, b: Tree, p: Path) {
    (p in a <==> p in b) && (p in a ==> a[p] == b[p])
  }

  /** The tree after a plan without conflicts: the policy is created if missing, added and updated
      files are written, dropped files deleted, and everything else is as before. */
  ghost predicate Applied(before: Tree, after: Tree, generated: map<Path, Content>, plan: Plan, policy: Content) {
    && (forall p | Writes(plan, p) && p in generated :: p in after && after[p] == File(generated[p]))
    && (forall p | Deletes(plan, p) :: p !in after)
    && (POLICY !in before && !Writes(plan, POLICY) && !Deletes(plan, POLICY) ==>
          POLICY in after && after[POLICY] == File(policy))
    && (forall p | !Writes(plan, p) && !Deletes(plan, p) && (p != POLICY || POLICY in before) ::
          (p in after <==> p in before) && (p in before ==> after[p] == before[p]))
  }

  lemma AppliedBy(before: Tree, after: Tree, generated: map<Path, Content>, plan: Plan, policy: Content,
                  writes: set<Path>, deletes: set<Path>)
    requires (forall p :: p in writes <==> Writes(plan, p)) && (forall p :: p in deletes <==> Deletes(plan, p))
    requires writes <= generated.Keys
    requires after == (if POLICY in before then before else before[POLICY := File(policy)])
                      + (map p | p in writes :: File(generated[p])) - deletes
    ensures Applied(before, after, generated, plan, policy)
  {
  }

  /** Another plugin's file is not in the plan of this one. */
  lemma OthersUntouched(hash: Content -> Hash, tree: Tree, lock: Lock, id: string, generated: map<Path, Content>,
                        plan: Plan, other: string, p: Path)
    requires Consistent(hash, tree, lock) && PlanFor(hash, tree, Owned(lock, id), generated, plan)
        && plan.conflicts == {}
    requires other in lock && other != id && p in lock[other].files
    ensures p !in generated && p !in Owned(lock, id) && p !in plan.changes
  {
    assert OwnedFilesMatch(hash, tree, lock[other].files);
    assert CurrentHash(hash, tree, p) == Hashed(lock[other].files[p]) && p !in Owned(lock, id);
  }

  lemma GeneratedMatch(hash: Content -> Hash, before: Tree, after: Tree, owned: map<Path, Hash>,
                       generated: map<Path, Content>, plan: Plan, policy: Content)
    requires PlanFor(hash, before, owned, generated, plan) && plan.conflicts == {}
    requires Applied(before, after, generated, plan, policy) && POLICY !in generated && POLICY !in owned
    ensures OwnedFilesMatch(hash, after, Hashes(hash, generated))
  {
    forall p | p in generated ensures CurrentHash(hash, after, p) == Hashed(hash(generated[p])) {
      assert GeneratedChange(hash, before, owned, p, generated[p]).Some?;
    }
  }

  lemma OwnFilesStay(hash: Content -> Hash, before: Tree, after: Tree, lock: Lock, id: string, entry: Entry,
                     generated: map<Path, Content>, plan: Plan, policy: Content, other: string)
    requires Consistent(hash, before, lock) && PlanFor(hash, before, Owned(lock, id), generated, plan)
        && plan.conflicts == {}
    requires Applied(before, after, generated, plan, policy) && POLICY !in generated
    requires entry.files == Hashes(hash, generated)
    requires other in lock[id := entry]
    ensures OwnedFilesMatch(hash, after, lock[id := entry][other].files)
  {
    GeneratedMatch(hash, before, after, Owned(lock, id), generated, plan, policy);
    if other != id {
      forall p | p in lock[other].files ensures CurrentHash(hash, after, p) == Hashed(lock[other].files[p]) {
        OthersUntouched(hash, before, lock, id, generated, plan, other, p);
        assert OwnedFilesMatch(hash, before, lock[other].files);
      }
    }
  }

  /** A successful import keeps a consistent installation consistent. */
  lemma ApplyKeepsConsistent(hash: Content -> Hash, before: Tree, after: Tree, lock: Lock, id: string, entry: Entry,
                             generated: map<Path, Content>, plan: Plan, policy: Content)
    requires Consistent(hash, before, lock) && PlanFor(hash, before, Owned(lock, id), generated, plan)
        && plan.conflicts == {}
    requires Applied(before, after, generated, plan, policy) && POLICY !in generated
    requires entry.files == Hashes(hash, generated)
    ensures Consistent(hash, after, lock[id := entry])
  {
    var next := lock[id := entry];
    forall other | other in next ensures OwnedFilesMatch(hash, after, next[other].files) {
      OwnFilesStay(hash, before, after, lock, id, entry, generated, plan, policy, other);
    }
    forall a, b | a in next && b in next && a != b ensures next[a].files.Keys !! next[b].files.Keys {
      forall p | p in next[a].files && p in next[b].files ensures false {
        if a == id {
          OthersUntouched(hash, before, lock, id, generated, plan, b, p);
        } else if b == id {
          OthersUntouched(hash, before, lock, id, generated, plan, a, p);
        }
      }
    }
  }

  /** An import touches no file outside the plugin's old and new paths and the access policy. */
  lemma ApplyFrame(before: Tree, after: Tree, owned: map<Path, Hash>, hash: Content -> Hash,
                   generated: map<Path, Content>, plan: Plan, policy: Content, p: Path)
    requires PlanFor(hash, before, owned, generated, plan) && Applied(before, after, generated, plan, policy)
    requires p !in generated && p !in owned && p != POLICY
    ensures (p in after <==> p in before) && (p in before ==> after[p] == before[p])
  {
  }

  /** Nothing that was there is changed or deleted, unless it is the very file that was installed. */
  lemma ForeignFilesStay(hash: Content -> Hash, before: Tree, after: Tree, owned: map<Path, Hash>,
                         generated: map<Path, Content>, plan: Plan, policy: Content, p: Path)
    requires PlanFor(hash, before, owned, generated, plan) && plan.conflicts == {}
    requires Applied(before, after, generated, plan, policy) && p in before
    ensures SameAt(before, after, p) || Intact(hash, before, owned, p)
  {
    PlanSays(hash, before, owned, generated, plan, p);
  }

  /** Afterwards the new version is there and nothing of the old version that is not in it. */
  lemma ImportLeaves(hash: Content -> Hash, before: Tree, after: Tree, owned: map<Path, Hash>,
                     generated: map<Path, Content>, plan: Plan, policy: Content, p: Path)
    requires PlanFor(hash, before, owned, generated, plan) && plan.conflicts == {}
    requires Applied(before, after, generated, plan, policy)
    ensures p in generated ==> p in after && after[p].File? && hash(after[p].content) == hash(generated[p])
    ensures p in generated && !(Intact(hash, before, owned, p) && owned[p] == hash(generated[p])) ==>
      p in after && after[p] == File(generated[p])
    ensures p in owned && p !in generated && (p != POLICY || POLICY in before) ==> p !in after
    ensures POLICY !in generated && POLICY !in owned ==>
      POLICY in after && after[POLICY] == if POLICY in before then before[POLICY] else File(policy)
  {
    PlanSays(hash, before, owned, generated, plan, p);
    ConflictsAreForeign(hash, before, owned, generated, plan, p);
  }

  /** Planning the same source again finds nothing to do. */
  lemma ReplanIsUnchanged(hash: Content -> Hash, before: Tree, after: Tree, owned: map<Path, Hash>,
                          generated: map<Path, Content>, plan: Plan, policy: Content, again: Plan)
    requires PlanFor(hash, before, owned, generated, plan) && plan.conflicts == {}
    requires Applied(before, after, generated, plan, policy) && POLICY !in generated && POLICY !in owned
    requires PlanFor(hash, after, Hashes(hash, generated), generated, again)
    ensures again.conflicts == {} && again.changes.Keys == generated.Keys
    ensures forall p | p in again.changes :: again.changes[p] == Unchanged
  {
    GeneratedMatch(hash, before, after, owned, generated, plan, policy);
    var hashes := Hashes(hash, generated);
    forall p | p in generated ensures GeneratedChange(hash, after, hashes, p, generated[p]) == Some(Unchanged) {
      assert CurrentHash(hash, after, p) == Hashed(hashes[p]);
    }
  }

  /** Removing a plugin's files keeps the other plugins' installation consistent. */
  lemma RemoveKeepsConsistent(hash: Content -> Hash, before: Tree, after: Tree, lock: Lock, id: string)
    requires Consistent(hash, before, lock) && id in lock
    requires after == before - lock[id].files.Keys
    ensures Consistent(hash, after, lock - {id})
  {
    forall other | other in lock - {id} ensures OwnedFilesMatch(hash, after, (lock - {id})[other].files) {
      assert OwnedFilesMatch(hash, before, lock[other].files);
      assert lock[other].files.Keys !! lock[id].files.Keys;
    }
  }

  /** Importing a plugin that was not installed and removing it again leaves every file and the lockfile
      as they were, except that the access policy now exists. */
  lemma ApplyThenRemove(hash: Content -> Hash, before: Tree, after: Tree, lock: Lock, id: string, entry: Entry,
                        generated: map<Path, Content>, plan: Plan, policy: Content)
    requires id !in lock && PlanFor(hash, before, map[], generated, plan) && plan.conflicts == {}
    requires Applied(before, after, generated, plan, policy) && POLICY !in generated
    requires entry.files == Hashes(hash, generated)
    ensures lock[id := entry] - {id} == lock
    ensures after - entry.files.Keys == if POLICY in before then before else before[POLICY := File(policy)]
  {
    forall p | p in generated ensures p !in before && Writes(plan, p) {
      assert GeneratedChange(hash, before, map[], p, generated[p]).Some?;
    }
  }

  // ------------------------------------------------------------------ Histories

  datatype Installed = Installed(tree: Tree, lock: Lock)

  /** A successful import, a successful removal, or what the user does to a file. */
  datatype Operation =
    | Import(id: string, entry: Entry, generated: map<Path, Content>, plan: Plan)
    | Removal(id: string)
    | Edit(path: Path, node: Option<Node>)

  ghost predicate Took(hash: Content -> Hash, policy: Content, before: Installed, op: Operation, after: Installed) {
    match op
    case Import(id, entry, generated, plan) =>
      && PlanFor(hash, before.tree, Owned(before.lock, id), generated, plan) && plan.conflicts == {}
      && Applied(before.tree, after.tree, generated, plan, policy) && POLICY !in generated
      && entry.files == Hashes(hash, generated) && after.lock == before.lock[id := entry]
    case Removal(id) =>
      && id in before.lock && after == Installed(before.tree - before.lock[id].files.Keys, before.lock - {id})
      && (forall p | p in before.lock[id].files && p in before.tree ::
            Intact(hash, before.tree, before.lock[id].files, p))
    case Edit(path, node) =>
      && after.lock == before.lock
      && after.tree == if node.Some? then before.tree[path := node.value] else before.tree - {path}
  }

  ghost predicate History(hash: Content -> Hash, policy: Content, states: seq<Installed>, ops: seq<Operation>) {
    && |states| == |ops| + 1
    && forall i | 0 <= i < |ops| :: Took(hash, policy, states[i], ops[i], states[i + 1])
  }

  /** Neither the access policy nor a file that a plugin owns. */
  predicate Unowned(lock: Lock, p: Path) {
    p != POLICY && forall id | id in lock :: p !in lock[id].files
  }

  predicate NeverGenerated(ops: seq<Operation>, p: Path) {
    forall op | op in ops :: op.Import? ==> p !in op.generated
  }

  predicate NoEdits(ops: seq<Operation>) {
    forall op | op in ops :: !op.Edit?
  }

  predicate NotEdited(ops: seq<Operation>, p: Path) {
    forall op | op in ops :: op.Edit? ==> op.path != p
  }

  /** No lockfile entry has the file on record: what is at the path is not what a plugin installed. */
  predicate Foreign(hash: Content -> Hash, lock: Lock, node: Node, p: Path) {
    forall id | id in lock && p in lock[id].files :: node.Special? || hash(node.content) != lock[id].files[p]
  }

  predicate AlwaysForeign(hash: Content -> Hash, states: seq<Installed>, node: Node, p: Path) {
    forall i | 0 <= i < |states| :: Foreign(hash, states[i].lock, node, p)
  }

  /** Any sequence of imports and removals keeps a consistent installation consistent, and leaves a file
      that no plugin owns or generates as it was. Whatever else the user does meanwhile, a file that no
      plugin installed as it is stays as it is, also where a plugin once installed another. */
  lemma {:induction false} HistoryKeeps(hash: Content -> Hash, policy: Content, states: seq<Installed>,
                                        ops: seq<Operation>, p: Path)
    requires History(hash, policy, states, ops)
    ensures NoEdits(ops) && Consistent(hash, states[0].tree, states[0].lock) ==>
      Consistent(hash, states[|ops|].tree, states[|ops|].lock)
    ensures Unowned(states[0].lock, p) && NeverGenerated(ops, p) && NotEdited(ops, p) ==>
      SameAt(states[0].tree, states[|ops|].tree, p) && Unowned(states[|ops|].lock, p)
    ensures p in states[0].tree && NotEdited(ops, p) && AlwaysForeign(hash, states, states[0].tree[p], p) ==>
      SameAt(states[0].tree, states[|ops|].tree, p)
    decreases |ops|
  {
    if ops != [] {
      var n := |ops| - 1;
      HistoryKeeps(hash, policy, states[..n + 1], ops[..n], p);
      assert ops[n] in ops && Took(hash, policy, states[n], ops[n], states[n + 1]);
      assert forall op | op in ops[..n] :: op in ops;
      TookKeeps(hash, policy, states[n], ops[n], states[n + 1], p);
    }
  }

  lemma TookKeeps(hash: Content -> Hash, policy: Content, before: Installed, op: Operation, after: Installed, p: Path)
    requires Took(hash, policy, before, op, after)
    ensures !op.Edit? && Consistent(hash, before.tree, before.lock) ==> Consistent(hash, after.tree, after.lock)
    ensures Unowned(before.lock, p) && (op.Import? ==> p !in op.generated) && (op.Edit? ==> op.path != p) ==>
      SameAt(before.tree, after.tree, p) && Unowned(after.lock, p)
    ensures p in before.tree && (op.Edit? ==> op.path != p) && Foreign(hash, before.lock, before.tree[p], p) ==>
      SameAt(before.tree, after.tree, p)
  {
    match op
    case Import(id, entry, generated, plan) =>
      if Consistent(hash, before.tree, before.lock) {
        ApplyKeepsConsistent(hash, before.tree, after.tree, before.lock, id, entry, generated, plan, policy);
      }
      if Unowned(before.lock, p) && p !in generated {
        ApplyFrame(before.tree, after.tree, Owned(before.lock, id), hash, generated, plan, policy, p);
      }
      if p in before.tree {
        ForeignFilesStay(hash, before.tree, after.tree, Owned(before.lock, id), generated, plan, policy, p);
      }
    case Removal(id) =>
      if Consistent(hash, before.tree, before.lock) {
        RemoveKeepsConsistent(hash, before.tree, after.tree, before.lock, id);
      }
    case Edit(_, _) =>
  }
}

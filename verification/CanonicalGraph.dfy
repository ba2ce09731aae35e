/**
 The printer on values as the program has them: arrays and objects with identity, which may be shared
 or cyclic, and the set of those being printed. It succeeds exactly on values that unfold to a finite
 printable tree, and prints that tree.
 */
module CanonicalGraph {
  import opened Common
  import opened JsonText
  import opened CanonicalJson

  /** A value is a scalar or refers to an array or object by identity. */
  datatype Ref = Leaf(scalar: Json) | Link(id: nat)

  datatype Field = Field(key: Text, value: Ref)

  datatype Node = ArrayNode(items: seq<Ref>) | ObjectNode(fields: seq<Field>)

  type Heap = map<nat, Node>

  predicate RefOk(heap: Heap, v: Ref) {
    if v.Leaf? then !v.scalar.Arr? && !v.scalar.Obj? else v.id in heap
  }

  predicate HeapOk(heap: Heap) {
    forall id | id in heap ::
      match heap[id]
      case ArrayNode(items) => forall k | 0 <= k < |items| :: RefOk(heap, items[k])
      case ObjectNode(fields) => forall k | 0 <= k < |fields| :: RefOk(heap, fields[k].value)
  }

  /** The tree `j` is what one sees following references from `v`. */
  predicate Unfolds(heap: Heap, v: Ref, j: Json)
    decreases j
  {
    match v
    case Leaf(x) => j == x && !x.Arr? && !x.Obj?
    case Link(id) =>
      id in heap &&
      match heap[id]
      case ArrayNode(items) =>
        j.Arr? && |j.items| == |items| && forall k | 0 <= k < |items| :: Unfolds(heap, items[k], j.items[k])
      case ObjectNode(fields) =>
        j.Obj? && |j.members| == |fields|
        && forall k | 0 <= k < |fields| ::
          j.members[k].key == fields[k].key && Unfolds(heap, fields[k].value, j.members[k].value)
  }

  // ------------------------------------------------------------------ Printing with the set of open nodes

  function Render(heap: Heap, v: Ref, seen: set<nat>): Option<Text>
    requires HeapOk(heap) && RefOk(heap, v)
    decreases |heap.Keys - seen|, 1, 0
  {
    match v
    case Leaf(x) => Print(x)
    case Link(id) =>
      if id in seen then None
      else
        OpenShrinks(heap, seen, id);
        match heap[id]
        case ArrayNode(items) =>
          (match RenderItems(heap, items, seen + {id})
           case None => None
           case Some(texts) => Some([OPEN_BRACKET] + (Join(texts) + [CLOSE_BRACKET])))
        case ObjectNode(fields) =>
          (match RenderFields(heap, fields, seen + {id})
           case None => None
           case Some(printed) => Some([OPEN_BRACE] + (Join(EntryTexts(SortByKey(printed))) + [CLOSE_BRACE])))
  }

  function RenderItems(heap: Heap, items: seq<Ref>, seen: set<nat>): Option<seq<Text>>
    requires HeapOk(heap) && forall k | 0 <= k < |items| :: RefOk(heap, items[k])
    decreases |heap.Keys - seen|, 2, |items|
  {
    if items == [] then Some([])
    else
      match (Render(heap, items[0], seen), RenderItems(heap, items[1..], seen))
      case (Some(first), Some(rest)) => Some([first] + rest)
      case _ => None
  }

  function RenderFields(heap: Heap, fields: seq<Field>, seen: set<nat>): Option<seq<Member>>
    requires HeapOk(heap) && forall k | 0 <= k < |fields| :: RefOk(heap, fields[k].value)
    decreases |heap.Keys - seen|, 2, |fields|
  {
    if fields == [] then Some([])
    else if fields[0].value == Leaf(Undefined) then RenderFields(heap, fields[1..], seen)
    else
      match (Render(heap, fields[0].value, seen), RenderFields(heap, fields[1..], seen))
      case (Some(first), Some(rest)) => Some([Member(fields[0].key, first)] + rest)
      case _ => None
  }

  lemma OpenShrinks(heap: Heap, seen: set<nat>, id: nat)
    requires id in heap && id !in seen
    ensures |heap.Keys - (seen + {id})| < |heap.Keys - seen|
  {
    assert heap.Keys - seen == (heap.Keys - (seen + {id})) + {id};
  }

  // ------------------------------------------------------------------ Success means a finite tree

  lemma {:induction false} RenderedUnfolds(heap: Heap, v: Ref, seen: set<nat>) returns (j: Json)
    requires HeapOk(heap) && RefOk(heap, v) && Render(heap, v, seen).Some?
    ensures Unfolds(heap, v, j) && Print(j) == Render(heap, v, seen)
    decreases |heap.Keys - seen|, 1, 0
  {
    match v
    case Leaf(x) => j := x;
    case Link(id) =>
      OpenShrinks(heap, seen, id);
      match heap[id]
      case ArrayNode(items) =>
        var trees := RenderedItems(heap, items, seen + {id});
        j := Arr(trees);
      case ObjectNode(fields) =>
        var members := RenderedFields(heap, fields, seen + {id});
        j := Obj(members);
  }

  lemma {:induction false} RenderedItems(heap: Heap, items: seq<Ref>, seen: set<nat>) returns (trees: seq<Json>)
    requires HeapOk(heap) && forall k | 0 <= k < |items| :: RefOk(heap, items[k])
    requires RenderItems(heap, items, seen).Some?
    ensures |trees| == |items| && forall k | 0 <= k < |items| :: Unfolds(heap, items[k], trees[k])
    ensures PrintItems(trees) == RenderItems(heap, items, seen)
    decreases |heap.Keys - seen|, 2, |items|
  {
    trees := [];
    if items != [] {
      var first := RenderedUnfolds(heap, items[0], seen);
      var rest := RenderedItems(heap, items[1..], seen);
      trees := [first] + rest;
      assert trees[1..] == rest;
    }
  }

  lemma {:induction false} RenderedFields(heap: Heap, fields: seq<Field>, seen: set<nat>)
    returns (members: seq<Property>)
    requires HeapOk(heap) && forall k | 0 <= k < |fields| :: RefOk(heap, fields[k].value)
    requires RenderFields(heap, fields, seen).Some?
    ensures |members| == |fields|
    ensures forall k | 0 <= k < |fields| ::
        members[k].key == fields[k].key && Unfolds(heap, fields[k].value, members[k].value)
    ensures PrintMembers(members) == RenderFields(heap, fields, seen)
    decreases |heap.Keys - seen|, 2, |fields|
  {
    members := [];
    if fields != [] {
      var rest := RenderedFields(heap, fields[1..], seen);
      var first := Undefined;
      if fields[0].value != Leaf(Undefined) { first := RenderedUnfolds(heap, fields[0].value, seen); }
      members := [Property(fields[0].key, first)] + rest;
      assert members[1..] == rest;
    }
  }

  // ------------------------------------------------------------------ A finite tree means success

  /** Arrays and objects along the longest branch. */
  function Depth(j: Json): nat {
    match j
    case Arr(items) => 1 + DepthOfItems(items)
    case Obj(members) => 1 + DepthOfMembers(members)
    case _ => 0
  }

  function DepthOfItems(items: seq<Json>): (d: nat)
    ensures forall k | 0 <= k < |items| :: Depth(items[k]) <= d
  {
    if items == [] then 0
    else
      var rest := DepthOfItems(items[1..]);
      assert forall k | 0 < k < |items| :: items[k] == items[1..][k - 1];
      Max(Depth(items[0]), rest)
  }

  function DepthOfMembers(members: seq<Property>): (d: nat)
    ensures forall k | 0 <= k < |members| :: Depth(members[k].value) <= d
  {
    if members == [] then 0
    else
      var rest := DepthOfMembers(members[1..]);
      assert forall k | 0 < k < |members| :: members[k] == members[1..][k - 1];
      Max(Depth(members[0].value), rest)
  }

  lemma {:induction false} UnfoldsOnce(heap: Heap, v: Ref, a: Json, b: Json)
    requires Unfolds(heap, v, a) && Unfolds(heap, v, b)
    ensures a == b
    decreases a
  {
    if v.Link? {
      match heap[v.id]
      case ArrayNode(items) =>
        forall k | 0 <= k < |items| ensures a.items[k] == b.items[k] {
          UnfoldsOnce(heap, items[k], a.items[k], b.items[k]);
        }
        assert a.items == b.items;
      case ObjectNode(fields) =>
        forall k | 0 <= k < |fields| ensures a.members[k] == b.members[k] {
          UnfoldsOnce(heap, fields[k].value, a.members[k].value, b.members[k].value);
        }
        assert a.members == b.members;
    }
  }

  /** The open nodes unfold to deeper trees than the one being printed. */
  ghost predicate OpenAbove(heap: Heap, seen: set<nat>, depth: nat) {
    forall id | id in seen :: DeeperThan(heap, id, depth)
  }

  ghost predicate DeeperThan(heap: Heap, id: nat, depth: nat) {
    exists j :: Unfolds(heap, Link(id), j) && Depth(j) > depth
  }

  lemma OpenBelow(heap: Heap, seen: set<nat>, id: nat, j: Json, less: nat)
    requires OpenAbove(heap, seen, Depth(j)) && Unfolds(heap, Link(id), j) && less < Depth(j)
    ensures OpenAbove(heap, seen + {id}, less)
  {
    forall other | other in seen + {id} ensures DeeperThan(heap, other, less) {
      if other in seen { assert DeeperThan(heap, other, Depth(j)); }
    }
  }

  lemma {:induction false} TreeRenders(heap: Heap, v: Ref, seen: set<nat>, j: Json)
    requires HeapOk(heap) && RefOk(heap, v) && Unfolds(heap, v, j) && OpenAbove(heap, seen, Depth(j))
    ensures Render(heap, v, seen) == Print(j)
    decreases j, 1
  {
    if v.Link? {
      if v.id in seen {
        assert DeeperThan(heap, v.id, Depth(j));
        var k :| Unfolds(heap, v, k) && Depth(k) > Depth(j);
        UnfoldsOnce(heap, v, k, j);
      }
      match heap[v.id]
      case ArrayNode(items) =>
        OpenBelow(heap, seen, v.id, j, DepthOfItems(j.items));
        ItemsRender(heap, items, seen + {v.id}, j.items, DepthOfItems(j.items));
      case ObjectNode(fields) =>
        OpenBelow(heap, seen, v.id, j, DepthOfMembers(j.members));
        FieldsRender(heap, fields, seen + {v.id}, j.members, DepthOfMembers(j.members));
    }
  }

  lemma OpenLess(heap: Heap, seen: set<nat>, depth: nat, less: nat)
    requires OpenAbove(heap, seen, depth) && less <= depth
    ensures OpenAbove(heap, seen, less)
  {
    forall id | id in seen ensures DeeperThan(heap, id, less) { assert DeeperThan(heap, id, depth); }
  }

  lemma {:induction false} ItemsRender(heap: Heap, items: seq<Ref>, seen: set<nat>, trees: seq<Json>, depth: nat)
    requires HeapOk(heap) && (forall k | 0 <= k < |items| :: RefOk(heap, items[k])) && |trees| == |items|
    requires forall k | 0 <= k < |items| :: Unfolds(heap, items[k], trees[k]) && Depth(trees[k]) <= depth
    requires OpenAbove(heap, seen, depth)
    ensures RenderItems(heap, items, seen) == PrintItems(trees)
    decreases trees, 0
  {
    if items != [] {
      OpenLess(heap, seen, depth, Depth(trees[0]));
      TreeRenders(heap, items[0], seen, trees[0]);
      ItemsRender(heap, items[1..], seen, trees[1..], depth);
    }
  }

  lemma {:induction false} FieldsRender(heap: Heap, fields: seq<Field>, seen: set<nat>, members: seq<Property>,
                                        depth: nat)
    requires HeapOk(heap) && (forall k | 0 <= k < |fields| :: RefOk(heap, fields[k].value)) && |members| == |fields|
    requires forall k | 0 <= k < |fields| ::
      members[k].key == fields[k].key && Unfolds(heap, fields[k].value, members[k].value)
        && Depth(members[k].value) <= depth
    requires OpenAbove(heap, seen, depth)
    ensures RenderFields(heap, fields, seen) == PrintMembers(members)
    decreases members, 0
  {
    if fields != [] {
      OpenLess(heap, seen, depth, Depth(members[0].value));
      TreeRenders(heap, fields[0].value, seen, members[0].value);
      FieldsRender(heap, fields[1..], seen, members[1..], depth);
    }
  }

  /** A value prints to `t` exactly when following its references gives a finite tree that prints to
      `t`: sharing is no error, a cycle always is. */
  lemma CyclesAreRefused(heap: Heap, v: Ref, t: Text)
    requires HeapOk(heap) && RefOk(heap, v)
    ensures Render(heap, v, {}) == Some(t) <==> exists j :: Unfolds(heap, v, j) && Print(j) == Some(t)
  {
    if Render(heap, v, {}).Some? {
      var j := RenderedUnfolds(heap, v, {});
    }
    forall j | Unfolds(heap, v, j) && Print(j) == Some(t) ensures Render(heap, v, {}) == Some(t) {
      TreeRenders(heap, v, {}, j);
    }
  }

  // ------------------------------------------------------------------ The printer

  function Onto<T>(done: seq<T>, rest: Option<seq<T>>): Option<seq<T>> {
    if rest.None? then None else Some(done + rest.value)
  }

  lemma OntoEnds<T>(s: seq<T>, r: Option<seq<T>>)
    ensures Onto([], r) == r && Onto(s, Some([])) == Some(s)
  {
    if r.Some? { assert [] + r.value == r.value; }
    assert s + [] == s;
  }

  lemma ItemsStep(heap: Heap, items: seq<Ref>, seen: set<nat>, done: seq<Text>)
    requires HeapOk(heap) && items != [] && forall k | 0 <= k < |items| :: RefOk(heap, items[k])
    ensures Onto(done, RenderItems(heap, items, seen)) ==
      match Render(heap, items[0], seen)
      case None => None
      case Some(first) => Onto(done + [first], RenderItems(heap, items[1..], seen))
  {
    if Render(heap, items[0], seen).Some? && RenderItems(heap, items[1..], seen).Some? {
      var first, rest := Render(heap, items[0], seen).value, RenderItems(heap, items[1..], seen).value;
      assert done + ([first] + rest) == (done + [first]) + rest;
    }
  }

  lemma FieldsStep(heap: Heap, fields: seq<Field>, seen: set<nat>, done: seq<Member>)
    requires HeapOk(heap) && fields != [] && forall k | 0 <= k < |fields| :: RefOk(heap, fields[k].value)
    ensures Onto(done, RenderFields(heap, fields, seen)) ==
      if fields[0].value == Leaf(Undefined) then Onto(done, RenderFields(heap, fields[1..], seen))
      else match Render(heap, fields[0].value, seen)
           case None => None
           case Some(first) => Onto(done + [Member(fields[0].key, first)], RenderFields(heap, fields[1..], seen))
  {
    if fields[0].value != Leaf(Undefined) && Render(heap, fields[0].value, seen).Some?
      && RenderFields(heap, fields[1..], seen).Some? {
      var first, rest := Member(fields[0].key, Render(heap, fields[0].value, seen).value),
        RenderFields(heap, fields[1..], seen).value;
      assert done + ([first] + rest) == (done + [first]) + rest;
    }
  }

  class Printer {
    const heap: Heap
    var seen: set<nat>

    ghost predicate Valid()
      reads this
    {
      HeapOk(heap)
    }

    /** Prints one value; a failure leaves the set as it was when the printer threw. */
    method Canonical(v: Ref) returns (r: Option<Text>)
      requires Valid() && RefOk(heap, v)
      modifies `seen
      ensures r == Render(heap, v, old(seen))
      ensures r.Some? ==> seen == old(seen)
      decreases |heap.Keys - seen|, 1
    {
      if v.Leaf? { return Print(v.scalar); }
      if v.id in seen { return None; }
      OpenShrinks(heap, seen, v.id);
      seen := seen + {v.id};
      match heap[v.id]
      case ArrayNode(items) =>
        var texts := Items(items);
        if texts.None? { return None; }
        r := Some([OPEN_BRACKET] + (Join(texts.value) + [CLOSE_BRACKET]));
        seen := seen - {v.id};
      case ObjectNode(fields) =>
        var printed := Fields(fields);
        if printed.None? { return None; }
        r := Some([OPEN_BRACE] + (Join(EntryTexts(SortByKey(printed.value))) + [CLOSE_BRACE]));
        seen := seen - {v.id};
    }

    method Items(items: seq<Ref>) returns (r: Option<seq<Text>>)
      requires Valid() && forall k | 0 <= k < |items| :: RefOk(heap, items[k])
      modifies `seen
      ensures r == RenderItems(heap, items, old(seen))
      ensures r.Some? ==> seen == old(seen)
      decreases |heap.Keys - seen|, 2
    {
      var texts: seq<Text> := [];
      assert items[0..] == items;
      OntoEnds([], RenderItems(heap, items, seen));
      for i := 0 to |items|
        invariant seen == old(seen)
        invariant RenderItems(heap, items, seen) == Onto(texts, RenderItems(heap, items[i..], seen))
      {
        ItemsStep(heap, items[i..], seen, texts);
        assert items[i..][1..] == items[i + 1..];
        var text := Canonical(items[i]);
        if text.None? { return None; }
        texts := texts + [text.value];
      }
      OntoEnds(texts, None);
      r := Some(texts);
    }

    /** Drops undefined members and prints the others; sorting by key comes last here, which could
        only change which of several errors is thrown. */
    method Fields(fields: seq<Field>) returns (r: Option<seq<Member>>)
      requires Valid() && forall k | 0 <= k < |fields| :: RefOk(heap, fields[k].value)
      modifies `seen
      ensures r == RenderFields(heap, fields, old(seen))
      ensures r.Some? ==> seen == old(seen)
      decreases |heap.Keys - seen|, 2
    {
      var printed: seq<Member> := [];
      assert fields[0..] == fields;
      OntoEnds([], RenderFields(heap, fields, seen));
      for i := 0 to |fields|
        invariant seen == old(seen)
        invariant RenderFields(heap, fields, seen) == Onto(printed, RenderFields(heap, fields[i..], seen))
      {
        FieldsStep(heap, fields[i..], seen, printed);
        assert fields[i..][1..] == fields[i + 1..];
        if fields[i].value != Leaf(Undefined) {
          var text := Canonical(fields[i].value);
          if text.None? { return None; }
          printed := printed + [Member(fields[i].key, text.value)];
        }
      }
      OntoEnds(printed, None);
      r := Some(printed);
    }
  }
}

/** Safety of sessions: what every move keeps, and what follows for live handles and checkpoints. */
module SessionSafety {
  import opened Common
  import opened Lease
  import opened LeaseProtocol
  import opened Session
  import opened SessionProtocol

  type Write = Put<Authority>
  type Document = Option<Doc<Authority>>

  // ------------------------------------------------------------------ History of launches

  predicate HasLaunch(doc: Document, id: nat) {
    LaunchOf(StateOf(doc)).Some? && LaunchOf(StateOf(doc)).value.id == id
  }

  predicate Recorded(doc: Document, vm: Vm) {
    LaunchOf(StateOf(doc)).Some? && LaunchOf(StateOf(doc)).value.microvm == Some(vm)
  }

  /** No document so far named the launch. */
  predicate Virgin(origin: Document, log: seq<Write>, id: nat) {
    forall j | 0 <= j <= |log| :: !HasLaunch(After(origin, log, j), id)
  }

  /** The write introduces a launch its predecessor did not name. */
  predicate Opening(put: Write) {
    && put.kind == Publication
    && LaunchOf(StateOf(put.next)).Some?
    && !HasLaunch(put.guard, LaunchOf(StateOf(put.next)).value.id)
  }

  predicate PutChange(put: Write) {
    put.kind == Publication ==>
      StateOf(put.next).Some? && Change(Gen(put.next), StateOf(put.guard), StateOf(put.next).value)
  }

  /** The client once wrote under the generation. */
  predicate Acted(log: seq<Write>, owner: nat, generation: nat) {
    exists a :: 0 <= a < |log| && log[a].owner == owner && Gen(log[a].next) == generation
  }

  predicate Stored(log: seq<Write>, owner: nat, doc: Doc<Authority>) {
    exists a :: 0 <= a < |log| && log[a].owner == owner && log[a].next == Some(doc)
  }

  /** The process itself stored the VM as one to be retired. */
  predicate Witness(log: seq<Write>, owner: nat, vm: Vm) {
    exists a :: 0 <= a < |log| && log[a].owner == owner && Recorded(log[a].next, vm)
  }

  /** The process stored the metadata of its capture, and no launch with it. */
  predicate CaptureStored(log: seq<Write>, owner: nat, metadata: Option<Metadata>) {
    exists a :: 0 <= a < |log| && log[a].owner == owner && StateOf(log[a].next) == Some(Authority(metadata, None))
  }

  predicate LaunchSent(log: seq<Write>, request: LaunchRequest) {
    exists a :: 0 <= a < |log| && LaunchOf(StateOf(log[a].next)).Some?
                && LaunchOf(StateOf(log[a].next)).value.request == Some(request)
  }

  predicate EntryOk(origin: Document, log: seq<Write>, k: nat)
    requires k < |log|
  {
    PutChange(log[k]) && (Opening(log[k]) ==> Virgin(origin, log[..k], Gen(log[k].next)))
  }

  predicate HistoryOk(origin: Document, log: seq<Write>) {
    DocOk(origin) && forall k | 0 <= k < |log| :: EntryOk(origin, log, k)
  }

  /** Under the lease's own log rules, every stored launch is well formed. */
  lemma {:induction false} DocsOk(ids: set<nat>, origin: Document, log: seq<Write>, k: nat)
    requires LogInv(true, ids, origin, log) && HistoryOk(origin, log) && k <= |log|
    ensures DocOk(After(origin, log, k))
  {
    if k > 0 {
      DocsOk(ids, origin, log, k - 1);
      assert Entry(true, ids, origin, log, k - 1) && EntryOk(origin, log, k - 1);
      DurableNext(log[k - 1]);
    }
  }

  /** A launch, once stored, keeps its request and its VM for as long as any document names it. */
  lemma {:induction false} LaunchesGrow(ids: set<nat>, origin: Document, log: seq<Write>, a: nat, b: nat, id: nat)
    requires LogInv(true, ids, origin, log) && HistoryOk(origin, log) && a <= b <= |log|
    requires HasLaunch(After(origin, log, a), id) && HasLaunch(After(origin, log, b), id)
    ensures LaunchGrows(LaunchOf(StateOf(After(origin, log, a))).value, LaunchOf(StateOf(After(origin, log, b))).value)
    decreases b
  {
    if a < b {
      var put := log[b - 1];
      assert Entry(true, ids, origin, log, b - 1) && EntryOk(origin, log, b - 1);
      DurableNext(put);
      DocsOk(ids, origin, log, b);
      assert After(origin, log[..b - 1], a) == After(origin, log, a);
      assert !Opening(put);
      LaunchesGrow(ids, origin, log, a, b - 1, id);
    }
  }

  // ------------------------------------------------------------------ Invariant

  predicate PutOk(origin: Document, log: seq<Write>, put: Write) {
    && PutChange(put)
    && (put.kind != Acquire ==> Acted(log, put.owner, Gen(put.guard)))
    && (put.status == Applied ==> put.(status := Pending) in log)
    && (put.status == Pending && Opening(put) ==> Virgin(origin, log, Gen(put.next)))
  }

  predicate PutsOk(origin: Document, log: seq<Write>, puts: seq<Write>) {
    && (forall k | 0 <= k < |puts| :: PutOk(origin, log, puts[k]))
    && (forall j, k | 0 <= j < |puts| && 0 <= k < |puts| && j != k ::
          Opening(puts[j]) && Opening(puts[k]) ==> puts[j].owner != puts[k].owner)
  }

  predicate NoOpening(puts: seq<Write>, owner: nat) {
    forall k | 0 <= k < |puts| :: puts[k].owner == owner ==> !Opening(puts[k])
  }

  function Publications(queue: seq<Lease.Request<Authority>>): nat {
    if queue == [] then 0
    else (if queue[0].Publish? then 1 else 0) + Publications(queue[1..])
  }

  /** At most the one publication the process waits for is queued or in progress. */
  predicate QueueOk(l: Local<Authority>, p: Proc) {
    && Publications(l.queue) + (if l.operation.Writing? && l.operation.request.Publish? then 1 else 0)
       <= (if p.pending.Some? then 1 else 0)
    && (forall r | r in l.queue && r.Publish? :: p.pending == Some(r.state))
    && (l.operation.Writing? && l.operation.request.Publish? ==>
          p.pending == Some(l.operation.request.state) && l.operation.next.state == p.pending)
  }

  /** The process has not yet sent the write that opens its own launch. */
  predicate Fresh(l: Local<Authority>, p: Proc) {
    p.stage.Admit? || p.stage.Retire? || p.stage.RetireAwait?
    || (p.stage.Claim? && (p.pending.None? || Publications(l.queue) == 1))
  }

  predicate Claimed(stage: Stage) {
    !stage.Waiting? && !stage.Admit? && !stage.Retire? && !stage.RetireAwait? && !stage.Claim?
  }

  predicate BeforeKill(stage: Stage) {
    stage.Prepare? || stage.Activate? || stage.Request? || stage.LaunchNow? || stage.LaunchAwait?
    || stage.Launched? || stage.Record? || stage.Reject?
    || stage.Ready? || stage.Restore? || stage.Handover? || stage.Live?
  }

  /** What the stage says about the state in the lease document. */
  predicate StageOk(p: Proc, state: Option<Authority>) {
    var launch := LaunchOf(state);
    match p.stage
    case Waiting => false
    case Admit => p.role.Redelete? || Loaded(p, state)
    case Retire => Loaded(p, state)
    case RetireAwait => Loaded(p, state)
    case Claim => Loaded(p, state)
    case Prepare => Carries(p, state) && launch.value.microvm.None?
    case Activate => Carries(p, state) && launch.value.microvm.None?
    case Request => Carries(p, state) && launch.value.microvm.None?
    case LaunchNow => Carries(p, state)
    case LaunchAwait => Carries(p, state)
    case Launched => Carries(p, state)
    case Record => Carries(p, state)
    case Reject => Carries(p, state)
    case Burn => Carries(p, state)
    case Closed => true
    case Erase => MetadataOf(state) == p.metadata
    case Capture => state.Some? && state.value.metadata == p.metadata && p.capturing.Some?
        && (p.metadata.Some? ==>
              p.capturing.value.checkpoint == p.metadata.value.checkpoint
              || CommittedGen(state) < CheckpointGen(p.capturing.value.checkpoint))
    case _ => state.Some? && state.value.metadata == p.metadata
  }

  predicate Loaded(p: Proc, state: Option<Authority>) {
    && (state.Some? ==> state.value.metadata == p.metadata)
    && p.doomed == (if LaunchOf(state).Some? then LaunchOf(state).value.microvm else None)
  }

  predicate Carries(p: Proc, state: Option<Authority>) {
    && state.Some? && state.value.metadata == p.metadata
    && state.value.launch.Some? && state.value.launch.value.id == p.token
  }

  /** Whoever recorded the launch's VM did so under `generation` or later. */
  predicate RecordedSince(origin: Document, log: seq<Write>, token: nat, generation: nat) {
    forall j | 0 <= j <= |log| :: Recorded(After(origin, log, j), Vm(token)) ==>
      generation <= Gen(After(origin, log, j))
  }

  ghost predicate OwnTerminations(p: Proc, id: nat, generation: nat, terminations: set<(nat, Vm)>) {
    forall v: Vm | (id, v) in terminations ::
      && (!Claimed(p.stage) ==> p.doomed == Some(v) && v.token < generation)
      && (BeforeKill(p.stage) ==> v.token != p.token)
  }

  ghost predicate HeldInv(origin: Document, log: seq<Write>, puts: seq<Write>, terminations: set<(nat, Vm)>,
                    id: nat, l: Local<Authority>, p: Proc) {
    && Stored(log, id, l.document)
    && (!l.aborted ==>
      && QueueOk(l, p)
      && StageOk(p, l.document.state)
      && (p.pending.Some? ==>
            Publishes(p.stage) && p.pending.value == Proposal(p, l.document.generation, l.document.state))
      && (Fresh(l, p) && p.role.Create? ==> Virgin(origin, log, l.document.generation) && NoOpening(puts, id))
      && (p.role.Create? && Claimed(p.stage) ==> RecordedSince(origin, log, p.token, l.document.generation))
      && (p.role.Create? ==> OwnTerminations(p, id, l.document.generation, terminations)))
  }

  predicate RoleOk(p: Proc) {
    && (p.stage.Retire? || p.stage.RetireAwait? || p.stage.Claim? || BeforeKill(p.stage) ==> p.role.Create?)
    && (p.stage.Burn? ==> p.role.Cleanup?)
    && (p.stage.Admit? ==> !p.role.Cleanup?)
  }

  /** Before the grant a client has done nothing but ask for the lease. */
  ghost predicate ApproachOk(origin: Document, log: seq<Write>, puts: seq<Write>, terminations: set<(nat, Vm)>,
                       id: nat, c: Client<Authority>, p: Proc) {
    && p.stage.Waiting? && p.pending.None? && p.doomed.None?
    && (forall v: Vm :: (id, v) !in terminations)
    && (forall k | 0 <= k < |puts| :: puts[k].owner == id ==> puts[k].kind == Acquire)
    && (c.Acquiring? && c.put < |puts| && puts[c.put].status == Applied ==> Virgin(origin, log, Gen(puts[c.put].next)))
  }

  ghost predicate ProcInv(origin: Document, log: seq<Write>, puts: seq<Write>, terminations: set<(nat, Vm)>,
                    id: nat, c: Client<Authority>, p: Proc) {
    && RoleOk(p)
    && (p.doomed.Some? ==> Witness(log, id, p.doomed.value))
    && (p.stage.Captured? ==> CaptureStored(log, id, p.metadata))
    && match c
       case Holding(l, _) => HeldInv(origin, log, puts, terminations, id, l, p)
       case Gone => true
       case _ => ApproachOk(origin, log, puts, terminations, id, c, p)
  }

  ghost predicate WorldInv(w: World) {
    && LeaseProtocol.Inv(w.net) && w.net.durable && w.procs.Keys == w.net.clients.Keys
    && HistoryOk(w.net.origin, w.net.log)
    && PutsOk(w.net.origin, w.net.log, w.net.puts)
    && (forall id | id in w.procs ::
          ProcInv(w.net.origin, w.net.log, w.net.puts, w.terminations, id, w.net.clients[id], w.procs[id]))
    && (forall t | t in w.terminations :: Witness(w.net.log, t.0, t.1))
    && (forall r | r in w.launches :: LaunchSent(w.net.log, r))
  }

  // ------------------------------------------------------------------ Live handles

  lemma OneOwner(ids: set<nat>, origin: Document, log: seq<Write>, a: nat, b: nat)
    requires LogInv(true, ids, origin, log) && a < |log| && b < |log| && Gen(log[a].next) == Gen(log[b].next)
    ensures log[a].owner == log[b].owner
  {
    if a <= b {
      GenerationHasOneOwner(ids, origin, log, a, b);
    } else {
      GenerationHasOneOwner(ids, origin, log, b, a);
    }
  }

  /** Whoever saw a VM recorded under the generation still stored is the owner of that generation. */
  lemma WitnessIsOwner(ids: set<nat>, origin: Document, log: seq<Write>, id: nat, other: nat, doc: Doc<Authority>,
                       token: nat)
    requires LogInv(true, ids, origin, log) && Stored(log, id, doc) && Witness(log, other, Vm(token))
    requires RecordedSince(origin, log, token, doc.generation) && Gen(After(origin, log, |log|)) == doc.generation
    ensures other == id
  {
    var a :| 0 <= a < |log| && log[a].owner == other && Recorded(log[a].next, Vm(token));
    var b :| 0 <= b < |log| && log[b].owner == id && log[b].next == Some(doc);
    assert After(origin, log, a + 1) == log[a].next;
    GenerationsAdvance(ids, origin, log, a + 1, |log|);
    OneOwner(ids, origin, log, a, b);
  }

  /** While a delivered handle passes its lease check, nobody has dispatched a termination of its
      VM: not the owner of an earlier launch, not a late-result cleanup, not a successor. */
  lemma LiveVmIsSafe(w: World, id: nat, other: nat)
    requires WorldInv(w) && At(w, id, Live) && Passes(LeaseOf(w.net, id), w.net.now)
    ensures (other, Vm(w.procs[id].token)) !in w.terminations
  {
    var net, p, l := w.net, w.procs[id], LeaseOf(w.net, id);
    assert ProcInv(net.origin, net.log, net.puts, w.terminations, id, net.clients[id], p);
    if (other, Vm(p.token)) in w.terminations {
      assert Witness(net.log, other, Vm(p.token));
      PassingLeaseIsStored(net, id);
      WitnessIsOwner(net.clients.Keys, net.origin, net.log, id, other, l.document, p.token);
    }
  }

  // ------------------------------------------------------------------ Frames

  lemma ActedGrows(log: seq<Write>, put: Write, owner: nat, generation: nat)
    requires Acted(log, owner, generation)
    ensures Acted(log + [put], owner, generation)
  {
    var a :| 0 <= a < |log| && log[a].owner == owner && Gen(log[a].next) == generation;
    assert (log + [put])[a] == log[a];
  }

  lemma StoredGrows(log: seq<Write>, put: Write, owner: nat, doc: Doc<Authority>)
    requires Stored(log, owner, doc)
    ensures Stored(log + [put], owner, doc)
  {
    var a :| 0 <= a < |log| && log[a].owner == owner && log[a].next == Some(doc);
    assert (log + [put])[a] == log[a];
  }

  lemma WitnessGrows(log: seq<Write>, put: Write, owner: nat, vm: Vm)
    requires Witness(log, owner, vm)
    ensures Witness(log + [put], owner, vm)
  {
    var a :| 0 <= a < |log| && log[a].owner == owner && Recorded(log[a].next, vm);
    assert (log + [put])[a] == log[a];
  }

  lemma CaptureStoredGrows(log: seq<Write>, put: Write, owner: nat, metadata: Option<Metadata>)
    requires CaptureStored(log, owner, metadata)
    ensures CaptureStored(log + [put], owner, metadata)
  {
    var a :| 0 <= a < |log| && log[a].owner == owner && StateOf(log[a].next) == Some(Authority(metadata, None));
    assert (log + [put])[a] == log[a];
  }

  lemma LaunchSentGrows(log: seq<Write>, put: Write, request: LaunchRequest)
    requires LaunchSent(log, request)
    ensures LaunchSent(log + [put], request)
  {
    var a :| 0 <= a < |log| && LaunchOf(StateOf(log[a].next)).Some?
             && LaunchOf(StateOf(log[a].next)).value.request == Some(request);
    assert (log + [put])[a] == log[a];
  }

  lemma HistoryGrows(origin: Document, log: seq<Write>, put: Write)
    requires HistoryOk(origin, log) && PutChange(put)
    requires Opening(put) ==> Virgin(origin, log, Gen(put.next))
    ensures HistoryOk(origin, log + [put])
  {
    forall k | 0 <= k < |log + [put]| ensures EntryOk(origin, log + [put], k) {
      if k < |log| {
        assert EntryOk(origin, log, k) && (log + [put])[..k] == log[..k];
      } else {
        assert (log + [put])[..k] == log;
      }
    }
  }

  /** A client that once wrote under the generation of the next writer is that writer. */
  lemma WriterOfGeneration(ids: set<nat>, origin: Document, log: seq<Write>, put: Write, owner: nat)
    requires LogInv(true, ids, origin, log) && put.guard == After(origin, log, |log|)
    requires PutShape(true, put) && put.kind != Acquire
    requires origin.Some? ==> origin.value.holder !in ids
    requires put.owner in ids && Acted(log, owner, Gen(put.next))
    ensures owner == put.owner
  {
    var a :| 0 <= a < |log| && log[a].owner == owner && Gen(log[a].next) == Gen(put.next);
    DurableNext(put);
    var last := |log| - 1;
    assert Entry(true, ids, origin, log, last);
    DurableNext(log[last]);
    GenerationHasOneOwner(ids, origin, log, a, last);
  }

  /** An unnamed launch stays unnamed unless the writer that owns its generation opens it. */
  lemma VirginGrows(ids: set<nat>, origin: Document, log: seq<Write>, put: Write, owner: nat, id: nat)
    requires LogInv(true, ids, origin, log) && HistoryOk(origin, log)
    requires put.guard == After(origin, log, |log|) && PutShape(true, put) && PutChange(put)
    requires origin.Some? ==> origin.value.holder !in ids
    requires put.owner in ids && Virgin(origin, log, id) && Acted(log, owner, id)
    requires Opening(put) ==> put.owner != owner
    ensures Virgin(origin, log + [put], id)
  {
    DurableNext(put);
    if HasLaunch(put.next, id) {
      assert !HasLaunch(After(origin, log, |log|), id);
      assert Opening(put) && Gen(put.next) == id;
      WriterOfGeneration(ids, origin, log, put, owner);
    }
    forall j | 0 <= j <= |log| + 1 ensures !HasLaunch(After(origin, log + [put], j), id) {
      assert j <= |log| ==> After(origin, log + [put], j) == After(origin, log, j);
    }
  }

  /** A takeover opens a generation no document has named as a launch. */
  lemma TakeoverIsVirgin(ids: set<nat>, origin: Document, log: seq<Write>, put: Write)
    requires LogInv(true, ids, origin, log) && HistoryOk(origin, log)
    requires put.guard == After(origin, log, |log|) && PutShape(true, put) && put.kind == Acquire
    ensures Virgin(origin, log + [put], Gen(put.next))
  {
    DurableNext(put);
    DocsOk(ids, origin, log, |log|);
    forall j | 0 <= j <= |log| + 1 ensures !HasLaunch(After(origin, log + [put], j), Gen(put.next)) {
      if j <= |log| {
        DocsOk(ids, origin, log, j);
        GenerationsAdvance(ids, origin, log, j, |log|);
        assert After(origin, log + [put], j) == After(origin, log, j);
      }
    }
  }

  /** A new entry of the log is at least as recent as any client's own writes. */
  lemma RecordedSinceGrows(ids: set<nat>, origin: Document, log: seq<Write>, put: Write, owner: nat, token: nat,
                           doc: Doc<Authority>)
    requires LogInv(true, ids, origin, log + [put]) && Stored(log, owner, doc)
    requires RecordedSince(origin, log, token, doc.generation)
    ensures RecordedSince(origin, log + [put], token, doc.generation)
  {
    var a :| 0 <= a < |log| && log[a].owner == owner && log[a].next == Some(doc);
    var log' := log + [put];
    assert After(origin, log', a + 1) == Some(doc);
    GenerationsAdvance(ids, origin, log', a + 1, |log'|);
    forall j | 0 <= j <= |log'| && Recorded(After(origin, log', j), Vm(token))
      ensures doc.generation <= Gen(After(origin, log', j))
    {
      assert j <= |log| ==> After(origin, log', j) == After(origin, log, j);
    }
  }

  /** Facts about the network that the delivery lemmas share. */
  predicate Effective(net: Network, k: nat) {
    && LeaseProtocol.Inv(net) && net.durable && HistoryOk(net.origin, net.log)
    && PutsOk(net.origin, net.log, net.puts)
    && k < |net.puts| && net.puts[k].status == Pending && net.store == net.puts[k].guard
  }

  lemma EffectiveFacts(net: Network, k: nat)
    requires Effective(net, k)
    ensures PutShape(true, net.puts[k]) && net.puts[k].owner in net.clients
    ensures net.puts[k].guard == After(net.origin, net.log, |net.log|)
    ensures PutOk(net.origin, net.log, net.puts[k])
    ensures LogInv(true, net.clients.Keys, net.origin, net.log + [net.puts[k]])
    ensures HistoryOk(net.origin, net.log + [net.puts[k]])
  {
    assert PutInv(net.durable, net.now, net.clients.Keys, net.puts[k]);
    LogGrows(true, net.clients.Keys, net.origin, net.log, net.puts[k]);
    HistoryGrows(net.origin, net.log, net.puts[k]);
  }

  lemma DeliveredPut(net: Network, k: nat, j: nat)
    requires Effective(net, k) && j < |net.puts|
    ensures PutOk(net.origin, net.log + [net.puts[k]], Delivered(net, k).puts[j])
  {
    EffectiveFacts(net, k);
    var put, q := net.puts[k], net.puts[j];
    assert PutOk(net.origin, net.log, q);
    assert PutInv(net.durable, net.now, net.clients.Keys, q);
    if q.kind != Acquire { ActedGrows(net.log, put, q.owner, Gen(q.guard)); }
    if j != k && q.status == Pending && Opening(q) {
      VirginGrows(net.clients.Keys, net.origin, net.log, put, q.owner, Gen(q.next));
    }
  }

  lemma DeliveredPuts(net: Network, k: nat)
    requires Effective(net, k)
    ensures PutsOk(net.origin, net.log + [net.puts[k]], Delivered(net, k).puts)
  {
    forall j | 0 <= j < |net.puts|
      ensures PutOk(net.origin, net.log + [net.puts[k]], Delivered(net, k).puts[j])
    {
      DeliveredPut(net, k, j);
    }
  }

  lemma DeliveredHolder(w: World, k: nat, id: nat)
    requires WorldInv(w) && Effective(w.net, k) && id in w.procs && Holds(w.net, id)
    ensures ProcInv(w.net.origin, w.net.log + [w.net.puts[k]], Delivered(w.net, k).puts, w.terminations, id,
                    w.net.clients[id], w.procs[id])
  {
    var net, p, l := w.net, w.procs[id], LeaseOf(w.net, id);
    var put, log' := net.puts[k], net.log + [net.puts[k]];
    EffectiveFacts(net, k);
    assert ProcInv(net.origin, net.log, net.puts, w.terminations, id, net.clients[id], p);
    StoredGrows(net.log, put, id, l.document);
    if p.doomed.Some? { WitnessGrows(net.log, put, id, p.doomed.value); }
    if p.stage.Captured? { CaptureStoredGrows(net.log, put, id, p.metadata); }
    if !l.aborted && p.role.Create? {
      if Fresh(l, p) {
        assert Acted(net.log, id, l.document.generation);
        VirginGrows(net.clients.Keys, net.origin, net.log, put, id, l.document.generation);
      }
      if Claimed(p.stage) {
        RecordedSinceGrows(net.clients.Keys, net.origin, net.log, put, id, p.token, l.document);
      }
    }
  }

  lemma DeliveredApproach(w: World, k: nat, id: nat)
    requires WorldInv(w) && Effective(w.net, k) && id in w.procs && !Holds(w.net, id)
    ensures ProcInv(w.net.origin, w.net.log + [w.net.puts[k]], Delivered(w.net, k).puts, w.terminations, id,
                    w.net.clients[id], w.procs[id])
  {
    var net, p, c := w.net, w.procs[id], w.net.clients[id];
    var put, log' := net.puts[k], net.log + [net.puts[k]];
    EffectiveFacts(net, k);
    assert ProcInv(net.origin, net.log, net.puts, w.terminations, id, c, p);
    assert Known(net.durable, net.now, net.store, net.puts, id, c);
    if p.doomed.Some? { WitnessGrows(net.log, put, id, p.doomed.value); }
    if p.stage.Captured? { CaptureStoredGrows(net.log, put, id, p.metadata); }
    if c.Acquiring? && c.put < |net.puts| && Delivered(net, k).puts[c.put].status == Applied {
      if c.put == k {
        TakeoverIsVirgin(net.clients.Keys, net.origin, net.log, put);
      } else {
        var q := net.puts[c.put];
        assert PutOk(net.origin, net.log, q) && PutInv(net.durable, net.now, net.clients.Keys, q);
        assert q.(status := Pending) in net.log;
        assert Acted(net.log, id, Gen(q.next));
        VirginGrows(net.clients.Keys, net.origin, net.log, put, id, Gen(q.next));
      }
    }
  }

  lemma RejectedPuts(net: Network, k: nat)
    requires PutsOk(net.origin, net.log, net.puts) && k < |net.puts| && net.puts[k].status == Pending
    ensures PutsOk(net.origin, net.log, net.puts[k := net.puts[k].(status := Rejected)])
  {
    assert PutOk(net.origin, net.log, net.puts[k]);
  }

  lemma EffectiveKeeps(w: World, k: nat)
    requires WorldInv(w) && Effective(w.net, k) && LeaseProtocol.Inv(Delivered(w.net, k))
    ensures WorldInv(w.(net := Delivered(w.net, k)))
  {
    var net' := Delivered(w.net, k);
    EffectiveFacts(w.net, k);
    DeliveredPuts(w.net, k);
    forall id | id in w.procs
      ensures ProcInv(net'.origin, net'.log, net'.puts, w.terminations, id, net'.clients[id], w.procs[id])
    {
      if Holds(w.net, id) { DeliveredHolder(w, k, id); } else { DeliveredApproach(w, k, id); }
    }
    forall t | t in w.terminations ensures Witness(net'.log, t.0, t.1) {
      WitnessGrows(w.net.log, w.net.puts[k], t.0, t.1);
    }
    forall r | r in w.launches ensures LaunchSent(net'.log, r) {
      LaunchSentGrows(w.net.log, w.net.puts[k], r);
    }
  }

  lemma RejectedProc(origin: Document, log: seq<Write>, puts: seq<Write>, terminations: set<(nat, Vm)>, id: nat,
                     c: Client<Authority>, p: Proc, k: nat)
    requires ProcInv(origin, log, puts, terminations, id, c, p) && k < |puts| && puts[k].status == Pending
    ensures ProcInv(origin, log, puts[k := puts[k].(status := Rejected)], terminations, id, c, p)
  {
  }

  lemma RejectedKeeps(w: World, k: nat)
    requires WorldInv(w) && k < |w.net.puts| && w.net.puts[k].status == Pending
    requires var net' := w.net.(puts := w.net.puts[k := w.net.puts[k].(status := Rejected)]); LeaseProtocol.Inv(net')
    ensures WorldInv(w.(net := w.net.(puts := w.net.puts[k := w.net.puts[k].(status := Rejected)])))
  {
    RejectedPuts(w.net, k);
    forall id | id in w.procs
      ensures ProcInv(w.net.origin, w.net.log, w.net.puts[k := w.net.puts[k].(status := Rejected)], w.terminations, id,
                      w.net.clients[id], w.procs[id])
    {
      RejectedProc(w.net.origin, w.net.log, w.net.puts, w.terminations, id, w.net.clients[id], w.procs[id], k);
    }
  }

  lemma ProceedNet(w: World, m: Move)
    requires Allowed(w, m)
    ensures Proceed(w, m).net == NetAfter(w, m)
  {
  }

  lemma NetAfterInv(w: World, m: Move)
    requires LeaseProtocol.Inv(w.net) && Allowed(w, m)
    ensures LeaseProtocol.Inv(NetAfter(w, m))
  {
    if NetStep(w, m).Some? { StepInv(w.net, NetStep(w, m).value); }
  }

  /** The lease steps of a move keep the invariant of the lease. */
  lemma NetStays(w: World, m: Move)
    requires LeaseProtocol.Inv(w.net) && Allowed(w, m)
    ensures LeaseProtocol.Inv(Proceed(w, m).net)
  {
    ProceedNet(w, m);
    NetAfterInv(w, m);
  }

  lemma DeliveryKeeps(w: World, k: nat)
    requires WorldInv(w) && Allowed(w, Net(LeaseProtocol.Deliver(k)))
    ensures WorldInv(Proceed(w, Net(LeaseProtocol.Deliver(k))))
  {
    NetStays(w, Net(LeaseProtocol.Deliver(k)));
    if w.net.store == w.net.puts[k].guard { EffectiveKeeps(w, k); } else { RejectedKeeps(w, k); }
  }

  // ------------------------------------------------------------------ Sending a request

  lemma {:induction false} PublicationsSplit(queue: seq<Lease.Request<Authority>>, r: Lease.Request<Authority>)
    ensures Publications(queue + [r]) == Publications(queue) + (if r.Publish? then 1 else 0)
  {
    if queue == [] {
      assert queue + [r] == [r];
    } else {
      assert (queue + [r])[1..] == queue[1..] + [r];
      PublicationsSplit(queue[1..], r);
    }
  }

  lemma {:induction false} PublicationCounts(queue: seq<Lease.Request<Authority>>, k: nat)
    requires k < |queue| && queue[k].Publish?
    ensures Publications(queue) >= 1
  {
    if k > 0 { PublicationCounts(queue[1..], k - 1); }
  }

  /** Documents of a virgin generation that the client holds name an older launch. */
  lemma HeldDocOk(w: World, id: nat)
    requires WorldInv(w) && Holds(w.net, id) && id in w.procs
    ensures DocOk(Some(LeaseOf(w.net, id).document))
    ensures Virgin(w.net.origin, w.net.log, LeaseOf(w.net, id).document.generation) ==>
              !HasLaunch(Some(LeaseOf(w.net, id).document), LeaseOf(w.net, id).document.generation)
  {
    var net, l := w.net, LeaseOf(w.net, id);
    assert ProcInv(net.origin, net.log, net.puts, w.terminations, id, net.clients[id], w.procs[id]);
    var a :| 0 <= a < |net.log| && net.log[a].owner == id && net.log[a].next == Some(l.document);
    DocsOk(net.clients.Keys, net.origin, net.log, a + 1);
    assert After(net.origin, net.log, a + 1) == Some(l.document);
  }

  /** Every stage publishes one of the allowed changes, and only a claim names a new launch. */
  lemma ProposalChanges(p: Proc, generation: nat, state: Option<Authority>)
    requires Publishes(p.stage) && StageOk(p, state) && RoleOk(p)
    requires LaunchOf(state).Some? ==> LaunchOk(generation, LaunchOf(state).value)
    requires p.stage.Claim? && LaunchOf(state).Some? ==> LaunchOf(state).value.id != generation
    ensures Change(generation, state, Proposal(p, generation, state))
    ensures !p.stage.Claim? && Proposal(p, generation, state).launch.Some? ==>
              LaunchOf(state).Some? && Proposal(p, generation, state).launch.value.id == LaunchOf(state).value.id
  {
  }

  lemma StartedWrite(w: World, id: nat)
    requires WorldInv(w) && id in w.procs && Enabled(w.net, StartNext(id))
    requires !Started(LeaseOf(w.net, id), w.net.now).operation.Idle?
    ensures var put := Apply(w.net, StartNext(id)).puts[|w.net.puts|];
            PutOk(w.net.origin, w.net.log, put) && put.owner == id && (Opening(put) ==> NoOpening(w.net.puts, id))
  {
    var net, p, l := w.net, w.procs[id], LeaseOf(w.net, id);
    assert ProcInv(net.origin, net.log, net.puts, w.terminations, id, net.clients[id], p);
    assert Known(net.durable, net.now, net.store, net.puts, id, net.clients[id]);
    var put := Apply(net, StartNext(id)).puts[|net.puts|];
    assert Acted(net.log, id, l.document.generation);
    if l.queue[0].Publish? {
      assert l.queue[0] in l.queue;
      HeldDocOk(w, id);
      PublicationCounts(l.queue, 0);
      ProposalChanges(p, l.document.generation, l.document.state);
      assert put.next == Some(Renewed(l, net.now, p.pending));
    }
  }

  lemma StartedQueue(l: Local<Authority>, p: Proc, now: int)
    requires QueueOk(l, p) && l.operation.Idle? && l.queue != []
    requires p.pending.Some? ==>
        Publishes(p.stage) && p.pending.value == Proposal(p, l.document.generation, l.document.state)
    ensures QueueOk(Started(l, now), p)
    ensures Fresh(Started(l, now), p) ==> Fresh(l, p) && (Publishes(p.stage) ==> !l.queue[0].Publish?)
  {
    assert l.queue == [l.queue[0]] + l.queue[1..];
    assert l.queue[0] in l.queue;
    assert forall r | r in l.queue[1..] :: r in l.queue;
  }

  lemma StartedLocal(origin: Document, log: seq<Write>, puts: seq<Write>, terminations: set<(nat, Vm)>, id: nat,
                     l: Local<Authority>, p: Proc, now: int)
    requires HeldInv(origin, log, puts, terminations, id, l, p) && l.operation.Idle? && l.queue != []
    ensures HeldInv(origin, log, puts, terminations, id, Started(l, now), p)
  {
    if !l.aborted { StartedQueue(l, p, now); }
  }

  /** A process that has its opening write still before it does not send it by starting something else. */
  lemma StartedOpensNothing(net: Network, id: nat, p: Proc)
    requires Enabled(net, StartNext(id)) && NoOpening(net.puts, id)
    requires !LeaseOf(net, id).aborted && QueueOk(LeaseOf(net, id), p)
    requires p.pending.Some? ==>
        Publishes(p.stage)
        && p.pending.value == Proposal(p, LeaseOf(net, id).document.generation, LeaseOf(net, id).document.state)
    requires Known(net.durable, net.now, net.store, net.puts, id, net.clients[id])
    requires Fresh(Started(LeaseOf(net, id), net.now), p)
    ensures NoOpening(Apply(net, StartNext(id)).puts, id)
  {
    var l := LeaseOf(net, id);
    StartedQueue(l, p, net.now);
    assert l.queue[0] in l.queue;
  }

  lemma StartedHeld(net: Network, terminations: set<(nat, Vm)>, id: nat, p: Proc)
    requires Enabled(net, StartNext(id))
    requires ProcInv(net.origin, net.log, net.puts, terminations, id, net.clients[id], p)
    requires Known(net.durable, net.now, net.store, net.puts, id, net.clients[id])
    ensures var net' := Apply(net, StartNext(id));
            ProcInv(net'.origin, net'.log, net'.puts, terminations, id, net'.clients[id], p)
  {
    var l := LeaseOf(net, id);
    StartedLocal(net.origin, net.log, net.puts, terminations, id, l, p, net.now);
    var l' := Started(l, net.now);
    if !l.aborted && !l'.aborted && Fresh(l', p) && p.role.Create? {
      StartedQueue(l, p, net.now);
      StartedOpensNothing(net, id, p);
    }
  }

  lemma StartedHolder(w: World, id: nat)
    requires WorldInv(w) && id in w.procs && Enabled(w.net, StartNext(id))
    ensures var net' := Apply(w.net, StartNext(id));
            ProcInv(net'.origin, net'.log, net'.puts, w.terminations, id, net'.clients[id], w.procs[id])
  {
    StartedHeld(w.net, w.terminations, id, w.procs[id]);
  }

  lemma OtherProcSend(w: World, put: Write, j: nat)
    requires WorldInv(w) && j in w.procs && j != put.owner
    ensures ProcInv(w.net.origin, w.net.log, w.net.puts + [put], w.terminations, j, w.net.clients[j], w.procs[j])
  {
    var net := w.net;
    assert ProcInv(net.origin, net.log, net.puts, w.terminations, j, net.clients[j], w.procs[j]);
    assert Known(net.durable, net.now, net.store, net.puts, j, net.clients[j]);
  }

  lemma PutsSend(w: World, put: Write)
    requires WorldInv(w) && PutOk(w.net.origin, w.net.log, put)
    requires Opening(put) ==> NoOpening(w.net.puts, put.owner)
    ensures PutsOk(w.net.origin, w.net.log, w.net.puts + [put])
  {
    var puts := w.net.puts + [put];
    forall k | 0 <= k < |puts| ensures PutOk(w.net.origin, w.net.log, puts[k]) {
      assert k < |w.net.puts| ==> PutOk(w.net.origin, w.net.log, w.net.puts[k]);
    }
  }

  /** One more write in flight, sent by one client. */
  lemma SentKeeps(w: World, net': Network, id: nat, put: Write)
    requires WorldInv(w) && LeaseProtocol.Inv(net') && id in w.procs && id in net'.clients
    requires net' == w.net.(clients := w.net.clients[id := net'.clients[id]], puts := w.net.puts + [put])
    requires put.owner == id && PutOk(w.net.origin, w.net.log, put) && (Opening(put) ==> NoOpening(w.net.puts, id))
    requires ProcInv(net'.origin, net'.log, net'.puts, w.terminations, id, net'.clients[id], w.procs[id])
    ensures WorldInv(w.(net := net'))
  {
    PutsSend(w, put);
    forall j | j in w.procs
      ensures ProcInv(net'.origin, net'.log, net'.puts, w.terminations, j, net'.clients[j], w.procs[j])
    {
      if j != id { OtherProcSend(w, put, j); }
    }
  }

  lemma StartShape(net: Network, id: nat)
    requires Enabled(net, StartNext(id))
    ensures var l', net' := Started(LeaseOf(net, id), net.now), Apply(net, StartNext(id));
      if l'.operation.Idle? then net' == WithLease(net, id, l')
      else |net'.puts| > |net.puts| && net'.puts[|net.puts|].owner == id
           && net' == net.(clients := net.clients[id := net'.clients[id]], puts := net.puts + [net'.puts[|net.puts|]])
  {
  }

  lemma StartedIdleKeeps(w: World, id: nat)
    requires WorldInv(w) && Allowed(w, Net(StartNext(id))) && Started(LeaseOf(w.net, id), w.net.now).operation.Idle?
    requires LeaseProtocol.Inv(Apply(w.net, StartNext(id)))
    ensures WorldInv(w.(net := Apply(w.net, StartNext(id))))
  {
    StartShape(w.net, id);
    StartedHolder(w, id);
    QuietlyKeeps(w, w.(net := Apply(w.net, StartNext(id))), id);
  }

  lemma StartedWriteKeeps(w: World, id: nat)
    requires WorldInv(w) && Allowed(w, Net(StartNext(id))) && !Started(LeaseOf(w.net, id), w.net.now).operation.Idle?
    requires LeaseProtocol.Inv(Apply(w.net, StartNext(id)))
    ensures WorldInv(w.(net := Apply(w.net, StartNext(id))))
  {
    StartShape(w.net, id);
    StartedHolder(w, id);
    StartedWrite(w, id);
    SentKeeps(w, Apply(w.net, StartNext(id)), id, Apply(w.net, StartNext(id)).puts[|w.net.puts|]);
  }

  lemma StartNextKeeps(w: World, id: nat)
    requires WorldInv(w) && Allowed(w, Net(StartNext(id)))
    ensures WorldInv(Proceed(w, Net(StartNext(id))))
  {
    NetAfterInv(w, Net(StartNext(id)));
    if Started(LeaseOf(w.net, id), w.net.now).operation.Idle? {
      StartedIdleKeeps(w, id);
    } else {
      StartedWriteKeeps(w, id);
    }
  }

  lemma AcquireShape(net: Network, terminations: set<(nat, Vm)>, id: nat, p: Proc)
    requires Enabled(net, SendAcquire(id))
    requires ProcInv(net.origin, net.log, net.puts, terminations, id, net.clients[id], p)
    ensures var net' := Apply(net, SendAcquire(id));
      && |net'.puts| > |net.puts| && net'.puts[|net.puts|].owner == id
      && net' == net.(clients := net.clients[id := net'.clients[id]], puts := net.puts + [net'.puts[|net.puts|]])
      && ProcInv(net'.origin, net'.log, net'.puts, terminations, id, net'.clients[id], p)
      && PutOk(net.origin, net.log, net'.puts[|net.puts|]) && !Opening(net'.puts[|net.puts|])
  {
  }

  lemma SendAcquireKeeps(w: World, id: nat)
    requires WorldInv(w) && Allowed(w, Net(SendAcquire(id)))
    ensures WorldInv(Proceed(w, Net(SendAcquire(id))))
  {
    NetStays(w, Net(SendAcquire(id)));
    assert ProcInv(w.net.origin, w.net.log, w.net.puts, w.terminations, id, w.net.clients[id], w.procs[id]);
    AcquireShape(w.net, w.terminations, id, w.procs[id]);
    var net' := Apply(w.net, SendAcquire(id));
    SentKeeps(w, net', id, net'.puts[|w.net.puts|]);
  }

  // ------------------------------------------------------------------ Moves of one process

  ghost predicate ProcessOk(w: World, id: nat)
    requires id in w.net.clients && id in w.procs
  {
    ProcInv(w.net.origin, w.net.log, w.net.puts, w.terminations, id, w.net.clients[id], w.procs[id])
  }

  /** Only one client and its process differ, and nothing was sent. */
  predicate OneProcess(w: World, w': World, id: nat) {
    && w'.net.durable == w.net.durable && w'.net.origin == w.net.origin
    && w'.net.log == w.net.log && w'.net.puts == w.net.puts
    && w'.net.clients.Keys == w.net.clients.Keys + {id} && w'.procs.Keys == w.procs.Keys + {id}
    && (forall j | j in w.procs && j != id && j in w.net.clients ::
          w'.net.clients[j] == w.net.clients[j] && w'.procs[j] == w.procs[j])
  }

  /** A move that touches one client and its process, and dispatches no termination for others. */
  lemma OneProcessKeeps(w: World, w': World, id: nat)
    requires WorldInv(w) && LeaseProtocol.Inv(w'.net) && OneProcess(w, w', id)
    requires w.terminations <= w'.terminations
    requires forall t | t in w'.terminations && t !in w.terminations :: t.0 == id && Witness(w.net.log, t.0, t.1)
    requires forall r | r in w'.launches && r !in w.launches :: LaunchSent(w.net.log, r)
    requires ProcessOk(w', id)
    ensures WorldInv(w')
  {
    forall j | j in w'.procs
      ensures ProcInv(w'.net.origin, w'.net.log, w'.net.puts, w'.terminations, j, w'.net.clients[j], w'.procs[j])
    {
      if j != id {
        assert ProcInv(w.net.origin, w.net.log, w.net.puts, w.terminations, j, w.net.clients[j], w.procs[j]);
      }
    }
  }

  /** The same for a move that dispatches and launches nothing. */
  lemma QuietlyKeeps(w: World, w': World, id: nat)
    requires WorldInv(w) && LeaseProtocol.Inv(w'.net) && OneProcess(w, w', id) && ProcessOk(w', id)
    requires w'.terminations == w.terminations && w'.launches == w.launches
    ensures WorldInv(w')
  {
    OneProcessKeeps(w, w', id);
  }

  /** The same for a move that changes one held lease and its process. */
  lemma HolderKeeps(w: World, w': World, id: nat, l': Local<Authority>, p': Proc)
    requires WorldInv(w) && id in w.procs && Holds(w.net, id)
    requires w'.net == WithLease(w.net, id, l') && LeaseProtocol.Inv(w'.net)
    requires w'.procs == w.procs[id := p'] && w'.terminations == w.terminations && w'.launches == w.launches
    requires ProcInv(w.net.origin, w.net.log, w.net.puts, w.terminations, id, w.net.clients[id].(lease := l'), p')
    ensures WorldInv(w')
  {
    QuietlyKeeps(w, w', id);
  }

  lemma TickKeeps(w: World, now: int)
    requires WorldInv(w) && Allowed(w, Net(Tick(now)))
    ensures WorldInv(Proceed(w, Net(Tick(now))))
  {
    var w' := Proceed(w, Net(Tick(now)));
    StepInv(w.net, Tick(now));
    forall j | j in w'.procs
      ensures ProcInv(w'.net.origin, w'.net.log, w'.net.puts, w'.terminations, j, w'.net.clients[j], w'.procs[j])
    {
      assert ProcInv(w.net.origin, w.net.log, w.net.puts, w.terminations, j, w.net.clients[j], w.procs[j]);
    }
  }

  /** A lease memory that starts no write, adds at most renewals, and forgets nothing but authority. */
  lemma QuietHolder(w: World, id: nat, l': Local<Authority>)
    requires WorldInv(w) && id in w.procs && Holds(w.net, id)
    requires l'.document == LeaseOf(w.net, id).document
    requires l'.aborted || (l'.operation == LeaseOf(w.net, id).operation && !LeaseOf(w.net, id).aborted
               && l'.queue == LeaseOf(w.net, id).queue + [Renew])
    ensures ProcInv(w.net.origin, w.net.log, w.net.puts, w.terminations, id,
                    w.net.clients[id].(lease := l'), w.procs[id])
  {
    assert ProcInv(w.net.origin, w.net.log, w.net.puts, w.terminations, id, w.net.clients[id], w.procs[id]);
    PublicationsSplit(LeaseOf(w.net, id).queue, Renew);
  }

  lemma QuietLease(w: World, step: Step<Authority>)
    requires WorldInv(w) && Allowed(w, Net(step))
    requires step.Enqueue? || step.WriteFailed? || step.ReleaseSettled? || step.Abort? || step.CallRelease?
    ensures var l, l' := LeaseOf(w.net, step.id), LeaseOf(Apply(w.net, step), step.id);
      && Apply(w.net, step) == WithLease(w.net, step.id, l') && l'.document == l.document
      && (l'.aborted || (l'.operation == l.operation && !l.aborted && l'.queue == l.queue + [Renew]))
  {
    assert Known(w.net.durable, w.net.now, w.net.store, w.net.puts, step.id, w.net.clients[step.id]);
    assert LeaseInv(w.net.durable, w.net.now, w.net.puts, step.id, LeaseOf(w.net, step.id), w.net.clients[step.id].put);
  }

  lemma QuietHolderOk(w: World, step: Step<Authority>)
    requires WorldInv(w) && Allowed(w, Net(step))
    requires step.Enqueue? || step.WriteFailed? || step.ReleaseSettled? || step.Abort? || step.CallRelease?
    ensures var w' := w.(net := Apply(w.net, step)); OneProcess(w, w', step.id) && ProcessOk(w', step.id)
  {
    QuietLease(w, step);
    QuietHolder(w, step.id, LeaseOf(Apply(w.net, step), step.id));
  }

  lemma QuietHolderKeeps(w: World, step: Step<Authority>)
    requires WorldInv(w) && Allowed(w, Net(step))
    requires step.Enqueue? || step.WriteFailed? || step.ReleaseSettled? || step.Abort? || step.CallRelease?
    ensures WorldInv(Proceed(w, Net(step)))
  {
    NetAfterInv(w, Net(step));
    QuietHolderOk(w, step);
    QuietlyKeeps(w, w.(net := Apply(w.net, step)), step.id);
  }

  lemma QuietApproach(net: Network, terminations: set<(nat, Vm)>, step: Step<Authority>, p: Proc)
    requires Enabled(net, step) && (step.Fetch? || step.Contend? || step.AcquireRejected? || step.Stop?)
    requires ProcInv(net.origin, net.log, net.puts, terminations, step.id, net.clients[step.id], p)
    ensures var net' := Apply(net, step);
      && net' == WithClient(net, step.id, net'.clients[step.id])
      && ProcInv(net'.origin, net'.log, net'.puts, terminations, step.id, net'.clients[step.id], p)
  {
  }

  lemma QuietApproachOk(w: World, step: Step<Authority>)
    requires WorldInv(w) && Allowed(w, Net(step))
    requires step.Fetch? || step.Contend? || step.AcquireRejected? || step.Stop?
    ensures var w' := w.(net := Apply(w.net, step)); OneProcess(w, w', step.id) && ProcessOk(w', step.id)
  {
    assert ProcInv(w.net.origin, w.net.log, w.net.puts, w.terminations, step.id, w.net.clients[step.id],
                   w.procs[step.id]);
    QuietApproach(w.net, w.terminations, step, w.procs[step.id]);
  }

  lemma QuietApproachKeeps(w: World, step: Step<Authority>)
    requires WorldInv(w) && Allowed(w, Net(step))
    requires step.Fetch? || step.Contend? || step.AcquireRejected? || step.Stop?
    ensures WorldInv(Proceed(w, Net(step)))
  {
    NetAfterInv(w, Net(step));
    QuietApproachOk(w, step);
    QuietlyKeeps(w, w.(net := Apply(w.net, step)), step.id);
  }

  lemma NewcomerIsInnocent(w: World, id: nat)
    requires WorldInv(w) && id !in w.net.clients
    ensures forall k | 0 <= k < |w.net.puts| :: w.net.puts[k].owner != id
    ensures forall v: Vm :: (id, v) !in w.terminations
  {
    forall k | 0 <= k < |w.net.puts| ensures w.net.puts[k].owner != id {
      assert PutInv(w.net.durable, w.net.now, w.net.clients.Keys, w.net.puts[k]);
    }
    forall t | t in w.terminations ensures t.0 in w.net.clients {
      assert Witness(w.net.log, t.0, t.1);
      var a :| 0 <= a < |w.net.log| && w.net.log[a].owner == t.0;
      assert Entry(true, w.net.clients.Keys, w.net.origin, w.net.log, a);
    }
  }

  lemma NewcomerOk(w: World, ttl: nat, deadline: Deadline, id: nat, p: Proc)
    requires WorldInv(w) && Enabled(w.net, Begin(id, ttl, deadline))
    requires p.stage.Waiting? && p.pending.None? && p.doomed.None?
    ensures var w' := WithProc(w.(net := Apply(w.net, Begin(id, ttl, deadline))), id, p);
      OneProcess(w, w', id) && ProcessOk(w', id)
  {
    NewcomerIsInnocent(w, id);
  }

  lemma NewcomerKeeps(w: World, ttl: nat, deadline: Deadline, id: nat, p: Proc)
    requires WorldInv(w) && Enabled(w.net, Begin(id, ttl, deadline))
    requires p.stage.Waiting? && p.pending.None? && p.doomed.None?
    ensures WorldInv(WithProc(w.(net := Apply(w.net, Begin(id, ttl, deadline))), id, p))
  {
    StepInv(w.net, Begin(id, ttl, deadline));
    NewcomerOk(w, ttl, deadline, id, p);
    QuietlyKeeps(w, WithProc(w.(net := Apply(w.net, Begin(id, ttl, deadline))), id, p), id);
  }

  lemma OpenKeeps(w: World, m: Move)
    requires WorldInv(w) && Allowed(w, m) && (m.OpenSession? || m.OpenCleanup? || m.OpenDelete?)
    ensures WorldInv(Proceed(w, m))
  {
    match m
    case OpenSession(id, ttl, deadline, _, _) => NewcomerKeeps(w, ttl, deadline, id, Proceed(w, m).procs[id]);
    case OpenCleanup(id, ttl, deadline, _) => NewcomerKeeps(w, ttl, deadline, id, Proceed(w, m).procs[id]);
    case OpenDelete(id, ttl, _) => NewcomerKeeps(w, ttl, None, id, Proceed(w, m).procs[id]);
  }

  /** The acquisition that was confirmed is in the log, under the generation it opened. */
  lemma GrantedFacts(w: World, id: nat)
    requires WorldInv(w) && Allowed(w, Grant(id))
    ensures var put := w.net.puts[w.net.clients[id].put];
            && put.next.Some? && put.next.value.holder == id
            && Stored(w.net.log, id, put.next.value) && DocOk(put.next)
            && Virgin(w.net.origin, w.net.log, put.next.value.generation)
            && !HasLaunch(put.next, put.next.value.generation)
            && (forall v :: Recorded(put.next, v) ==> Witness(w.net.log, id, v))
    ensures NoOpening(w.net.puts, id)
  {
    var net, c := w.net, w.net.clients[id];
    assert ProcInv(net.origin, net.log, net.puts, w.terminations, id, c, w.procs[id]);
    assert Known(net.durable, net.now, net.store, net.puts, id, c);
    var put := net.puts[c.put];
    assert PutOk(net.origin, net.log, put);
    var a :| 0 <= a < |net.log| && net.log[a] == put.(status := Pending);
    DocsOk(net.clients.Keys, net.origin, net.log, a + 1);
    assert After(net.origin, net.log, a + 1) == put.next;
  }

  lemma GrantedHeld(origin: Document, log: seq<Write>, puts: seq<Write>, terminations: set<(nat, Vm)>, id: nat,
                    l: Local<Authority>, p: Proc)
    requires p.stage.Waiting? && p.pending.None? && p.doomed.None? && forall v: Vm :: (id, v) !in terminations
    requires l.queue == [] && l.operation.Idle? && Stored(log, id, l.document) && DocOk(Some(l.document))
    requires Virgin(origin, log, l.document.generation) && NoOpening(puts, id)
    requires !HasLaunch(Some(l.document), l.document.generation)
    requires forall v :: Recorded(Some(l.document), v) ==> Witness(log, id, v)
    ensures var p' := Session.Granted(p, l.document.generation, l.document.state);
            HeldInv(origin, log, puts, terminations, id, l, p') && RoleOk(p') && !p'.stage.Captured?
            && (p'.doomed.Some? ==> Witness(log, id, p'.doomed.value))
  {
    var p' := Session.Granted(p, l.document.generation, l.document.state);
    assert p'.doomed.Some? ==> Recorded(Some(l.document), p'.doomed.value);
  }

  lemma GrantedHolder(w: World, id: nat)
    requires WorldInv(w) && Allowed(w, Grant(id))
    ensures var w' := Proceed(w, Grant(id));
            ProcInv(w'.net.origin, w'.net.log, w'.net.puts, w'.terminations, id, w'.net.clients[id], w'.procs[id])
  {
    GrantedFacts(w, id);
    assert ProcInv(w.net.origin, w.net.log, w.net.puts, w.terminations, id, w.net.clients[id], w.procs[id]);
    var w' := Proceed(w, Grant(id));
    if Holds(w'.net, id) {
      GrantedHeld(w.net.origin, w.net.log, w.net.puts, w.terminations, id, LeaseOf(w'.net, id), w.procs[id]);
    }
  }

  lemma GrantFrame(w: World, id: nat)
    requires Allowed(w, Grant(id))
    ensures var w' := Proceed(w, Grant(id));
      OneProcess(w, w', id) && w'.terminations == w.terminations && w'.launches == w.launches
  {
  }

  lemma GrantKeeps(w: World, id: nat)
    requires WorldInv(w) && Allowed(w, Grant(id))
    ensures WorldInv(Proceed(w, Grant(id)))
  {
    NetStays(w, Grant(id));
    GrantFrame(w, id);
    GrantedHolder(w, id);
    QuietlyKeeps(w, Proceed(w, Grant(id)), id);
  }

  // ------------------------------------------------------------------ Confirmed writes

  lemma ConfirmedStored(w: World, id: nat, choice: bool)
    requires WorldInv(w) && Allowed(w, Confirm(id, choice))
    ensures Stored(w.net.log, id, LeaseOf(w.net, id).operation.next)
    ensures forall v :: Recorded(Some(LeaseOf(w.net, id).operation.next), v) ==> Witness(w.net.log, id, v)
    ensures forall m :: LeaseOf(w.net, id).operation.next.state == Some(Authority(m, None)) ==>
        CaptureStored(w.net.log, id, m)
  {
    var net, c := w.net, w.net.clients[id];
    assert Known(net.durable, net.now, net.store, net.puts, id, c);
    assert PutOk(net.origin, net.log, net.puts[c.put]);
    var a :| 0 <= a < |net.log| && net.log[a] == net.puts[c.put].(status := Pending);
  }

  /** A launch other than this generation's that the owner's document names was not recorded earlier. */
  lemma RecordedLater(ids: set<nat>, origin: Document, log: seq<Write>, id: nat, doc: Doc<Authority>, token: nat)
    requires LogInv(true, ids, origin, log) && HistoryOk(origin, log) && Stored(log, id, doc)
    requires token == doc.generation || (HasLaunch(Some(doc), token) && LaunchOf(doc.state).value.microvm.None?)
    ensures RecordedSince(origin, log, token, doc.generation)
  {
    var a :| 0 <= a < |log| && log[a].owner == id && log[a].next == Some(doc);
    assert After(origin, log, a + 1) == Some(doc);
    forall j | 0 <= j <= |log| && Recorded(After(origin, log, j), Vm(token))
      ensures doc.generation <= Gen(After(origin, log, j))
    {
      DocsOk(ids, origin, log, j);
      if a + 1 <= j {
        GenerationsAdvance(ids, origin, log, a + 1, j);
      } else if token != doc.generation {
        LaunchesGrow(ids, origin, log, j, a + 1, token);
      }
    }
  }

  /** The launch a claim settled on has been recorded by nobody before this generation. */
  lemma ClaimedSince(w: World, id: nat)
    requires WorldInv(w) && id in w.procs && Holds(w.net, id) && !LeaseOf(w.net, id).aborted
    requires w.procs[id].stage.Claim? && w.procs[id].pending.Some?
    ensures var p, document := w.procs[id], LeaseOf(w.net, id).document;
            var launch := p.pending.value.launch;
            && launch.Some?
            && RecordedSince(w.net.origin, w.net.log, launch.value.id, document.generation)
            && (p.doomed.Some? ==> launch.value.id == document.generation)
  {
    var net, p, l := w.net, w.procs[id], LeaseOf(w.net, id);
    assert ProcInv(net.origin, net.log, net.puts, w.terminations, id, net.clients[id], p);
    RecordedLater(net.clients.Keys, net.origin, net.log, id, l.document, p.pending.value.launch.value.id);
  }

  lemma NoPublications(queue: seq<Lease.Request<Authority>>)
    requires Publications(queue) == 0
    ensures forall r | r in queue :: !r.Publish?
  {
    forall k | 0 <= k < |queue| ensures !queue[k].Publish? {
      if queue[k].Publish? { PublicationCounts(queue, k); }
    }
  }

  lemma VerifiedStage(p: Proc, state: Option<Authority>, choice: bool)
    requires StageOk(p, state) && RoleOk(p)
    ensures StageOk(Verified(p, state, choice), state) && RoleOk(Verified(p, state, choice))
    ensures Verified(p, state, choice).doomed == p.doomed && Verified(p, state, choice).token == p.token
    ensures Verified(p, state, choice).pending == p.pending && Verified(p, state, choice).role == p.role
    ensures Publishes(p.stage) ==> Verified(p, state, choice) == p
    ensures p.role.Create? ==> (Claimed(p.stage) <==> Claimed(Verified(p, state, choice).stage))
    ensures BeforeKill(Verified(p, state, choice).stage) ==> BeforeKill(p.stage)
    ensures Verified(p, state, choice).stage.Captured? ==> Verified(p, state, choice) == p
  {
  }

  lemma VerifiedHeld(origin: Document, log: seq<Write>, puts: seq<Write>, terminations: set<(nat, Vm)>,
                     id: nat, l: Local<Authority>, l': Local<Authority>, p: Proc, choice: bool)
    requires HeldInv(origin, log, puts, terminations, id, l, p) && RoleOk(p) && !l.aborted
    requires l.operation.Writing? && !l.operation.request.Publish?
    requires l'.document == l.operation.next && l'.operation.Idle? && l'.queue == l.queue
    requires l'.document.generation == l.document.generation && l'.document.state == l.document.state
    requires Stored(log, id, l'.document)
    ensures HeldInv(origin, log, puts, terminations, id, l', Verified(p, l.document.state, choice))
  {
    VerifiedStage(p, l.document.state, choice);
  }

  lemma VerifiedHolder(w: World, id: nat, choice: bool)
    requires WorldInv(w) && Allowed(w, Confirm(id, choice))
    requires !Confirmed(LeaseOf(w.net, id), w.net.now).aborted && !LeaseOf(w.net, id).operation.request.Publish?
    ensures var l, p := LeaseOf(w.net, id), w.procs[id];
            ProcInv(w.net.origin, w.net.log, w.net.puts, w.terminations, id,
                    w.net.clients[id].(lease := Confirmed(l, w.net.now)), Verified(p, l.document.state, choice))
  {
    var net, p, l := w.net, w.procs[id], LeaseOf(w.net, id);
    ConfirmedStored(w, id, choice);
    assert Known(net.durable, net.now, net.store, net.puts, id, net.clients[id]);
    assert ProcInv(net.origin, net.log, net.puts, w.terminations, id, net.clients[id], p);
    VerifiedStage(p, l.document.state, choice);
    VerifiedHeld(net.origin, net.log, net.puts, w.terminations, id, l, Confirmed(l, net.now), p, choice);
  }

  /** A successful publication brings the process to a stage its new document agrees with. */
  lemma PublishedStage(p: Proc, generation: nat, state: Option<Authority>, x: Authority)
    requires Publishes(p.stage) && StageOk(p, state) && RoleOk(p) && x == Proposal(p, generation, state)
    requires LaunchOf(state).Some? ==> LaunchOk(generation, LaunchOf(state).value)
    ensures StageOk(Published(p, x), Some(x)) && RoleOk(Published(p, x))
    ensures Published(p, x).pending.None? && Published(p, x).role == p.role
    ensures Published(p, x).stage.Captured? ==> x == Authority(Published(p, x).metadata, None)
    ensures !p.stage.Claim? ==> Published(p, x).token == p.token
    ensures Published(p, x).doomed.Some? && Published(p, x).doomed != p.doomed ==>
              x.launch.Some? && x.launch.value.microvm == Published(p, x).doomed
  {
  }

  /** A claim that retired its predecessor's VM runs under a fresh launch of its own. */
  lemma PublishedOwn(p: Proc, x: Authority, id: nat, generation: nat, terminations: set<(nat, Vm)>)
    requires OwnTerminations(p, id, generation, terminations) && Publishes(p.stage)
    requires p.stage.Claim? ==> x.launch.Some? && (p.doomed.Some? ==> x.launch.value.id == generation)
    ensures OwnTerminations(Published(p, x), id, generation, terminations)
  {
  }

  lemma PublishedHeld(origin: Document, log: seq<Write>, puts: seq<Write>, terminations: set<(nat, Vm)>,
                      id: nat, l: Local<Authority>, l': Local<Authority>, p: Proc, x: Authority)
    requires HeldInv(origin, log, puts, terminations, id, l, p) && RoleOk(p) && !l.aborted
    requires l.operation.Writing? && l.operation.request == Publish(x)
    requires l'.document == l.operation.next && l'.operation.Idle? && l'.queue == l.queue
    requires l'.document.generation == l.document.generation && l'.document.state == Some(x)
    requires DocOk(Some(l.document)) && Stored(log, id, l'.document)
    requires p.stage.Claim? ==>
               && x.launch.Some? && RecordedSince(origin, log, x.launch.value.id, l.document.generation)
               && (p.doomed.Some? ==> x.launch.value.id == l.document.generation)
    ensures HeldInv(origin, log, puts, terminations, id, l', Published(p, x))
  {
    PublishedStage(p, l.document.generation, l.document.state, x);
    NoPublications(l.queue);
    if p.role.Create? {
      PublishedOwn(p, x, id, l.document.generation, terminations);
    }
  }

  lemma PublishedHolder(w: World, id: nat, choice: bool)
    requires WorldInv(w) && Allowed(w, Confirm(id, choice))
    requires !Confirmed(LeaseOf(w.net, id), w.net.now).aborted && LeaseOf(w.net, id).operation.request.Publish?
    ensures var l, p := LeaseOf(w.net, id), w.procs[id];
            ProcInv(w.net.origin, w.net.log, w.net.puts, w.terminations, id,
                    w.net.clients[id].(lease := Confirmed(l, w.net.now)), Published(p, l.operation.request.state))
  {
    var net, p, l := w.net, w.procs[id], LeaseOf(w.net, id);
    var x := l.operation.request.state;
    ConfirmedStored(w, id, choice);
    HeldDocOk(w, id);
    assert Known(net.durable, net.now, net.store, net.puts, id, net.clients[id]);
    assert ProcInv(net.origin, net.log, net.puts, w.terminations, id, net.clients[id], p);
    if p.stage.Claim? { ClaimedSince(w, id); }
    PublishedProc(net.origin, net.log, net.puts, w.terminations, id, net.clients[id], Confirmed(l, net.now), p, x);
  }

  lemma PublishedProc(origin: Document, log: seq<Write>, puts: seq<Write>, terminations: set<(nat, Vm)>,
                      id: nat, c: Client<Authority>, l': Local<Authority>, p: Proc, x: Authority)
    requires ProcInv(origin, log, puts, terminations, id, c, p) && c.Holding? && !c.lease.aborted
    requires c.lease.operation.Writing? && c.lease.operation.request == Publish(x)
    requires l'.document == c.lease.operation.next && l'.operation.Idle? && l'.queue == c.lease.queue
    requires l'.document.generation == c.lease.document.generation && l'.document.state == Some(x)
    requires DocOk(Some(c.lease.document)) && Stored(log, id, l'.document)
    requires forall v :: Recorded(Some(l'.document), v) ==> Witness(log, id, v)
    requires forall m :: x == Authority(m, None) ==> CaptureStored(log, id, m)
    requires p.stage.Claim? ==>
      && x.launch.Some? && RecordedSince(origin, log, x.launch.value.id, c.lease.document.generation)
      && (p.doomed.Some? ==> x.launch.value.id == c.lease.document.generation)
    ensures ProcInv(origin, log, puts, terminations, id, c.(lease := l'), Published(p, x))
  {
    PublishedStage(p, c.lease.document.generation, c.lease.document.state, x);
    PublishedHeld(origin, log, puts, terminations, id, c.lease, l', p, x);
  }

  lemma AbortedHolder(w: World, id: nat, choice: bool)
    requires WorldInv(w) && Allowed(w, Confirm(id, choice))
    requires Confirmed(LeaseOf(w.net, id), w.net.now).aborted
    ensures ProcInv(w.net.origin, w.net.log, w.net.puts, w.terminations, id,
                    w.net.clients[id].(lease := Confirmed(LeaseOf(w.net, id), w.net.now)), w.procs[id])
  {
    ConfirmedStored(w, id, choice);
    assert ProcInv(w.net.origin, w.net.log, w.net.puts, w.terminations, id, w.net.clients[id], w.procs[id]);
  }

  function ConfirmedProc(w: World, id: nat, choice: bool): Proc
    requires Allowed(w, Confirm(id, choice))
  {
    var l, p := LeaseOf(w.net, id), w.procs[id];
    if Confirmed(l, w.net.now).aborted then p
    else if l.operation.request.Publish? then Published(p, l.operation.request.state)
    else Verified(p, l.document.state, choice)
  }

  lemma ConfirmShape(w: World, id: nat, choice: bool)
    requires Allowed(w, Confirm(id, choice))
    ensures var w' := Proceed(w, Confirm(id, choice));
      && w'.net == WithLease(w.net, id, Confirmed(LeaseOf(w.net, id), w.net.now))
      && w'.procs == w.procs[id := ConfirmedProc(w, id, choice)]
      && w'.terminations == w.terminations && w'.launches == w.launches
  {
  }

  lemma ConfirmedHolder(w: World, id: nat, choice: bool)
    requires WorldInv(w) && Allowed(w, Confirm(id, choice))
    ensures ProcInv(w.net.origin, w.net.log, w.net.puts, w.terminations, id,
                    w.net.clients[id].(lease := Confirmed(LeaseOf(w.net, id), w.net.now)), ConfirmedProc(w, id, choice))
  {
    if Confirmed(LeaseOf(w.net, id), w.net.now).aborted {
      AbortedHolder(w, id, choice);
    } else if LeaseOf(w.net, id).operation.request.Publish? {
      PublishedHolder(w, id, choice);
    } else {
      VerifiedHolder(w, id, choice);
    }
  }

  lemma ConfirmFrame(w: World, id: nat, choice: bool)
    requires Allowed(w, Confirm(id, choice))
    ensures var w' := Proceed(w, Confirm(id, choice));
      OneProcess(w, w', id) && w'.terminations == w.terminations && w'.launches == w.launches
  {
  }

  lemma ConfirmedOk(w: World, id: nat, choice: bool)
    requires WorldInv(w) && Allowed(w, Confirm(id, choice))
    ensures ProcessOk(Proceed(w, Confirm(id, choice)), id)
  {
    ConfirmShape(w, id, choice);
    ConfirmedHolder(w, id, choice);
  }

  lemma ConfirmKeeps(w: World, id: nat, choice: bool)
    requires WorldInv(w) && Allowed(w, Confirm(id, choice))
    ensures WorldInv(Proceed(w, Confirm(id, choice)))
  {
    NetStays(w, Confirm(id, choice));
    ConfirmFrame(w, id, choice);
    ConfirmedOk(w, id, choice);
    QuietlyKeeps(w, Proceed(w, Confirm(id, choice)), id);
  }

  // ------------------------------------------------------------------ Calls and local moves

  lemma UpdatedHeld(origin: Document, log: seq<Write>, puts: seq<Write>, terminations: set<(nat, Vm)>, id: nat,
                    c: Client<Authority>, p: Proc, p': Proc)
    requires ProcInv(origin, log, puts, terminations, id, c, p) && c.Holding?
    requires Publishes(p.stage) && p.pending.None?
    requires p' == p.(pending := p'.pending, config := p'.config, activation := p'.activation)
    requires p'.pending == Some(Proposal(p', c.lease.document.generation, c.lease.document.state))
    ensures ProcInv(origin, log, puts, terminations, id,
                    c.(lease := Enqueued(c.lease, Publish(p'.pending.value))), p')
  {
    PublicationsSplit(c.lease.queue, Publish(p'.pending.value));
    if !c.lease.aborted { NoPublications(c.lease.queue); }
  }

  lemma UpdatedHolder(w: World, id: nat, p': Proc)
    requires WorldInv(w) && id in w.procs && Holds(w.net, id)
    requires Publishes(w.procs[id].stage) && w.procs[id].pending.None?
    requires p' == w.procs[id].(pending := p'.pending, config := p'.config, activation := p'.activation)
    requires p'.pending == Some(Proposal(p', LeaseOf(w.net, id).document.generation, LeaseOf(w.net, id).document.state))
    ensures ProcInv(w.net.origin, w.net.log, w.net.puts, w.terminations, id,
                    w.net.clients[id].(lease := Enqueued(LeaseOf(w.net, id), Publish(p'.pending.value))), p')
  {
    UpdatedHeld(w.net.origin, w.net.log, w.net.puts, w.terminations, id, w.net.clients[id], w.procs[id], p');
  }

  lemma UpdateShape(w: World, id: nat, config: nat, activation: nat)
    requires Allowed(w, Update(id, config, activation))
    ensures var w' := Proceed(w, Update(id, config, activation));
      && id in w'.procs && w'.procs[id].pending.Some? && w'.procs == w.procs[id := w'.procs[id]]
      && w'.net == WithLease(w.net, id, Enqueued(LeaseOf(w.net, id), Publish(w'.procs[id].pending.value)))
      && w'.terminations == w.terminations && w'.launches == w.launches
      && w'.procs[id] == w.procs[id].(
           pending := Some(ProposalNow(w, id, config, activation)), config := config, activation := activation)
  {
  }

  lemma UpdateKeeps(w: World, id: nat, config: nat, activation: nat)
    requires WorldInv(w) && Allowed(w, Update(id, config, activation))
    ensures WorldInv(Proceed(w, Update(id, config, activation)))
  {
    NetStays(w, Update(id, config, activation));
    UpdateShape(w, id, config, activation);
    var p' := Proceed(w, Update(id, config, activation)).procs[id];
    UpdatedHolder(w, id, p');
    HolderKeeps(w, Proceed(w, Update(id, config, activation)), id,
                Enqueued(LeaseOf(w.net, id), Publish(p'.pending.value)), p');
  }

  /** A process that moves on by itself, outside a publication. */
  predicate MovesOn(l: Local<Authority>, p: Proc, p': Proc) {
    && p' == p.(stage := p'.stage, capturing := p'.capturing) && !p'.stage.Waiting?
    && (!l.aborted && StageOk(p, l.document.state) && RoleOk(p) ==> StageOk(p', l.document.state))
    && (RoleOk(p) ==> RoleOk(p'))
    && !Publishes(p.stage) && (p'.stage.Captured? ==> p.stage.Captured?)
    && (Fresh(l, p') ==> p.stage.RetireAwait? || p.stage.Retire?)
    && (Claimed(p'.stage) <==> Claimed(p.stage))
    && (BeforeKill(p'.stage) ==> BeforeKill(p.stage))
  }

  lemma MovedOn(w: World, id: nat, p': Proc)
    requires WorldInv(w) && id in w.procs && Holds(w.net, id) && MovesOn(LeaseOf(w.net, id), w.procs[id], p')
    ensures ProcInv(w.net.origin, w.net.log, w.net.puts, w.terminations, id, w.net.clients[id], p')
  {
    assert ProcInv(w.net.origin, w.net.log, w.net.puts, w.terminations, id, w.net.clients[id], w.procs[id]);
  }

  lemma MovedOnKeeps(w: World, w': World, id: nat, p': Proc)
    requires WorldInv(w) && id in w.procs && Holds(w.net, id) && MovesOn(LeaseOf(w.net, id), w.procs[id], p')
    requires w'.net == w.net && w'.terminations == w.terminations && w'.procs == w.procs[id := p']
    requires forall r | r in w'.launches && r !in w.launches :: LaunchSent(w.net.log, r)
    ensures WorldInv(w')
  {
    MovedOn(w, id, p');
    OneProcessKeeps(w, w', id);
  }

  /** The moves that change nothing but the stage. */
  predicate PlainMove(from: Stage, to: Stage) {
    match to
    case LaunchAwait => from.LaunchNow?
    case Launched => from.LaunchAwait?
    case FailCheck => from.Ready? || from.Restore? || from.Handover?
    case Upload => from.Live? || from.Used? || from.Captured?
    case Used => from.Upload?
    case DeleteCheck => from.Live? || from.Used? || from.Captured?
    case _ => false
  }

  lemma PlainMoveKeeps(w: World, w': World, id: nat, to: Stage)
    requires WorldInv(w) && id in w.procs && Holds(w.net, id) && PlainMove(w.procs[id].stage, to)
    requires w'.net == w.net && w'.terminations == w.terminations
        && w'.procs == w.procs[id := w.procs[id].(stage := to)]
    requires forall r | r in w'.launches && r !in w.launches :: LaunchSent(w.net.log, r)
    ensures WorldInv(w')
  {
    PlainMoveMovesOn(LeaseOf(w.net, id), w.procs[id], to);
    MovedOnKeeps(w, w', id, w.procs[id].(stage := to));
  }

  lemma PlainMoveMovesOn(l: Local<Authority>, p: Proc, to: Stage)
    requires PlainMove(p.stage, to)
    ensures MovesOn(l, p, p.(stage := to))
  {
  }

  lemma HeldRequestSent(w: World, id: nat)
    requires WorldInv(w) && id in w.procs && Holds(w.net, id) && SavedRequest(w, id).Some?
    ensures LaunchSent(w.net.log, SavedRequest(w, id).value)
  {
    var net, l := w.net, LeaseOf(w.net, id);
    assert ProcInv(net.origin, net.log, net.puts, w.terminations, id, net.clients[id], w.procs[id]);
    var a :| 0 <= a < |net.log| && net.log[a].owner == id && net.log[a].next == Some(l.document);
  }

  lemma SendLaunchKeeps(w: World, id: nat)
    requires WorldInv(w) && Allowed(w, SendLaunch(id))
    ensures WorldInv(Proceed(w, SendLaunch(id)))
  {
    HeldRequestSent(w, id);
    PlainMoveKeeps(w, Proceed(w, SendLaunch(id)), id, LaunchAwait);
  }

  lemma TransmitKeeps(w: World, m: Move)
    requires WorldInv(w) && Allowed(w, m) && m.Transmit?
    ensures WorldInv(Proceed(w, m))
  {
    SameButObjects(w, Proceed(w, m).objects);
  }

  lemma SameButObjects(w: World, objects: map<nat, Object>)
    requires WorldInv(w)
    ensures WorldInv(w.(objects := objects))
  {
  }

  lemma CheckpointedMovesOn(l: Local<Authority>, p: Proc, upload: Option<nat>, tag: nat)
    requires p.stage.Upload?
    ensures MovesOn(l, p, p.(stage := Capture, capturing := Some(CaptureMetadata(p, upload, tag))))
  {
  }

  lemma CheckpointedKeeps(w: World, m: Move)
    requires WorldInv(w) && Allowed(w, m) && m.Checkpointed?
    ensures WorldInv(Proceed(w, m))
  {
    var p := w.procs[m.id];
    CheckpointedMovesOn(LeaseOf(w.net, m.id), p, m.upload, m.tag);
    MovedOnKeeps(w, Proceed(w, m), m.id, p.(stage := Capture, capturing := Some(CaptureMetadata(p, m.upload, m.tag))));
  }

  lemma TerminatedMovesOn(l: Local<Authority>, p: Proc)
    requires AwaitsTermination(p.stage)
    ensures MovesOn(l, p, AfterTermination(p))
  {
  }

  lemma TerminatedKeeps(w: World, id: nat)
    requires WorldInv(w) && Allowed(w, Terminated(id))
    ensures WorldInv(Proceed(w, Terminated(id)))
  {
    TerminatedMovesOn(LeaseOf(w.net, id), w.procs[id]);
    MovedOnKeeps(w, Proceed(w, Terminated(id)), id, AfterTermination(w.procs[id]));
  }

  lemma LaunchReturnedKeeps(w: World, id: nat)
    requires WorldInv(w) && Allowed(w, LaunchReturned(id))
    ensures WorldInv(Proceed(w, LaunchReturned(id)))
  {
    PlainMoveKeeps(w, Proceed(w, LaunchReturned(id)), id, Launched);
  }

  lemma FailReadinessKeeps(w: World, id: nat)
    requires WorldInv(w) && Allowed(w, FailReadiness(id))
    ensures WorldInv(Proceed(w, FailReadiness(id)))
  {
    PlainMoveKeeps(w, Proceed(w, FailReadiness(id)), id, FailCheck);
  }

  lemma BeginCaptureKeeps(w: World, id: nat)
    requires WorldInv(w) && Allowed(w, BeginCapture(id))
    ensures WorldInv(Proceed(w, BeginCapture(id)))
  {
    PlainMoveKeeps(w, Proceed(w, BeginCapture(id)), id, Upload);
  }

  lemma AbandonCaptureKeeps(w: World, id: nat)
    requires WorldInv(w) && Allowed(w, AbandonCapture(id))
    ensures WorldInv(Proceed(w, AbandonCapture(id)))
  {
    PlainMoveKeeps(w, Proceed(w, AbandonCapture(id)), id, Used);
  }

  lemma BeginDeleteKeeps(w: World, id: nat)
    requires WorldInv(w) && Allowed(w, BeginDelete(id))
    ensures WorldInv(Proceed(w, BeginDelete(id)))
  {
    PlainMoveKeeps(w, Proceed(w, BeginDelete(id)), id, DeleteCheck);
  }

  lemma DispatchedOwn(p: Proc, id: nat, generation: nat, terminations: set<(nat, Vm)>)
    requires OwnTerminations(p, id, generation, terminations) && p.role.Create?
    requires Terminates(p.stage) && p.doomed.Some?
    requires p.stage.Retire? ==> p.doomed.value.token < generation
    ensures OwnTerminations(AfterDispatch(p), id, generation, terminations + {(id, p.doomed.value)})
  {
  }

  lemma TerminatingOwn(w: World, id: nat)
    requires WorldInv(w) && id in w.procs && Holds(w.net, id) && !LeaseOf(w.net, id).aborted
    requires Terminates(w.procs[id].stage) && w.procs[id].doomed.Some? && w.procs[id].role.Create?
    ensures OwnTerminations(AfterDispatch(w.procs[id]), id, LeaseOf(w.net, id).document.generation,
                            w.terminations + {(id, w.procs[id].doomed.value)})
  {
    var p, l := w.procs[id], LeaseOf(w.net, id);
    assert ProcInv(w.net.origin, w.net.log, w.net.puts, w.terminations, id, w.net.clients[id], p);
    HeldDocOk(w, id);
    assert p.stage.Retire? ==> Loaded(p, l.document.state) && p.doomed.value.token < l.document.generation;
    DispatchedOwn(p, id, l.document.generation, w.terminations);
  }

  lemma DispatchedMovesOn(l: Local<Authority>, p: Proc)
    requires Terminates(p.stage)
    ensures MovesOn(l, p, AfterDispatch(p))
  {
  }

  lemma TerminatingHolder(w: World, id: nat)
    requires WorldInv(w) && id in w.procs && Holds(w.net, id)
    requires Terminates(w.procs[id].stage) && w.procs[id].doomed.Some?
    ensures ProcInv(w.net.origin, w.net.log, w.net.puts, w.terminations + {(id, w.procs[id].doomed.value)}, id,
                    w.net.clients[id], AfterDispatch(w.procs[id]))
    ensures Witness(w.net.log, id, w.procs[id].doomed.value)
  {
    DispatchedMovesOn(LeaseOf(w.net, id), w.procs[id]);
    MovedOn(w, id, AfterDispatch(w.procs[id]));
    if !LeaseOf(w.net, id).aborted && w.procs[id].role.Create? { TerminatingOwn(w, id); }
  }

  lemma TerminateKeeps(w: World, id: nat)
    requires WorldInv(w) && Allowed(w, Terminate(id))
    ensures WorldInv(Proceed(w, Terminate(id)))
  {
    TerminatingHolder(w, id);
    TerminateShape(w, id);
    OneProcessKeeps(w, Proceed(w, Terminate(id)), id);
  }

  lemma TerminateShape(w: World, id: nat)
    requires Allowed(w, Terminate(id)) && id in w.net.clients
    ensures var w' := Proceed(w, Terminate(id));
      && w'.net == w.net && OneProcess(w, w', id) && w'.procs[id] == AfterDispatch(w.procs[id])
      && w'.terminations == w.terminations + {(id, w.procs[id].doomed.value)} && w'.launches == w.launches
  {
  }

  lemma HandedOver(origin: Document, log: seq<Write>, puts: seq<Write>, terminations: set<(nat, Vm)>, id: nat,
                   c: Client<Authority>, p: Proc)
    requires ProcInv(origin, log, puts, terminations, id, c, p) && c.Holding? && p.stage.Handover?
    ensures ProcInv(origin, log, puts, terminations, id, c.(lease := c.lease.(deadline := None)), p.(stage := Live))
  {
  }

  lemma DeliverHandleKeeps(w: World, id: nat)
    requires WorldInv(w) && Allowed(w, Move.Deliver(id))
    ensures WorldInv(Proceed(w, Move.Deliver(id)))
  {
    StepInv(w.net, Promote(id));
    HandedOver(w.net.origin, w.net.log, w.net.puts, w.terminations, id, w.net.clients[id], w.procs[id]);
    HolderKeeps(w, Proceed(w, Move.Deliver(id)), id, LeaseOf(w.net, id).(deadline := None),
                w.procs[id].(stage := Live));
  }

  lemma NetMoveKeeps(w: World, step: Step<Authority>)
    requires WorldInv(w) && Allowed(w, Net(step))
    ensures WorldInv(Proceed(w, Net(step)))
  {
    if step.Tick? { TickKeeps(w, step.now); }
    else if step.Deliver? { DeliveryKeeps(w, step.put); }
    else if step.StartNext? { StartNextKeeps(w, step.id); }
    else if step.SendAcquire? { SendAcquireKeeps(w, step.id); }
    else if step.Fetch? || step.Contend? || step.AcquireRejected? || step.Stop? { QuietApproachKeeps(w, step); }
    else { QuietHolderKeeps(w, step); }
  }

  /** Moves that open, answer, ask or hand over. */
  lemma LeaseMoveKeeps(w: World, m: Move)
    requires WorldInv(w) && Allowed(w, m) && !m.Net? && !OwnMove(m)
    ensures WorldInv(Proceed(w, m))
  {
    if m.Grant? { GrantKeeps(w, m.id); }
    else if m.Confirm? { ConfirmKeeps(w, m.id, m.choice); }
    else if m.Update? { UpdateKeeps(w, m.id, m.config, m.activation); }
    else if m.Deliver? { DeliverHandleKeeps(w, m.id); }
    else { OpenKeeps(w, m); }
  }

  /** Moves of one process that leave the lease alone. */
  predicate OwnMove(m: Move) {
    m.Terminate? || m.SendLaunch? || m.LaunchReturned? || m.Terminated? || m.FailReadiness? || m.BeginCapture?
    || m.Transmit? || m.Checkpointed? || m.AbandonCapture? || m.BeginDelete?
  }

  /** ... of which these only change its stage. */
  predicate StageMove(m: Move) {
    m.LaunchReturned? || m.Terminated? || m.FailReadiness? || m.BeginCapture? || m.AbandonCapture? || m.BeginDelete?
  }

  lemma StageMoveKeeps(w: World, m: Move)
    requires WorldInv(w) && Allowed(w, m) && StageMove(m)
    ensures WorldInv(Proceed(w, m))
  {
    if m.LaunchReturned? { LaunchReturnedKeeps(w, m.id); }
    else if m.Terminated? { TerminatedKeeps(w, m.id); }
    else if m.FailReadiness? { FailReadinessKeeps(w, m.id); }
    else if m.BeginCapture? { BeginCaptureKeeps(w, m.id); }
    else if m.AbandonCapture? { AbandonCaptureKeeps(w, m.id); }
    else { BeginDeleteKeeps(w, m.id); }
  }

  lemma CallMoveKeeps(w: World, m: Move)
    requires WorldInv(w) && Allowed(w, m) && OwnMove(m) && !StageMove(m)
    ensures WorldInv(Proceed(w, m))
  {
    if m.Terminate? { TerminateKeeps(w, m.id); }
    else if m.SendLaunch? { SendLaunchKeeps(w, m.id); }
    else if m.Transmit? { TransmitKeeps(w, m); }
    else { CheckpointedKeeps(w, m); }
  }

  lemma OwnMoveKeeps(w: World, m: Move)
    requires WorldInv(w) && Allowed(w, m) && OwnMove(m)
    ensures WorldInv(Proceed(w, m))
  {
    if StageMove(m) { StageMoveKeeps(w, m); } else { CallMoveKeeps(w, m); }
  }

  lemma MoveKeeps(w: World, m: Move)
    requires WorldInv(w) && Allowed(w, m)
    ensures WorldInv(Proceed(w, m))
  {
    if m.Net? { NetMoveKeeps(w, m.step); } else if OwnMove(m) { OwnMoveKeeps(w, m); } else { LeaseMoveKeeps(w, m); }
  }

  // ------------------------------------------------------------------ Runs

  ghost predicate Behaves(w: World, moves: seq<Move>)
    decreases |moves|
  {
    moves == [] || (Allowed(w, moves[0]) && Behaves(Proceed(w, moves[0]), moves[1..]))
  }

  ghost function Outcome(w: World, moves: seq<Move>): World
    requires Behaves(w, moves)
    decreases |moves|
  {
    if moves == [] then w else Outcome(Proceed(w, moves[0]), moves[1..])
  }

  lemma {:induction false} BehaviourKeeps(w: World, moves: seq<Move>)
    requires WorldInv(w) && Behaves(w, moves)
    ensures WorldInv(Outcome(w, moves))
    decreases |moves|
  {
    if moves != [] {
      MoveKeeps(w, moves[0]);
      BehaviourKeeps(Proceed(w, moves[0]), moves[1..]);
    }
  }

  /** In every run: while a delivered handle passes its lease check, no process has dispatched a
      termination of its VM. */
  lemma NoLiveHandleLosesItsVm(w: World, moves: seq<Move>, id: nat, other: nat)
    requires InitWorld(w) && Behaves(w, moves)
    requires At(Outcome(w, moves), id, Live)
    requires Passes(LeaseOf(Outcome(w, moves).net, id), Outcome(w, moves).net.now)
    ensures (other, Vm(Outcome(w, moves).procs[id].token)) !in Outcome(w, moves).terminations
  {
    InitInv(w.net);
    BehaviourKeeps(w, moves);
    LiveVmIsSafe(Outcome(w, moves), id, other);
  }

  lemma OneRequest(ids: set<nat>, origin: Document, log: seq<Write>, r1: LaunchRequest, r2: LaunchRequest)
    requires LogInv(true, ids, origin, log) && HistoryOk(origin, log)
    requires LaunchSent(log, r1) && LaunchSent(log, r2) && r1.token == r2.token
    ensures r1 == r2
  {
    var a :| 0 <= a < |log| && LaunchOf(StateOf(log[a].next)).Some?
      && LaunchOf(StateOf(log[a].next)).value.request == Some(r1);
    var b :| 0 <= b < |log| && LaunchOf(StateOf(log[b].next)).Some?
      && LaunchOf(StateOf(log[b].next)).value.request == Some(r2);
    DocsOk(ids, origin, log, a + 1);
    DocsOk(ids, origin, log, b + 1);
    if a <= b {
      LaunchesGrow(ids, origin, log, a + 1, b + 1, r1.token);
    } else {
      LaunchesGrow(ids, origin, log, b + 1, a + 1, r1.token);
    }
  }

  /** In every run: launch calls with one client token carry one and the same request. */
  lemma RetriesReplayTheRequest(w: World, moves: seq<Move>, r1: LaunchRequest, r2: LaunchRequest)
    requires InitWorld(w) && Behaves(w, moves)
    requires r1 in Outcome(w, moves).launches && r2 in Outcome(w, moves).launches
    requires r1.token == r2.token
    ensures r1 == r2
  {
    InitInv(w.net);
    BehaviourKeeps(w, moves);
    var net := Outcome(w, moves).net;
    OneRequest(net.clients.Keys, net.origin, net.log, r1, r2);
  }

  // ------------------------------------------------------------------ Checkpoints

  /** The write removes committed metadata, as only a delete does. */
  predicate Erases(put: Write) {
    put.kind == Publication && StateOf(put.next) == Some(Authority(None, None)) && MetadataOf(StateOf(put.guard)).Some?
  }

  /** Between deletes the committed checkpoint changes only to one of a higher generation, whoever
      holds the session. */
  lemma {:induction false} CheckpointsMoveForward(ids: set<nat>, origin: Document, log: seq<Write>, a: nat, b: nat)
    requires LogInv(true, ids, origin, log) && HistoryOk(origin, log) && a <= b <= |log|
    requires forall k | a <= k < b :: !Erases(log[k])
    requires MetadataOf(StateOf(After(origin, log, a))).Some?
    ensures var m, m' := MetadataOf(StateOf(After(origin, log, a))), MetadataOf(StateOf(After(origin, log, b)));
            m'.Some? && (m'.value.checkpoint == m.value.checkpoint
                         || CheckpointGen(m.value.checkpoint) < CheckpointGen(m'.value.checkpoint))
    decreases b
  {
    if a < b {
      CheckpointsMoveForward(ids, origin, log, a, b - 1);
      assert Entry(true, ids, origin, log, b - 1) && EntryOk(origin, log, b - 1);
      DurableNext(log[b - 1]);
    }
  }

  lemma CommittedCheckpointNeverRegresses(w: World, moves: seq<Move>, a: nat, b: nat)
    requires InitWorld(w) && Behaves(w, moves)
    requires a <= b <= |Outcome(w, moves).net.log|
    requires var net := Outcome(w, moves).net; forall k | a <= k < b :: !Erases(net.log[k])
    ensures var net := Outcome(w, moves).net;
            CommittedGen(StateOf(After(net.origin, net.log, a))) <= CommittedGen(StateOf(After(net.origin, net.log, b)))
  {
    InitInv(w.net);
    BehaviourKeeps(w, moves);
    var net := Outcome(w, moves).net;
    if MetadataOf(StateOf(After(net.origin, net.log, a))).Some? {
      CheckpointsMoveForward(net.clients.Keys, net.origin, net.log, a, b);
    }
  }

  /** Only a process that is deleting the session sends a write that erases what was committed, and what it
      erases is the metadata it knows as its own. */
  lemma OnlyDeletesErase(w: World, id: nat)
    requires WorldInv(w) && id in w.procs && Enabled(w.net, StartNext(id))
    requires !Started(LeaseOf(w.net, id), w.net.now).operation.Idle?
    requires Erases(Apply(w.net, StartNext(id)).puts[|w.net.puts|])
    ensures w.procs[id].stage.Erase? && MetadataOf(LeaseOf(w.net, id).document.state) == w.procs[id].metadata
  {
    var net, p, l := w.net, w.procs[id], LeaseOf(w.net, id);
    assert ProcInv(net.origin, net.log, net.puts, w.terminations, id, net.clients[id], p);
    assert Known(net.durable, net.now, net.store, net.puts, id, net.clients[id]);
    ErasingPublishes(net, id);
    assert l.queue[0] in l.queue;
    PublicationCounts(l.queue, 0);
    OnlyEraseErases(p, l.document.generation, l.document.state);
  }

  /** A write that erases is a publication of nothing over the metadata in the document. */
  lemma ErasingPublishes(net: Network, id: nat)
    requires Enabled(net, StartNext(id)) && !Started(LeaseOf(net, id), net.now).operation.Idle?
    requires Known(net.durable, net.now, net.store, net.puts, id, net.clients[id])
    requires Erases(Apply(net, StartNext(id)).puts[|net.puts|])
    ensures var l := LeaseOf(net, id);
      !l.aborted && l.queue[0] == Publish(Authority(None, None)) && MetadataOf(l.document.state).Some?
  {
  }

  lemma OnlyEraseErases(p: Proc, generation: nat, state: Option<Authority>)
    requires Publishes(p.stage) && StageOk(p, state) && Proposal(p, generation, state) == Authority(None, None)
    requires MetadataOf(state).Some?
    ensures p.stage.Erase?
  {
  }

  /** A capture that uploaded publishes a generation above the one committed under its lease. */
  lemma UploadingCaptureRises(w: World, id: nat, upload: nat, tag: nat)
    requires WorldInv(w) && Allowed(w, Checkpointed(id, Some(upload), tag)) && !LeaseOf(w.net, id).aborted
    ensures var capturing := Proceed(w, Checkpointed(id, Some(upload), tag)).procs[id].capturing;
            capturing.Some?
            && CommittedGen(LeaseOf(w.net, id).document.state) < CheckpointGen(capturing.value.checkpoint)
  {
    assert ProcInv(w.net.origin, w.net.log, w.net.puts, w.terminations, id, w.net.clients[id], w.procs[id]);
    NextIsAbove(w.procs[id], LeaseOf(w.net, id).document.state, upload);
  }

  lemma NextIsAbove(p: Proc, state: Option<Authority>, upload: nat)
    requires StageOk(p, state) && p.stage.Upload?
    ensures CommittedGen(state) < NextCheckpoint(p, upload).generation
  {
  }

  /** A capture dispatches its termination only after the authority naming its metadata, and no
      longer naming the launch, took effect in the store. */
  lemma CapturePublishesBeforeTermination(w: World, moves: seq<Move>, id: nat)
    requires InitWorld(w) && Behaves(w, moves)
    requires Allowed(Outcome(w, moves), Terminate(id)) && Outcome(w, moves).procs[id].stage.Captured?
    ensures CaptureStored(Outcome(w, moves).net.log, id, Outcome(w, moves).procs[id].metadata)
  {
    InitInv(w.net);
    BehaviourKeeps(w, moves);
    var v := Outcome(w, moves);
    assert ProcInv(v.net.origin, v.net.log, v.net.puts, v.terminations, id, v.net.clients[id], v.procs[id]);
  }
}

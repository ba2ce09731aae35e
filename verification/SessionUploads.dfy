/** Every checkpoint any authority document ever names was fully uploaded before. */
module SessionUploads {
  import opened Common
  import opened Lease
  import opened LeaseProtocol
  import opened Session
  import opened SessionProtocol
  import opened SessionSafety

  predicate Backed(objects: map<nat, Object>, c: Option<Checkpoint>) {
    c.Some? ==> Uploaded(objects, c.value)
  }

  predicate MetadataBacked(objects: map<nat, Object>, m: Option<Metadata>) {
    m.Some? ==> Backed(objects, m.value.checkpoint)
  }

  predicate StateBacked(objects: map<nat, Object>, a: Option<Authority>) {
    MetadataBacked(objects, MetadataOf(a))
  }

  predicate LeaseBacked(objects: map<nat, Object>, l: Local<Authority>) {
    && StateBacked(objects, l.document.state)
    && (l.operation.Writing? ==> StateBacked(objects, l.operation.next.state))
    && (forall r | r in l.queue && r.Publish? :: StateBacked(objects, Some(r.state)))
  }

  predicate ClientBacked(objects: map<nat, Object>, c: Client<Authority>) {
    match c
    case Fetched(_, _, seen) => StateBacked(objects, StateOf(seen))
    case Holding(l, _) => LeaseBacked(objects, l)
    case _ => true
  }

  predicate ProcBacked(objects: map<nat, Object>, p: Proc) {
    && MetadataBacked(objects, p.metadata) && Backed(objects, p.template) && MetadataBacked(objects, p.capturing)
    && StateBacked(objects, p.pending)
  }

  predicate WritesBacked(objects: map<nat, Object>, writes: seq<Write>) {
    forall k | 0 <= k < |writes| :: StateBacked(objects, StateOf(writes[k].next))
  }

  predicate NetBacked(objects: map<nat, Object>, net: Network) {
    && StateBacked(objects, StateOf(net.origin)) && StateBacked(objects, StateOf(net.store))
    && WritesBacked(objects, net.puts) && WritesBacked(objects, net.log)
    && (forall id | id in net.clients :: ClientBacked(objects, net.clients[id]))
  }

  /** Only objects with their parts in order were completed. */
  predicate CompletedInOrder(objects: map<nat, Object>) {
    forall u | u in objects :: objects[u].stored.Some? ==> PartsInOrder(objects[u])
  }

  predicate AllBacked(w: World) {
    && CompletedInOrder(w.objects)
    && NetBacked(w.objects, w.net)
    && w.procs.Keys == w.net.clients.Keys
    && (forall id | id in w.procs :: ProcBacked(w.objects, w.procs[id]))
  }

  lemma DeliverBacked(objects: map<nat, Object>, net: Network, k: nat)
    requires NetBacked(objects, net) && k < |net.puts| && net.puts[k].status == Pending
    ensures NetBacked(objects, Delivered(net, k))
  {
    assert StateBacked(objects, StateOf(net.puts[k].next));
  }

  /** One client's step: it sends nothing that is not backed and learns nothing that is not. */
  ghost predicate ClientStepBacked(objects: map<nat, Object>, net: Network, net': Network, id: nat) {
    && net'.origin == net.origin && net'.store == net.store && net'.log == net.log
    && net.puts <= net'.puts
    && (forall k | |net.puts| <= k < |net'.puts| :: StateBacked(objects, StateOf(net'.puts[k].next)))
    && id in net'.clients && ClientBacked(objects, net'.clients[id])
    && (forall j | j in net'.clients && j != id :: j in net.clients && net'.clients[j] == net.clients[j])
  }

  lemma OneClientBacked(objects: map<nat, Object>, net: Network, net': Network, id: nat)
    requires NetBacked(objects, net) && ClientStepBacked(objects, net, net', id)
    ensures NetBacked(objects, net')
  {
  }

  lemma HeldStepBacked(objects: map<nat, Object>, net: Network, step: Step<Authority>)
    requires NetBacked(objects, net) && Enabled(net, step)
    requires step.Enqueue? || step.StartNext? || step.WriteConfirmed? || step.WriteFailed? || step.ReleaseSettled?
      || step.Abort? || step.Promote? || step.CallRelease?
    requires step.Enqueue? && step.request.Publish? ==> StateBacked(objects, Some(step.request.state))
    ensures ClientStepBacked(objects, net, Apply(net, step), step.id)
  {
    assert ClientBacked(objects, net.clients[step.id]);
    if step.StartNext? { StartedBacked(objects, LeaseOf(net, step.id), net.now); }
  }

  lemma ApproachStepBacked(objects: map<nat, Object>, net: Network, step: Step<Authority>)
    requires NetBacked(objects, net) && Enabled(net, step)
    requires step.Begin? || step.Fetch? || step.Contend? || step.SendAcquire? || step.AcquireConfirmed?
      || step.AcquireRejected? || step.Stop?
    ensures ClientStepBacked(objects, net, Apply(net, step), step.id)
  {
    if !step.Begin? { assert ClientBacked(objects, net.clients[step.id]); }
    if step.AcquireConfirmed? { assert StateBacked(objects, StateOf(net.puts[net.clients[step.id].put].next)); }
  }

  /** A lease step moves states around and invents none but a published one. */
  lemma StepBacked(objects: map<nat, Object>, net: Network, step: Step<Authority>)
    requires NetBacked(objects, net) && Enabled(net, step)
    requires step.Enqueue? && step.request.Publish? ==> StateBacked(objects, Some(step.request.state))
    ensures NetBacked(objects, Apply(net, step))
  {
    if step.Tick? {
    } else if step.Deliver? {
      DeliverBacked(objects, net, step.put);
    } else {
      if step.Begin? || step.Fetch? || step.Contend? || step.SendAcquire? || step.AcquireConfirmed?
        || step.AcquireRejected?
         || step.Stop? {
        ApproachStepBacked(objects, net, step);
      } else {
        HeldStepBacked(objects, net, step);
      }
      OneClientBacked(objects, net, Apply(net, step), step.id);
    }
  }

  lemma StartedBacked(objects: map<nat, Object>, l: Local<Authority>, now: int)
    requires LeaseBacked(objects, l) && l.operation.Idle? && l.queue != []
    ensures LeaseBacked(objects, Started(l, now))
    ensures var next := Started(l, now);
            !next.operation.Idle? ==> StateBacked(objects, StateOf(Order(next).next))
  {
    assert l.queue[0] in l.queue;
    assert forall r | r in l.queue[1..] :: r in l.queue;
  }

  /** What is whole in `before` is there unchanged in `after`. */
  predicate KeepsWhole(before: map<nat, Object>, after: map<nat, Object>) {
    forall u | u in before && Whole(before[u]) :: u in after && after[u] == before[u]
  }

  lemma StillBacked(before: map<nat, Object>, after: map<nat, Object>, net: Network)
    requires KeepsWhole(before, after) && NetBacked(before, net)
    ensures NetBacked(after, net)
  {
    forall id | id in net.clients ensures ClientBacked(after, net.clients[id]) {
      assert ClientBacked(before, net.clients[id]);
    }
    forall k | 0 <= k < |net.puts| ensures StateBacked(after, StateOf(net.puts[k].next)) {
      assert StateBacked(before, StateOf(net.puts[k].next));
    }
    forall k | 0 <= k < |net.log| ensures StateBacked(after, StateOf(net.log[k].next)) {
      assert StateBacked(before, StateOf(net.log[k].next));
    }
  }

  lemma MoreObjects(w: World, objects: map<nat, Object>)
    requires AllBacked(w) && KeepsWhole(w.objects, objects) && CompletedInOrder(objects)
    ensures AllBacked(w.(objects := objects))
  {
    StillBacked(w.objects, objects, w.net);
    forall id | id in w.procs ensures ProcBacked(objects, w.procs[id]) {
      assert ProcBacked(w.objects, w.procs[id]);
    }
  }

  /** No step of an upload touches an object that is whole, and none completes parts out of order. */
  lemma TransmitBacked(w: World, m: Move)
    requires AllBacked(w) && Allowed(w, m) && m.Transmit?
    ensures AllBacked(Proceed(w, m))
  {
    MoreObjects(w, Proceed(w, m).objects);
  }

  /** What a process publishes or remembers next comes from what it and its lease knew. */
  lemma ProposalBacked(objects: map<nat, Object>, p: Proc, generation: nat, state: Option<Authority>)
    requires ProcBacked(objects, p) && StateBacked(objects, state) && Publishes(p.stage)
    ensures StateBacked(objects, Some(Proposal(p, generation, state)))
  {
  }

  lemma CheckpointBacked(w: World, id: nat, upload: Option<nat>, tag: nat)
    requires AllBacked(w) && Allowed(w, Checkpointed(id, upload, tag))
    ensures AllBacked(Proceed(w, Checkpointed(id, upload, tag)))
  {
    var w' := Proceed(w, Checkpointed(id, upload, tag));
    assert ProcBacked(w.objects, w.procs[id]);
    OneProcBacked(w, w', id, w'.procs[id]);
  }

  lemma LearnedBacked(objects: map<nat, Object>, p: Proc, generation: nat, state: Option<Authority>, choice: bool)
    requires ProcBacked(objects, p) && StateBacked(objects, state)
    ensures ProcBacked(objects, Session.Granted(p, generation, state))
    ensures ProcBacked(objects, Verified(p, state, choice))
  {
  }

  lemma AdvancedBacked(objects: map<nat, Object>, p: Proc, x: Authority)
    requires ProcBacked(objects, p)
    ensures ProcBacked(objects, Published(p, x))
    ensures ProcBacked(objects, AfterDispatch(p)) && ProcBacked(objects, AfterTermination(p))
  {
  }

  /** A move that touches one process and leaves the objects alone. */
  lemma OneProcBacked(w: World, w': World, id: nat, p: Proc)
    requires AllBacked(w) && w'.objects == w.objects && NetBacked(w.objects, w'.net)
    requires w'.procs == w.procs[id := p] && w'.net.clients.Keys == w.net.clients.Keys + {id}
    requires ProcBacked(w.objects, p)
    ensures AllBacked(w')
  {
  }

  lemma GrantBacked(w: World, id: nat)
    requires AllBacked(w) && Allowed(w, Grant(id))
    ensures AllBacked(Proceed(w, Grant(id)))
  {
    StepBacked(w.objects, w.net, AcquireConfirmed(id));
    GrantFrame(w, id);
    GrantedProcBacked(w, id);
    OneProcBacked(w, Proceed(w, Grant(id)), id, Proceed(w, Grant(id)).procs[id]);
  }

  lemma GrantedProcBacked(w: World, id: nat)
    requires AllBacked(w) && Allowed(w, Grant(id)) && NetBacked(w.objects, Apply(w.net, AcquireConfirmed(id)))
    ensures ProcBacked(w.objects, Proceed(w, Grant(id)).procs[id])
  {
    var net' := Apply(w.net, AcquireConfirmed(id));
    assert ProcBacked(w.objects, w.procs[id]) && ClientBacked(w.objects, net'.clients[id]);
    if Holds(net', id) {
      LearnedBacked(w.objects, w.procs[id], LeaseOf(net', id).document.generation, LeaseOf(net', id).document.state,
                    false);
    }
  }

  lemma ConfirmedProcBacked(w: World, id: nat, choice: bool)
    requires AllBacked(w) && Allowed(w, Confirm(id, choice))
    ensures ProcBacked(w.objects, ConfirmedProc(w, id, choice))
  {
    var l, p := LeaseOf(w.net, id), w.procs[id];
    assert ProcBacked(w.objects, p) && ClientBacked(w.objects, w.net.clients[id]);
    if l.operation.request.Publish? {
      AdvancedBacked(w.objects, p, l.operation.request.state);
    } else {
      LearnedBacked(w.objects, p, 0, l.document.state, choice);
    }
  }

  lemma ConfirmBacked(w: World, id: nat, choice: bool)
    requires AllBacked(w) && Allowed(w, Confirm(id, choice))
    ensures AllBacked(Proceed(w, Confirm(id, choice)))
  {
    StepBacked(w.objects, w.net, WriteConfirmed(id));
    ConfirmShape(w, id, choice);
    ConfirmedProcBacked(w, id, choice);
    OneProcBacked(w, Proceed(w, Confirm(id, choice)), id, ConfirmedProc(w, id, choice));
  }

  lemma UpdateBacked(w: World, m: Move)
    requires AllBacked(w) && Allowed(w, m) && m.Update?
    ensures AllBacked(Proceed(w, m))
  {
    var w' := Proceed(w, m);
    var l := LeaseOf(w.net, m.id);
    assert ProcBacked(w.objects, w.procs[m.id]) && ClientBacked(w.objects, w.net.clients[m.id]);
    ProposalBacked(w.objects, w.procs[m.id].(config := m.config, activation := m.activation), l.document.generation,
                   l.document.state);
    StepBacked(w.objects, w.net, NetStep(w, m).value);
    OneProcBacked(w, w', m.id, w'.procs[m.id]);
  }

  lemma OpenBacked(w: World, m: Move)
    requires AllBacked(w) && Allowed(w, m) && (m.OpenSession? || m.OpenCleanup? || m.OpenDelete?)
    ensures AllBacked(Proceed(w, m))
  {
    StepBacked(w.objects, w.net, NetStep(w, m).value);
    OneProcBacked(w, Proceed(w, m), m.id, Proceed(w, m).procs[m.id]);
  }

  lemma NetMoveBacked(w: World, step: Step<Authority>)
    requires AllBacked(w) && Allowed(w, Net(step))
    ensures AllBacked(Proceed(w, Net(step)))
  {
    StepBacked(w.objects, w.net, step);
    assert Apply(w.net, step).clients.Keys == w.net.clients.Keys;
  }

  lemma DeliverHandleBacked(w: World, id: nat)
    requires AllBacked(w) && Allowed(w, Move.Deliver(id))
    ensures AllBacked(Proceed(w, Move.Deliver(id)))
  {
    assert ProcBacked(w.objects, w.procs[id]);
    StepBacked(w.objects, w.net, Promote(id));
    OneProcBacked(w, Proceed(w, Move.Deliver(id)), id, w.procs[id].(stage := Live));
  }

  lemma TerminationBacked(w: World, m: Move)
    requires AllBacked(w) && Allowed(w, m) && (m.Terminate? || m.Terminated?)
    ensures AllBacked(Proceed(w, m))
  {
    assert ProcBacked(w.objects, w.procs[m.id]);
    AdvancedBacked(w.objects, w.procs[m.id], Authority(None, None));
    OneProcBacked(w, Proceed(w, m), m.id, Proceed(w, m).procs[m.id]);
  }

  lemma StageMoveBacked(w: World, m: Move)
    requires AllBacked(w) && Allowed(w, m)
    requires m.SendLaunch? || m.LaunchReturned? || m.FailReadiness? || m.BeginCapture? || m.AbandonCapture?
        || m.BeginDelete?
    ensures AllBacked(Proceed(w, m))
  {
    assert ProcBacked(w.objects, w.procs[m.id]);
    OneProcBacked(w, Proceed(w, m), m.id, Proceed(w, m).procs[m.id]);
  }

  lemma MoveBacked(w: World, m: Move)
    requires AllBacked(w) && Allowed(w, m)
    ensures AllBacked(Proceed(w, m))
  {
    if m.Net? { NetMoveBacked(w, m.step); }
    else if OwnMove(m) { OwnMoveBacked(w, m); }
    else if m.Grant? { GrantBacked(w, m.id); }
    else if m.Confirm? { ConfirmBacked(w, m.id, m.choice); }
    else if m.Update? { UpdateBacked(w, m); }
    else if m.Deliver? { DeliverHandleBacked(w, m.id); }
    else { OpenBacked(w, m); }
  }

  lemma OwnMoveBacked(w: World, m: Move)
    requires AllBacked(w) && Allowed(w, m) && OwnMove(m)
    ensures AllBacked(Proceed(w, m))
  {
    if m.Transmit? { TransmitBacked(w, m); }
    else if m.Checkpointed? { CheckpointBacked(w, m.id, m.upload, m.tag); }
    else if m.Terminate? || m.Terminated? { TerminationBacked(w, m); }
    else { StageMoveBacked(w, m); }
  }

  lemma {:induction false} BehaviourBacked(w: World, moves: seq<Move>)
    requires AllBacked(w) && Behaves(w, moves)
    ensures AllBacked(Outcome(w, moves))
    decreases |moves|
  {
    if moves != [] {
      MoveBacked(w, moves[0]);
      BehaviourBacked(Proceed(w, moves[0]), moves[1..]);
    }
  }

  /** In every run, every checkpoint that a document in effect names is stored with all its parts in order
      and in the size announced. */
  lemma AuthorityNamesUploadedCheckpoints(w: World, moves: seq<Move>, k: nat)
    requires InitWorld(w) && Behaves(w, moves) && k < |Outcome(w, moves).net.log|
    ensures MetadataBacked(Outcome(w, moves).objects, MetadataOf(StateOf(Outcome(w, moves).net.log[k].next)))
  {
    BehaviourBacked(w, moves);
  }

  /** Part by part: such an object has every part announced, numbered from one, and the size announced. */
  lemma NamedCheckpointsAreWhole(w: World, moves: seq<Move>, k: nat, m: Metadata)
    requires InitWorld(w) && Behaves(w, moves) && k < |Outcome(w, moves).net.log|
    requires MetadataOf(StateOf(Outcome(w, moves).net.log[k].next)) == Some(m) && m.checkpoint.Some?
    ensures var objects, c := Outcome(w, moves).objects, m.checkpoint.value;
      && c.upload in objects && objects[c.upload].checkpoint == c
      && objects[c.upload].stored == Some(objects[c.upload].size)
      && |objects[c.upload].parts| == objects[c.upload].announced
      && forall n | 0 <= n < objects[c.upload].announced :: objects[c.upload].parts[n] == n + 1
  {
    AuthorityNamesUploadedCheckpoints(w, moves, k);
  }

  /** An upload is changed only by the process that began it, and not once it is completed. */
  lemma OnlyOwnUploads(w: World, m: Move, u: nat)
    requires Allowed(w, m) && u in w.objects
    ensures var objects := Proceed(w, m).objects;
      u !in objects || objects[u] != w.objects[u] ==>
        m.Transmit? && m.id == w.objects[u].owner && w.objects[u].stored.None?
  {
  }
}
